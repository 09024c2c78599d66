// Turns as the whole service runs them: the task store, the runner's
// goroutines with runTurn inside each, and the cancel and answer endpoints
// racing them (agent-api/turn.go, runner.go, task.go, tasks.go). Every
// lock-held region is one step and any two steps may interleave.
module Turns {
  import opened Ids
  import opened Tasks
  import R = Runners

  /** Where runTurn is, between its atomic steps. */
  datatype Pc = Begin | Waking | Readying | Sending | Watching | Returned

  /** `posted` is every task ever added, with its conversation; `stopped` the
      tasks whose cancel channel is closed; `answering` the tasks an answer
      request has seen waiting on a question. */
  datatype World = World(
    tasks: Store, stopped: set<Id>, runner: R.World, pcs: map<nat, Pc>,
    posted: map<Id, R.Conv>, answering: set<Id>)

  const START := World(Store([], map[]), {}, R.START, map[], map[], {})

  datatype TurnStep =
    | Proceed(now: Time)
    | SeeCancel
    | Fail(error: Text, now: Time)
    | Settle(result: Text, background: bool, now: Time)
    | StillRunning(now: Time)
    | Ask(question: Question, now: Time)
    | Reread(question: Question)

  datatype Event =
    | Post(task: Task, now: Time, max: int)
    | Submit(id: Id, g: nat)
    | Lock(g: nat)
    | Turn(g: nat, step: TurnStep)
    | TurnEnd(g: nat)
    | CancelMark(id: Id, now: Time)
    | CancelClose(id: Id)
    | AnswerSees(id: Id)
    | AnswerLands(id: Id, now: Time)
    | AnswerRereads(id: Id, question: Question)

  predicate InTurn(w: World, g: nat) {
    g in w.runner.goroutines && w.runner.goroutines[g].phase.InTurn? && g in w.pcs
  }

  function JobOf(w: World, g: nat): R.Job
    requires InTurn(w, g)
  {
    w.runner.goroutines[g].phase.job
  }

  /** What a look at the cancel channel can find. It is closed by Cancel, and
      TaskStore.Cancelled gives a closed one for no such task; a turn that took
      its channel before the task was pruned can still find that one open. */
  predicate MayBeClosed(w: World, id: Id) {
    id !in w.tasks.byID || id in w.stopped
  }

  predicate MayBeOpen(w: World, id: Id) {
    id !in w.stopped
  }

  /** The steps runTurn can take from where it is. A cancel is looked at on
      entry, at the end of the wait for the pane (unless the session could not be
      found before it), and on every tick of the watch. */
  predicate CanStep(pc: Pc, s: TurnStep, closed: bool, open: bool) {
    match s
    case Proceed(_) =>
      (pc == Begin && open) || pc == Waking || pc == Readying || pc == Sending
    case SeeCancel => closed && (pc == Begin || pc == Readying || pc == Watching)
    case Fail(_, _) => pc == Waking || pc == Readying || pc == Sending || pc == Watching
    case _ => pc == Watching
  }

  predicate MayStep(w: World, g: nat, s: TurnStep)
    requires InTurn(w, g)
  {
    CanStep(w.pcs[g], s, MayBeClosed(w, JobOf(w, g).id), MayBeOpen(w, JobOf(w, g).id))
  }

  predicate Enabled(w: World, e: Event) {
    match e
    case Post(t, _, _) => t.id !in w.posted && t.id !in w.tasks.byID
    case Submit(id, g) => id in w.posted && g !in w.runner.goroutines
      && forall j :: j in w.runner.submitted ==> j.id != id
    case Lock(g) => R.Enabled(w.runner, R.LockEvent(g))
    case Turn(g, s) => InTurn(w, g) && MayStep(w, g, s)
    case TurnEnd(g) => InTurn(w, g) && w.pcs[g] == Returned
    case CancelMark(_, _) => true
    case CancelClose(id) => id in w.posted && (id in w.tasks.byID ==> w.tasks.byID[id].status == Cancelled)
    case AnswerSees(id) => id in w.tasks.byID && w.tasks.byID[id].status == NeedsInput
    case AnswerLands(id, _) => id in w.answering
    case AnswerRereads(id, _) => id in w.answering
  }

  function NextPc(pc: Pc, s: TurnStep): Pc {
    match s
    case Proceed(_) =>
      (match pc
       case Begin => Waking
       case Waking => Readying
       case Readying => Sending
       case _ => Watching)
    case SeeCancel => Returned
    case Fail(_, _) => Returned
    case Settle(_, _, _) => Returned
    case _ => pc
  }

  /** A whole run of runTurn from where it is: steps it may take, up to its return. */
  predicate Walks(pc: Pc, steps: seq<TurnStep>)
    decreases |steps|
  {
    if steps == [] then pc == Returned
    else CanStep(pc, steps[0], true, true) && Walks(NextPc(pc, steps[0]), steps[1..])
  }

  /** What a step of runTurn does to its own task. */
  function TurnTasks(s: Store, pc: Pc, id: Id, step: TurnStep): Store {
    match step
    case Proceed(now) => if pc == Sending then Update(s, id, Running, Nothing, now) else s
    case SeeCancel => s
    case Fail(error, now) => Update(s, id, Failed, Reason(error), now)
    case Settle(result, background, now) => Update(s, id, Done, Answer(result, background), now)
    case StillRunning(now) => Update(s, id, Running, Nothing, now)
    case Ask(q, now) => Update(s, id, NeedsInput, Asking(q), now)
    case Reread(q) => SetQuestion(s, id, q)
  }

  /** What a step of runTurn leaves: `sending` is the one that has just sent. */
  ghost predicate StepDoes(id: Id, step: TurnStep, sending: bool, s: Store, n: Store) {
    && n.order == s.order
    && match step
       case Proceed(now) => if sending then Updates(s.byID, n.byID, id, Running, Nothing, now) else n.byID == s.byID
       case SeeCancel => n.byID == s.byID
       case Fail(error, now) => Updates(s.byID, n.byID, id, Failed, Reason(error), now)
       case Settle(result, bg, now) => Updates(s.byID, n.byID, id, Done, Answer(result, bg), now)
       case StillRunning(now) => Updates(s.byID, n.byID, id, Running, Nothing, now)
       case Ask(q, now) => Updates(s.byID, n.byID, id, NeedsInput, Asking(q), now)
       case Reread(q) => Requestions(s.byID, n.byID, id, q)
  }

  lemma TurnDoes(s: Store, pc: Pc, id: Id, step: TurnStep, sending: bool)
    requires step.Proceed? ==> (sending <==> pc == Sending)
    ensures StepDoes(id, step, sending, s, TurnTasks(s, pc, id, step))
  {
  }

  /** A turn's steps, with what everybody else does to the store before each. */
  function Played(
      s: Store, pc: Pc, id: Id, steps: seq<TurnStep>, i: nat, others: (nat, TurnStep, Store) -> Store): Store
    decreases |steps|
  {
    if steps == [] then s
    else
      var n := TurnTasks(others(i, steps[0], s), pc, id, steps[0]);
      Played(n, NextPc(pc, steps[0]), id, steps[1..], i + 1, others)
  }

  predicate FinishedOrGone(s: Store, id: Id) {
    id in s.byID ==> Terminal(s.byID[id].status)
  }

  /** Where a turn finds its cancel channel closed, its task was cancelled (or is
      gone); CancelSeen is why. Otherwise the others may do anything at all. */
  ghost predicate CancelsFirst(id: Id, others: (nat, TurnStep, Store) -> Store) {
    forall i: nat, step: TurnStep, s: Store :: step.SeeCancel? ==> FinishedOrGone(others(i, step, s), id)
  }

  /** Whatever races it, a turn that has returned has left its task finished. */
  lemma {:induction false} WalkEnds(
      s: Store, pc: Pc, id: Id, steps: seq<TurnStep>, i: nat, others: (nat, TurnStep, Store) -> Store)
    requires pc != Returned && Walks(pc, steps) && CancelsFirst(id, others)
    ensures FinishedOrGone(Played(s, pc, id, steps, i, others), id)
    decreases |steps|
  {
    var n := TurnTasks(others(i, steps[0], s), pc, id, steps[0]);
    if NextPc(pc, steps[0]) != Returned {
      WalkEnds(n, NextPc(pc, steps[0]), id, steps[1..], i + 1, others);
    } else {
      assert steps[1..] == [];
    }
  }

  ghost function Next(w: World, e: Event): World
    requires WellFormed(w.tasks) && Enabled(w, e)
  {
    match e
    case Post(t, now, max) =>
      w.(tasks := Add(w.tasks, t, now, max), posted := w.posted[t.id := t.conv])
    case Submit(id, g) =>
      w.(runner := R.Next(w.runner, R.SubmitEvent(R.Job(id, w.posted[id]), g)))
    case Lock(g) =>
      var c := w.runner.goroutines[g].conv;
      var r := R.Next(w.runner, R.LockEvent(g));
      if R.Drained(w.runner.queues, c) then w.(runner := r) else w.(runner := r, pcs := w.pcs[g := Begin])
    case Turn(g, s) =>
      w.(tasks := TurnTasks(w.tasks, w.pcs[g], JobOf(w, g).id, s), pcs := w.pcs[g := NextPc(w.pcs[g], s)])
    case TurnEnd(g) =>
      w.(runner := R.Next(w.runner, R.TurnEndEvent(g)), pcs := w.pcs - {g})
    case CancelMark(id, now) => w.(tasks := Update(w.tasks, id, Cancelled, Nothing, now))
    case CancelClose(id) => w.(stopped := w.stopped + {id})
    case AnswerSees(id) => w.(answering := w.answering + {id})
    case AnswerLands(id, now) => w.(tasks := Update(w.tasks, id, Running, Nothing, now))
    case AnswerRereads(id, q) => w.(tasks := SetQuestion(w.tasks, id, q))
  }

  ghost predicate Linked(w: World, e: Event, n: World) {
    WellFormed(w.tasks) && Enabled(w, e) && n == Next(w, e)
  }

  ghost predicate TurnRun(ws: seq<World>, es: seq<Event>) {
    && |ws| == |es| + 1 && ws[0] == START
    && forall k {:trigger es[k]} :: 0 <= k < |es| ==> Linked(ws[k], es[k], ws[k + 1])
  }

  // ---------- the invariant ----------

  /** A task's turn is the one in flight in its conversation, and being watched. */
  predicate Watched(w: World, id: Id) {
    && id in w.posted && w.posted[id] in w.runner.drains
    && InTurn(w, w.runner.drains[w.posted[id]])
    && JobOf(w, w.runner.drains[w.posted[id]]).id == id
    && w.pcs[w.runner.drains[w.posted[id]]] == Watching
  }

  predicate Over(w: World, id: Id) {
    id in w.tasks.byID ==> Terminal(w.tasks.byID[id].status)
  }

  predicate TaskOk(w: World, id: Id) {
    && (id in w.tasks.byID ==> id in w.posted && w.posted[id] == w.tasks.byID[id].conv)
    && (id in w.tasks.byID && Live(w.tasks.byID[id].status) ==> Watched(w, id))
    && (id in w.answering ==> id in w.posted && (id in w.tasks.byID ==> w.tasks.byID[id].status != Accepted))
    && (id in w.stopped ==> id in w.posted && (id in w.tasks.byID ==> w.tasks.byID[id].status == Cancelled))
  }

  predicate TurnOk(w: World, g: nat) {
    && (g in w.pcs <==> g in w.runner.goroutines && w.runner.goroutines[g].phase.InTurn?)
    && (InTurn(w, g) && w.pcs[g] == Returned ==> Over(w, JobOf(w, g).id))
  }

  predicate JobOk(w: World, j: R.Job) {
    j.id in w.posted && w.posted[j.id] == j.conv
  }

  ghost predicate Inv(w: World) {
    && WellFormed(w.tasks) && R.Inv(w.runner)
    && (forall id :: TaskOk(w, id))
    && (forall g :: TurnOk(w, g))
    && (forall j :: j in w.runner.submitted ==> JobOk(w, j))
    && (forall j :: j in w.runner.completed ==> j.id in w.posted && Over(w, j.id))
  }

  /** Every job in a queue or in flight was submitted. */
  lemma FromSubmitted(w: R.World, j: R.Job)
    requires R.Inv(w)
    requires j in R.InFlight(w, j.conv) || j in R.QueueOf(w.queues, j.conv).pending
    ensures j in w.submitted
  {
    assert R.Accounted(w, j.conv);
    assert j in R.Of(w.submitted, j.conv);
    InOf(w.submitted, j);
  }

  lemma {:induction false} InOf(ts: seq<R.Job>, j: R.Job)
    requires j in R.Of(ts, j.conv)
    ensures j in ts
  {
    if j in R.Of(ts[..|ts| - 1], j.conv) { InOf(ts[..|ts| - 1], j); }
  }

  /** The turn of a goroutine is the turn of its conversation. */
  lemma JobPlace(w: World, g: nat)
    requires Inv(w) && InTurn(w, g)
    ensures var j := JobOf(w, g);
      && j.conv == w.runner.goroutines[g].conv && j in w.runner.submitted && JobOk(w, j)
      && w.posted[j.id] in w.runner.drains && w.runner.drains[w.posted[j.id]] == g
  {
    var j := JobOf(w, g);
    assert R.InFlight(w.runner, j.conv) == [j];
    FromSubmitted(w.runner, j);
  }

  // ---------- what each event keeps ----------

  /** Steps that change one task and no goroutine. */
  ghost predicate OnlyTask(w: World, n: World, id: Id) {
    && n.runner == w.runner && n.posted == w.posted && n.tasks.order == w.tasks.order
    && n.tasks.byID.Keys == w.tasks.byID.Keys
    && (forall x :: x in w.tasks.byID && x != id ==> n.tasks.byID[x] == w.tasks.byID[x])
    && (id in w.tasks.byID ==>
          n.tasks.byID[id].id == w.tasks.byID[id].id && n.tasks.byID[id].conv == w.tasks.byID[id].conv)
    && Keeps(w.tasks, n.tasks, id)
  }

  lemma UpdateOnly(w: World, id: Id, next: Status, fill: Fill, now: Time)
    ensures OnlyTask(w, w.(tasks := Update(w.tasks, id, next, fill, now)), id)
  {
  }

  lemma OverStays(w: World, n: World, id: Id, other: Id)
    requires OnlyTask(w, n, id)
    ensures Over(w, other) ==> Over(n, other)
  {
  }

  lemma TurnInv(w: World, g: nat, s: TurnStep)
    requires Inv(w) && Enabled(w, Turn(g, s))
    ensures Inv(Next(w, Turn(g, s)))
  {
    TurnOwn(w, g, s);
    OwnInv(w, Next(w, Turn(g, s)), g);
  }

  /** A turn that keeps to its own task keeps the invariant. */
  lemma OwnInv(w: World, n: World, g: nat)
    requires Inv(w) && InTurn(w, g) && g in n.pcs && OwnStep(w, n, JobOf(w, g).id, n.pcs[g])
    requires n.pcs == w.pcs[g := n.pcs[g]] && n.answering == w.answering && n.stopped == w.stopped
    ensures Inv(n)
  {
    var id := JobOf(w, g).id;
    JobPlace(w, g);
    forall x: Id ensures TaskOk(n, x) { assert TaskOk(w, x); }
    forall h: nat ensures TurnOk(n, h) {
      assert TurnOk(w, h);
      if h != g && InTurn(w, h) && w.pcs[h] == Returned { OverStays(w, n, id, JobOf(w, h).id); }
    }
    forall j | j in n.runner.completed ensures Over(n, j.id) { OverStays(w, n, id, j.id); }
  }

  /** What a step of runTurn may do to its task. */
  ghost predicate OwnStep(w: World, n: World, id: Id, pc: Pc) {
    && OnlyTask(w, n, id) && WellFormed(n.tasks)
    && (id in n.tasks.byID && Live(n.tasks.byID[id].status) ==> pc == Watching)
    && (pc == Returned ==> Over(n, id))
    && (id in w.tasks.byID && w.tasks.byID[id].status != Accepted ==> n.tasks.byID[id].status != Accepted)
    && (id in w.tasks.byID && w.tasks.byID[id].status == Cancelled ==> n.tasks.byID[id].status == Cancelled)
  }

  lemma UpdateOwn(w: World, id: Id, next: Status, fill: Fill, now: Time, pc: Pc)
    requires WellFormed(w.tasks) && next != Accepted
    requires Live(next) ==> pc == Watching
    requires pc == Returned ==> Terminal(next)
    requires pc != Watching ==> Terminal(next)
    ensures OwnStep(w, w.(tasks := Update(w.tasks, id, next, fill, now)), id, pc)
  {
    UpdateOnly(w, id, next, fill, now);
  }

  lemma StayOwn(w: World, id: Id, pc: Pc)
    requires Inv(w) && (Watched(w, id) ==> pc == Watching) && pc != Returned
    ensures OwnStep(w, w, id, pc)
  {
    assert TaskOk(w, id);
  }

  lemma StopOwn(w: World, id: Id)
    requires Inv(w) && Over(w, id)
    ensures OwnStep(w, w, id, Returned)
  {
  }

  lemma RereadOwn(w: World, id: Id, q: Question)
    requires WellFormed(w.tasks)
    ensures OwnStep(w, w.(tasks := SetQuestion(w.tasks, id, q)), id, Watching)
  {
  }

  lemma TurnOwn(w: World, g: nat, s: TurnStep)
    requires Inv(w) && InTurn(w, g) && MayStep(w, g, s)
    ensures var id := JobOf(w, g).id;
      OwnStep(w, w.(tasks := TurnTasks(w.tasks, w.pcs[g], id, s)), id, NextPc(w.pcs[g], s))
  {
    var id := JobOf(w, g).id;
    JobPlace(w, g);
    assert TaskOk(w, id);
    assert (Watched(w, id) ==> w.pcs[g] == Watching) && (MayBeClosed(w, id) ==> Over(w, id));
    hide R.Inv, TurnOk, JobOk, OnlyTask, Keeps, TaskOk, Watched, MayBeClosed;
    match s
    case Proceed(now) =>
      if w.pcs[g] == Sending {
        UpdateOwn(w, id, Running, Nothing, now, Watching);
      } else {
        StayOwn(w, id, NextPc(w.pcs[g], s));
      }
    case SeeCancel => StopOwn(w, id);
    case Fail(error, now) => UpdateOwn(w, id, Failed, Reason(error), now, Returned);
    case Settle(result, background, now) => UpdateOwn(w, id, Done, Answer(result, background), now, Returned);
    case StillRunning(now) => UpdateOwn(w, id, Running, Nothing, now, Watching);
    case Ask(q, now) => UpdateOwn(w, id, NeedsInput, Asking(q), now, Watching);
    case Reread(q) => RereadOwn(w, id, q);
  }

  /** The endpoints' changes: they never make a task live that was not. */
  lemma EndpointInv(w: World, n: World, id: Id)
    requires Inv(w) && OnlyTask(w, n, id) && WellFormed(n.tasks)
    requires n.pcs == w.pcs && n.answering == w.answering && n.stopped == w.stopped
    requires id in w.tasks.byID ==>
      && (Live(n.tasks.byID[id].status) ==> Live(w.tasks.byID[id].status))
      && (n.tasks.byID[id].status == Accepted ==> w.tasks.byID[id].status == Accepted)
    ensures Inv(n)
  {
    hide R.Inv, WellFormed;
    forall x: Id ensures TaskOk(n, x) { assert TaskOk(w, x); }
    forall h: nat ensures TurnOk(n, h) {
      assert TurnOk(w, h);
      if InTurn(w, h) { OverStays(w, n, id, JobOf(w, h).id); }
    }
    forall j | j in n.runner.completed ensures Over(n, j.id) { OverStays(w, n, id, j.id); }
  }

  lemma MarksInv(w: World, e: Event)
    requires Inv(w) && Enabled(w, e)
    requires e.CancelMark? || e.AnswerLands? || e.AnswerRereads?
    ensures Inv(Next(w, e))
  {
    hide R.Inv, Watched, TurnOk, JobOk;
    assert TaskOk(w, e.id);
    match e
    case CancelMark(id, now) =>
      UpdateOnly(w, id, Cancelled, Nothing, now);
      EndpointInv(w, Next(w, e), id);
    case AnswerLands(id, now) =>
      UpdateOnly(w, id, Running, Nothing, now);
      EndpointInv(w, Next(w, e), id);
    case AnswerRereads(id, q) =>
      EndpointInv(w, Next(w, e), id);
  }

  lemma FlagsInv(w: World, e: Event)
    requires Inv(w) && Enabled(w, e) && (e.CancelClose? || e.AnswerSees?)
    ensures Inv(Next(w, e))
  {
    var n := Next(w, e);
    forall x: Id ensures TaskOk(n, x) { assert TaskOk(w, x); }
    forall h: nat ensures TurnOk(n, h) { assert TurnOk(w, h); }
  }

  lemma PostInv(w: World, t: Task, now: Time, max: int)
    requires Inv(w) && Enabled(w, Post(t, now, max))
    ensures Inv(Next(w, Post(t, now, max)))
  {
    var n := Next(w, Post(t, now, max));
    AddKeeps(w.tasks, t, now, max, t.id);
    forall x: Id ensures TaskOk(n, x) { PostTask(w, t, now, max, x); }
    forall h: nat ensures TurnOk(n, h) {
      assert TurnOk(w, h);
      if InTurn(w, h) && w.pcs[h] == Returned {
        JobPlace(w, h);
        AddKeeps(w.tasks, t, now, max, JobOf(w, h).id);
      }
    }
    forall j | j in n.runner.completed ensures j.id in n.posted && Over(n, j.id) {
      AddKeeps(w.tasks, t, now, max, j.id);
    }
  }

  lemma PostTask(w: World, t: Task, now: Time, max: int, x: Id)
    requires Inv(w) && Enabled(w, Post(t, now, max))
    ensures TaskOk(Next(w, Post(t, now, max)), x)
  {
    var n := Next(w, Post(t, now, max));
    assert TaskOk(w, x) && TaskOk(w, t.id);
    AddKeeps(w.tasks, t, now, max, t.id);
    AddKeeps(w.tasks, t, now, max, x);
    if x == t.id {
      assert n.tasks.byID[x].status == Accepted && x !in w.stopped && x !in w.answering;
    }
  }

  /** Goroutine steps change no task; a watched task's turn stays where it is. */
  lemma SubmitInv(w: World, id: Id, g: nat)
    requires Inv(w) && Enabled(w, Submit(id, g))
    ensures Inv(Next(w, Submit(id, g)))
  {
    hide R.Inv, Watched;
    var n := Next(w, Submit(id, g));
    R.NextInv(w.runner, R.SubmitEvent(R.Job(id, w.posted[id]), g));
    forall x: Id ensures TaskOk(n, x) { SubmitWatched(w, id, g, x); }
    forall h: nat ensures TurnOk(n, h) { assert TurnOk(w, h) && TurnOk(w, g); }
  }

  lemma SubmitWatched(w: World, id: Id, g: nat, x: Id)
    requires Inv(w) && Enabled(w, Submit(id, g))
    ensures TaskOk(Next(w, Submit(id, g)), x)
  {
    assert TaskOk(w, x);
    if Watched(w, x) {
      var h := w.runner.drains[w.posted[x]];
      assert w.posted[x] in w.runner.queues && h != g;
      assert Next(w, Submit(id, g)).runner.drains[w.posted[x]] == h;
    }
  }

  lemma LockInv(w: World, g: nat)
    requires Inv(w) && Enabled(w, Lock(g))
    ensures Inv(Next(w, Lock(g)))
  {
    hide R.Inv, Watched, TaskOk, TurnOk;
    var n := Next(w, Lock(g));
    R.NextInv(w.runner, R.LockEvent(g));
    forall x: Id ensures TaskOk(n, x) { LockWatched(w, g, x); }
    forall h: nat ensures TurnOk(n, h) { LockTurn(w, g, h); }
  }

  lemma LockWatched(w: World, g: nat, x: Id)
    requires Inv(w) && Enabled(w, Lock(g))
    ensures TaskOk(Next(w, Lock(g)), x)
  {
    assert TaskOk(w, x);
    hide TurnOk, JobOk, WellFormed, R.Accounted, R.OwnedBy;
    if Watched(w, x) {
      var h := w.runner.drains[w.posted[x]];
      assert h != g && w.runner.goroutines[h].conv == w.posted[x];
      assert Next(w, Lock(g)).runner.drains[w.posted[x]] == h;
    }
  }

  lemma LockTurn(w: World, g: nat, h: nat)
    requires Inv(w) && Enabled(w, Lock(g))
    ensures TurnOk(Next(w, Lock(g)), h)
  {
    assert TurnOk(w, h) && TurnOk(w, g);
  }

  lemma TurnEndInv(w: World, g: nat)
    requires Inv(w) && Enabled(w, TurnEnd(g))
    ensures Inv(Next(w, TurnEnd(g)))
  {
    hide R.Inv, WellFormed;
    var n := Next(w, TurnEnd(g));
    R.NextInv(w.runner, R.TurnEndEvent(g));
    JobPlace(w, g);
    assert TurnOk(w, g);
    forall x: Id ensures TaskOk(n, x) { assert TaskOk(w, x); }
    forall h: nat ensures TurnOk(n, h) { assert TurnOk(w, h); }
  }

  lemma NextInv(w: World, e: Event)
    requires Inv(w) && Enabled(w, e)
    ensures Inv(Next(w, e))
  {
    match e
    case Post(t, now, max) => PostInv(w, t, now, max);
    case Turn(g, s) => TurnInv(w, g, s);
    case CancelClose(_) => FlagsInv(w, e);
    case AnswerSees(_) => FlagsInv(w, e);
    case CancelMark(_, _) => MarksInv(w, e);
    case AnswerLands(_, _) => MarksInv(w, e);
    case AnswerRereads(_, _) => MarksInv(w, e);
    case Submit(id, g) => SubmitInv(w, id, g);
    case Lock(g) => LockInv(w, g);
    case TurnEnd(g) => TurnEndInv(w, g);
  }

  lemma {:induction false} RunInv(ws: seq<World>, es: seq<Event>, k: nat)
    requires TurnRun(ws, es) && k < |ws|
    ensures Inv(ws[k])
  {
    if k == 0 {
      forall c: R.Conv ensures R.Accounted(START.runner, c) {}
      forall x: Id ensures TaskOk(START, x) {}
      forall h: nat ensures TurnOk(START, h) {}
    } else {
      RunInv(ws, es, k - 1);
      assert Linked(ws[k - 1], es[k - 1], ws[k]);
      NextInv(ws[k - 1], es[k - 1]);
    }
  }

  /** One turn at a time: at every point of every interleaving, a conversation
      has at most one task running or waiting on a question, and it is the one
      whose turn is in flight there. */
  lemma OneLiveTask(ws: seq<World>, es: seq<Event>, k: nat, a: Id, b: Id)
    requires TurnRun(ws, es) && k < |ws|
    requires a in ws[k].tasks.byID && Live(ws[k].tasks.byID[a].status)
    requires b in ws[k].tasks.byID && Live(ws[k].tasks.byID[b].status)
    requires ws[k].tasks.byID[a].conv == ws[k].tasks.byID[b].conv
    ensures a == b && R.InFlight(ws[k].runner, ws[k].tasks.byID[a].conv) == [R.Job(a, ws[k].tasks.byID[a].conv)]
  {
    RunInv(ws, es, k);
    assert TaskOk(ws[k], a) && TaskOk(ws[k], b);
    JobPlace(ws[k], ws[k].runner.drains[ws[k].posted[a]]);
  }

  /** Every runTurn ends with its task finished (or finished and pruned): a turn
      the drain loop has gone past leaves no task behind that could still move. */
  lemma TurnsEndFinished(ws: seq<World>, es: seq<Event>, k: nat, j: R.Job)
    requires TurnRun(ws, es) && k < |ws| && j in ws[k].runner.completed
    ensures j.id in ws[k].tasks.byID ==> Terminal(ws[k].tasks.byID[j.id].status)
  {
    RunInv(ws, es, k);
  }

  /** What TaskStore.Cancelled's channel means to the turn that watches it: at
      every point of every interleaving, a task whose channel can be found closed
      is cancelled, or gone from the store. */
  lemma CancelSeen(ws: seq<World>, es: seq<Event>, k: nat, id: Id)
    requires TurnRun(ws, es) && k < |ws| && MayBeClosed(ws[k], id)
    ensures id in ws[k].tasks.byID ==> ws[k].tasks.byID[id].status == Cancelled
  {
    RunInv(ws, es, k);
    assert TaskOk(ws[k], id);
  }

  /** One event, for one task: frozen once finished, dropped only if finished,
      and never back once dropped. */
  ghost predicate Step(s: Store, n: Store, known: bool, id: Id) {
    Keeps(s, n, id) && (known && id !in s.byID ==> id !in n.byID)
  }

  lemma NextStep(w: World, e: Event, id: Id)
    requires Inv(w) && Enabled(w, e)
    ensures Step(w.tasks, Next(w, e).tasks, id in w.posted, id)
  {
    hide R.Inv, R.Next, TurnOk, JobOk, Distinct, IdSet;
    match e
    case Post(t, now, max) => AddKeeps(w.tasks, t, now, max, id);
    case Turn(g, s) => TurnOwn(w, g, s);
    case CancelMark(x, now) => UpdateKeeps(w.tasks, x, Cancelled, Nothing, now, id);
    case AnswerLands(x, now) => UpdateKeeps(w.tasks, x, Running, Nothing, now, id);
    case AnswerRereads(x, q) => SetQuestionKeeps(w.tasks, x, q, id);
    case _ =>
  }

  predicate Ended(s: Store, id: Id) {
    id in s.byID && Terminal(s.byID[id].status)
  }

  /** A finished task never changes again, whatever cancels, answers and turns
      race it, for as long as the store keeps it; and one that is gone had
      finished first. */
  lemma {:induction false} FinishedIsFinal(ws: seq<World>, es: seq<Event>, i: nat, k: nat, id: Id)
    requires TurnRun(ws, es) && i <= k < |ws| && id in ws[i].tasks.byID
    ensures id in ws[k].tasks.byID && Ended(ws[i].tasks, id) ==> ws[k].tasks.byID[id] == ws[i].tasks.byID[id]
    ensures id !in ws[k].tasks.byID ==> exists j :: i <= j <= k && Ended(ws[j].tasks, id)
  {
    if i < k {
      FinishedIsFinal(ws, es, i, k - 1, id);
      RunInv(ws, es, i);
      assert TaskOk(ws[i], id);
      PostedStays(ws, es, i, k - 1, id);
      OneStep(ws, es, k - 1, id);
    }
  }

  /** A task once added stays known to have been added. */
  lemma {:induction false} PostedStays(ws: seq<World>, es: seq<Event>, i: nat, k: nat, id: Id)
    requires TurnRun(ws, es) && i <= k < |ws| && id in ws[i].posted
    ensures id in ws[k].posted
  {
    if i < k {
      PostedStays(ws, es, i, k - 1, id);
      assert Linked(ws[k - 1], es[k - 1], ws[k]);
      PostedStep(ws[k - 1], es[k - 1], id);
    }
  }

  lemma PostedStep(w: World, e: Event, id: Id)
    requires WellFormed(w.tasks) && Enabled(w, e) && id in w.posted
    ensures id in Next(w, e).posted
  {
  }

  lemma OneStep(ws: seq<World>, es: seq<Event>, k: nat, id: Id)
    requires TurnRun(ws, es) && k < |es|
    ensures Step(ws[k].tasks, ws[k + 1].tasks, id in ws[k].posted, id)
  {
    RunInv(ws, es, k);
    assert Linked(ws[k], es[k], ws[k + 1]);
    NextStep(ws[k], es[k], id);
  }
}
