// Runner (agent-api/runner.go): one drain goroutine per conversation, all
// conversations at once. The class is the code; the state machine around it
// interleaves its lock-held regions with any number of drain goroutines.
module Runners {
  import opened Ids
  import opened Options

  type Conv = Text

  datatype Job = Job(id: Id, conv: Conv)

  datatype Queue = Queue(pending: seq<Job>, active: bool)

  type Queues = map<Conv, Queue>

  // ---------- the lock-held regions ----------

  function QueueOf(qs: Queues, c: Conv): Queue {
    if c in qs then qs[c] else Queue([], false)
  }

  function Submitted(qs: Queues, t: Job): Queues {
    qs[t.conv := Queue(QueueOf(qs, t.conv).pending + [t], true)]
  }

  /** Submit starts a drain goroutine exactly when none is draining. */
  predicate Starts(qs: Queues, t: Job) {
    !QueueOf(qs, t.conv).active
  }

  /** The head of drain's loop finds nothing left. */
  predicate Drained(qs: Queues, c: Conv) {
    QueueOf(qs, c).pending == []
  }

  function Popped(qs: Queues, c: Conv): Queues {
    if Drained(qs, c) then qs - {c} else qs[c := qs[c].(pending := qs[c].pending[1..])]
  }

  function Ahead(qs: Queues, c: Conv): int {
    |QueueOf(qs, c).pending| + if QueueOf(qs, c).active then 1 else 0
  }

  class Runner {
    var queues: Queues
    var live: int
    // The idle channel, numbered, and the channels closed so far.
    var idle: nat
    var closed: set<nat>

    ghost predicate Valid()
      reads this
    {
      forall c :: c in closed ==> c < idle
    }

    constructor ()
      ensures Valid() && queues == map[] && live == 0
    {
      queues, live, idle, closed := map[], 0, 0, {};
    }

    /** Submit; `start` is whether the caller goes on to start a drain goroutine. */
    method Submit(t: Job) returns (start: bool)
      requires Valid()
      modifies this`queues, this`live
      ensures Valid()
      ensures queues == Submitted(old(queues), t)
      ensures start == Starts(old(queues), t)
      ensures live == old(live) + if start then 1 else 0
      // The task is the last of its conversation's, which now has a goroutine draining it.
      ensures t.conv in queues && queues[t.conv].active
      ensures queues[t.conv].pending == (if t.conv in old(queues) then old(queues)[t.conv].pending else []) + [t]
      ensures start <==> !(t.conv in old(queues) && old(queues)[t.conv].active)
      ensures forall c :: c != t.conv ==>
        (c in queues <==> c in old(queues)) && (c in queues ==> queues[c] == old(queues)[c])
    {
      var q := if t.conv in queues then queues[t.conv] else Queue([], false);
      q := q.(pending := q.pending + [t]);
      start := !q.active;
      if start {
        q := q.(active := true);
        live := live + 1;
      }
      queues := queues[t.conv := q];
    }

    /** One pass of drain's loop up to the turn: the next task, or the end. */
    method Drain(c: Conv) returns (t: Option<Job>)
      requires Valid()
      modifies this
      ensures Valid()
      ensures queues == Popped(old(queues), c)
      ensures t == if Drained(old(queues), c) then None else Some(old(queues)[c].pending[0])
      ensures live == old(live) - if t.None? then 1 else 0
      // The oldest task comes off; with none left the conversation's queue goes.
      ensures t.Some? ==> c in old(queues) && c in queues && queues[c].active == old(queues)[c].active
      ensures t.Some? ==> old(queues)[c].pending == [t.value] + queues[c].pending
      ensures t.None? ==> c !in queues && (c in old(queues) ==> old(queues)[c].pending == [])
      ensures forall d :: d != c ==> (d in queues <==> d in old(queues)) && (d in queues ==> queues[d] == old(queues)[d])
      // idle is closed and replaced exactly when the last queue drains.
      ensures if t.None? && live == 0 then closed == old(closed) + {old(idle)} && idle == old(idle) + 1
              else closed == old(closed) && idle == old(idle)
    {
      if c !in queues || |queues[c].pending| == 0 {
        queues := queues - {c};
        live := live - 1;
        if live == 0 {
          closed := closed + {idle};
          idle := idle + 1;
        }
        return None;
      }
      var q := queues[c];
      queues := queues[c := q.(pending := q.pending[1..])];
      return Some(q.pending[0]);
    }

    method AheadOf(c: Conv) returns (n: int)
      ensures n == Ahead(queues, c)
      ensures c !in queues ==> n == 0
      ensures c in queues ==> n == |queues[c].pending| + if queues[c].active then 1 else 0
    {
      if c !in queues { return 0; }
      n := |queues[c].pending|;
      if queues[c].active { n := n + 1; }
    }

    /** Idle: a closed channel when nothing is live, else the one the last drain
        will close. */
    method Idle() returns (isClosed: bool, channel: nat)
      requires Valid()
      ensures isClosed <==> live == 0
      ensures live != 0 ==> channel == idle && channel !in closed
    {
      return live == 0, idle;
    }
  }

  // ---------- goroutines ----------

  /** A drain goroutine waits for the lock at the head of its loop, or runs a turn. */
  datatype Phase = AtLock | InTurn(job: Job)

  datatype Drainer = Drainer(conv: Conv, phase: Phase)

  /** The runner, its goroutines, and the histories: every task submitted and
      every turn completed, in order. `drains` names the goroutine of a queue. */
  datatype World = World(
    queues: Queues, live: int, goroutines: map<nat, Drainer>,
    drains: map<Conv, nat>, submitted: seq<Job>, completed: seq<Job>)

  const START := World(map[], 0, map[], map[], [], [])

  datatype Event =
    | SubmitEvent(job: Job, g: nat)   // g: the goroutine it starts, if it starts one
    | LockEvent(g: nat)
    | TurnEndEvent(g: nat)

  predicate Enabled(w: World, e: Event) {
    match e
    case SubmitEvent(_, g) => g !in w.goroutines
    case LockEvent(g) => g in w.goroutines && w.goroutines[g].phase.AtLock?
    case TurnEndEvent(g) => g in w.goroutines && w.goroutines[g].phase.InTurn?
  }

  function Next(w: World, e: Event): World
    requires Enabled(w, e)
  {
    match e
    case SubmitEvent(t, g) =>
      var w1 := w.(queues := Submitted(w.queues, t), submitted := w.submitted + [t]);
      if Starts(w.queues, t) then
        w1.(live := w.live + 1, goroutines := w.goroutines[g := Drainer(t.conv, AtLock)],
            drains := w.drains[t.conv := g])
      else w1
    case LockEvent(g) =>
      var c := w.goroutines[g].conv;
      var w1 := w.(queues := Popped(w.queues, c));
      if Drained(w.queues, c) then
        w1.(live := w.live - 1, goroutines := w.goroutines - {g}, drains := w.drains - {c})
      else
        w1.(goroutines := w.goroutines[g := Drainer(c, InTurn(w.queues[c].pending[0]))])
    case TurnEndEvent(g) =>
      var d := w.goroutines[g];
      w.(goroutines := w.goroutines[g := Drainer(d.conv, AtLock)], completed := w.completed + [d.phase.job])
  }

  predicate Linked(w: World, e: Event, n: World) {
    Enabled(w, e) && n == Next(w, e)
  }

  predicate RunnerRun(ws: seq<World>, es: seq<Event>) {
    && |ws| == |es| + 1 && ws[0] == START
    && forall k {:trigger es[k]} :: 0 <= k < |es| ==> Linked(ws[k], es[k], ws[k + 1])
  }

  // ---------- exactly once, in order, one at a time ----------

  /** The tasks of one conversation, in order. */
  function Of(ts: seq<Job>, c: Conv): seq<Job> {
    if ts == [] then [] else
    Of(ts[..|ts| - 1], c) + if ts[|ts| - 1].conv == c then [ts[|ts| - 1]] else []
  }

  lemma OfAppend(ts: seq<Job>, t: Job, c: Conv)
    ensures Of(ts + [t], c) == Of(ts, c) + if t.conv == c then [t] else []
  {
    assert (ts + [t])[..|ts|] == ts;
  }

  function Flying(p: Phase): seq<Job> {
    if p.InTurn? then [p.job] else []
  }

  /** The turn of a conversation in flight, if one is. */
  function InFlight(w: World, c: Conv): seq<Job> {
    if c in w.drains && w.drains[c] in w.goroutines then Flying(w.goroutines[w.drains[c]].phase) else []
  }

  ghost predicate OneEach(w: World) {
    && w.drains.Keys == w.queues.Keys
    && (forall c :: c in w.queues ==>
          w.queues[c].active && w.drains[c] in w.goroutines && w.goroutines[w.drains[c]].conv == c)
    && (forall g :: g in w.goroutines ==>
          w.goroutines[g].conv in w.drains && w.drains[w.goroutines[g].conv] == g)
    && (forall g :: g in w.goroutines && w.goroutines[g].phase.InTurn? ==>
          w.goroutines[g].phase.job.conv == w.goroutines[g].conv)
    && w.live == |w.goroutines| && |w.goroutines| == |w.queues|
  }

  predicate Accounted(w: World, c: Conv) {
    Of(w.submitted, c) == Of(w.completed, c) + InFlight(w, c) + QueueOf(w.queues, c).pending
  }

  ghost predicate OwnedBy(ts: seq<Job>, c: Conv) {
    forall k :: 0 <= k < |ts| ==> ts[k].conv == c
  }

  ghost predicate Inv(w: World) {
    && OneEach(w)
    && (forall c :: Accounted(w, c))
    && (forall c :: c in w.queues ==> OwnedBy(w.queues[c].pending, c))
  }

  lemma SubmitOneEach(w: World, t: Job, g: nat)
    requires OneEach(w) && g !in w.goroutines
    ensures OneEach(Next(w, SubmitEvent(t, g)))
  {
  }

  lemma SubmitAccounted(w: World, t: Job, g: nat, c: Conv)
    requires OneEach(w) && Accounted(w, c) && g !in w.goroutines
    ensures Accounted(Next(w, SubmitEvent(t, g)), c)
  {
    var n := Next(w, SubmitEvent(t, g));
    OfAppend(w.submitted, t, c);
    if c == t.conv {
      assert Starts(w.queues, t) ==> InFlight(w, c) == [];
      assert QueueOf(n.queues, c).pending == QueueOf(w.queues, c).pending + [t];
    } else {
      assert QueueOf(n.queues, c) == QueueOf(w.queues, c);
    }
    assert InFlight(n, c) == InFlight(w, c);
  }

  lemma SubmitInv(w: World, t: Job, g: nat)
    requires Inv(w) && g !in w.goroutines
    ensures Inv(Next(w, SubmitEvent(t, g)))
  {
    var n := Next(w, SubmitEvent(t, g));
    SubmitOneEach(w, t, g);
    forall c: Conv ensures Accounted(n, c) { SubmitAccounted(w, t, g, c); }
    assert OwnedBy(QueueOf(w.queues, t.conv).pending, t.conv);
  }

  lemma PopAccounted(w: World, g: nat, c: Conv)
    requires OneEach(w) && Accounted(w, c)
    requires Enabled(w, LockEvent(g)) && !Drained(w.queues, w.goroutines[g].conv)
    ensures Accounted(Next(w, LockEvent(g)), c)
  {
    var n, d := Next(w, LockEvent(g)), w.goroutines[g].conv;
    if c == d {
      var p := w.queues[d].pending;
      assert p == [p[0]] + p[1..];
      assert InFlight(w, c) == [] && InFlight(n, c) == [p[0]];
    } else {
      assert InFlight(n, c) == InFlight(w, c);
    }
  }

  lemma PopOneEach(w: World, g: nat)
    requires Inv(w) && Enabled(w, LockEvent(g)) && !Drained(w.queues, w.goroutines[g].conv)
    ensures OneEach(Next(w, LockEvent(g)))
  {
    var n, d := Next(w, LockEvent(g)), w.goroutines[g].conv;
    assert OwnedBy(w.queues[d].pending, d);
    assert n.queues.Keys == w.queues.Keys && n.goroutines.Keys == w.goroutines.Keys;
  }

  lemma PopInv(w: World, g: nat)
    requires Inv(w) && Enabled(w, LockEvent(g)) && !Drained(w.queues, w.goroutines[g].conv)
    ensures Inv(Next(w, LockEvent(g)))
  {
    var n, d := Next(w, LockEvent(g)), w.goroutines[g].conv;
    PopOneEach(w, g);
    assert OwnedBy(w.queues[d].pending, d);
    forall c: Conv ensures Accounted(n, c) { PopAccounted(w, g, c); }
  }

  lemma ExitInv(w: World, g: nat)
    requires Inv(w) && Enabled(w, LockEvent(g)) && Drained(w.queues, w.goroutines[g].conv)
    ensures Inv(Next(w, LockEvent(g)))
  {
    var n, d := Next(w, LockEvent(g)), w.goroutines[g].conv;
    assert n.queues.Keys == w.queues.Keys - {d} && n.goroutines.Keys == w.goroutines.Keys - {g};
    forall c: Conv ensures Accounted(n, c) {
      assert Accounted(w, c);
      assert InFlight(n, c) == InFlight(w, c);
    }
  }

  lemma TurnEndInv(w: World, g: nat)
    requires Inv(w) && Enabled(w, TurnEndEvent(g))
    ensures Inv(Next(w, TurnEndEvent(g)))
  {
    var n, d := Next(w, TurnEndEvent(g)), w.goroutines[g];
    assert n.goroutines.Keys == w.goroutines.Keys;
    forall c: Conv ensures Accounted(n, c) {
      assert Accounted(w, c);
      OfAppend(w.completed, d.phase.job, c);
      assert InFlight(n, c) == if c == d.conv then [] else InFlight(w, c);
    }
  }

  lemma NextInv(w: World, e: Event)
    requires Inv(w) && Enabled(w, e)
    ensures Inv(Next(w, e))
  {
    match e
    case SubmitEvent(t, g) => SubmitInv(w, t, g);
    case LockEvent(g) => if Drained(w.queues, w.goroutines[g].conv) { ExitInv(w, g); } else { PopInv(w, g); }
    case TurnEndEvent(g) => TurnEndInv(w, g);
  }

  lemma {:induction false} RunInv(ws: seq<World>, es: seq<Event>, k: nat)
    requires RunnerRun(ws, es) && k < |ws|
    ensures Inv(ws[k])
  {
    if k == 0 {
      forall c: Conv ensures Accounted(START, c) {}
    } else {
      RunInv(ws, es, k - 1);
      assert Linked(ws[k - 1], es[k - 1], ws[k]);
      NextInv(ws[k - 1], es[k - 1]);
    }
  }

  /** At every point of every interleaving, per conversation: what was submitted
      is what completed, then the turn in flight, then what is pending, in
      order. So nothing is lost, run twice or reordered; two goroutines never
      drain one conversation, so at most one of its turns is in flight; and
      live counts the active queues. */
  lemma ExactlyOnceInOrder(ws: seq<World>, es: seq<Event>, k: nat, c: Conv)
    requires RunnerRun(ws, es) && k < |ws|
    ensures var w := ws[k];
      && Of(w.submitted, c) == Of(w.completed, c) + InFlight(w, c) + QueueOf(w.queues, c).pending
      && (forall g, h :: g in w.goroutines && h in w.goroutines && w.goroutines[g].conv == w.goroutines[h].conv ==>
            g == h)
      && (forall g :: g in w.goroutines && w.goroutines[g].phase.InTurn? ==>
            InFlight(w, w.goroutines[g].conv) == [w.goroutines[g].phase.job])
      && w.live == |w.queues| && (forall d :: d in w.queues ==> w.queues[d].active)
  {
    RunInv(ws, es, k);
    assert Accounted(ws[k], c);
  }

  /** The turns of a conversation not finished yet. */
  function Unfinished(w: World, c: Conv): int {
    |Of(w.submitted, c)| - |Of(w.completed, c)|
  }

  /** Ahead never under-counts and over-counts by at most one; it is exact
      while a turn of the conversation runs, and one too many exactly while its
      goroutine is between turns. */
  lemma AheadBounds(ws: seq<World>, es: seq<Event>, k: nat, c: Conv)
    requires RunnerRun(ws, es) && k < |ws|
    ensures var w := ws[k];
      && Unfinished(w, c) <= Ahead(w.queues, c) <= Unfinished(w, c) + 1
      && (Ahead(w.queues, c) == Unfinished(w, c) <==> c !in w.queues || InFlight(w, c) != [])
  {
    RunInv(ws, es, k);
    assert Accounted(ws[k], c);
  }

  /** It does over-count: once a task is submitted and before its goroutine takes
      it, the one unfinished turn is counted twice. */
  lemma AheadCanOverCount(t: Job, g: nat)
    ensures var ws, es := [START, Next(START, SubmitEvent(t, g))], [SubmitEvent(t, g)];
      RunnerRun(ws, es) && Unfinished(ws[1], t.conv) == 1 && Ahead(ws[1].queues, t.conv) == 2
  {
    OfAppend([], t, t.conv);
  }

  // ---------- progress ----------

  /** Steps a conversation's goroutine still has to take. */
  function Left(w: World, c: Conv): int {
    2 * Unfinished(w, c) + if c in w.queues && InFlight(w, c) == [] then 1 else 0
  }

  /** Every unfinished conversation has its goroutine, whose every step brings
      it exactly one nearer to having run everything; no other conversation's
      event moves it, a submit of its own adds the two steps of that turn (and one
      for the goroutine it starts), and with no goroutine left everything
      submitted has run. */
  lemma Progress(ws: seq<World>, es: seq<Event>, k: nat, c: Conv)
    requires RunnerRun(ws, es) && k < |es| && Linked(ws[k], es[k], ws[k + 1])
    ensures var w := ws[k];
      && Left(w, c) >= 0
      && (Unfinished(w, c) > 0 ==> c in w.drains && w.drains[c] in w.goroutines)
      && (c in w.queues ==> Left(w, c) > 0)
      && (c !in w.queues ==> Of(w.submitted, c) == Of(w.completed, c))
      && (!es[k].SubmitEvent? ==>
            Left(ws[k + 1], c) == Left(w, c) - if w.goroutines[es[k].g].conv == c then 1 else 0)
      && (es[k].SubmitEvent? ==>
            Left(ws[k + 1], c) == Left(w, c) +
              if es[k].job.conv != c then 0 else if Starts(w.queues, es[k].job) then 3 else 2)
  {
    RunInv(ws, es, k);
    StillDraining(ws[k], c);
    assert Linked(ws[k], es[k], ws[k + 1]);
    if es[k].SubmitEvent? { SubmitAdds(ws[k], es[k].job, es[k].g, c); } else { StepNearer(ws[k], es[k], c); }
  }

  lemma SubmitAdds(w: World, t: Job, g: nat, c: Conv)
    requires Inv(w) && g !in w.goroutines
    ensures Left(Next(w, SubmitEvent(t, g)), c) ==
      Left(w, c) + if t.conv != c then 0 else if Starts(w.queues, t) then 3 else 2
  {
    OfAppend(w.submitted, t, c);
    SubmitFlight(w, t, g, c);
    hide Of, Inv, InFlight, Starts;
  }

  /** A submit moves no turn in flight, and starts a goroutine exactly for a
      conversation that had none. */
  lemma SubmitFlight(w: World, t: Job, g: nat, c: Conv)
    requires Inv(w) && g !in w.goroutines
    ensures var n := Next(w, SubmitEvent(t, g));
      && InFlight(n, c) == InFlight(w, c) && n.completed == w.completed && n.submitted == w.submitted + [t]
      && (c in n.queues <==> c in w.queues || c == t.conv)
    ensures Starts(w.queues, t) <==> t.conv !in w.queues
    ensures c !in w.queues ==> InFlight(w, c) == []
  {
  }

  lemma StillDraining(w: World, c: Conv)
    requires Inv(w)
    ensures Left(w, c) >= 0
    ensures Unfinished(w, c) > 0 ==> c in w.drains && w.drains[c] in w.goroutines
    ensures c in w.queues ==> Left(w, c) > 0
    ensures c !in w.queues ==> Of(w.submitted, c) == Of(w.completed, c)
  {
    assert Accounted(w, c);
  }

  lemma StepNearer(w: World, e: Event, c: Conv)
    requires Inv(w) && Enabled(w, e) && !e.SubmitEvent?
    ensures Left(Next(w, e), c) == Left(w, c) - if w.goroutines[e.g].conv == c then 1 else 0
  {
    match e
    case LockEvent(g) => LockNearer(w, g, c);
    case TurnEndEvent(g) =>
      var d := w.goroutines[g];
      OfAppend(w.completed, d.phase.job, c);
      assert InFlight(Next(w, e), c) == if c == d.conv then [] else InFlight(w, c);
  }

  lemma LockNearer(w: World, g: nat, c: Conv)
    requires Inv(w) && Enabled(w, LockEvent(g))
    ensures Left(Next(w, LockEvent(g)), c) == Left(w, c) - if w.goroutines[g].conv == c then 1 else 0
  {
    if c != w.goroutines[g].conv { assert InFlight(Next(w, LockEvent(g)), c) == InFlight(w, c); }
  }
}
