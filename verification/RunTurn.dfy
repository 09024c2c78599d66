// One turn, start to finish (runTurn of agent-api/turn.go): the wake, the wait
// for a prompt, the send and the watch, with everything else that touches the
// task store in between.
module RunTurns {
  import opened Ids
  import opened Options
  import opened TurnRead
  import W = TurnWatch
  import T = Turns
  import K = Tasks

  /** wake: the session was awake or came back, or would not. */
  datatype Wake = Awake | WontResume

  /** What the turn finds: its cancel channel at the start, the session, the pane
      and the transcript as awaitReady sees them, the send, and every poll; and
      the clock at each of its changes to the store. */
  datatype Finds = Finds(
    closed: bool, wake: Wake,
    found: bool, settles: bool, foundLate: bool, dialog: bool, cancelled: bool, foundAgain: bool,
    state: W.State, reading: W.Reading,
    foundToSend: bool, sends: bool,
    sentAt: Time, start: Time, grace: int, timeout: int, hold: int, ticks: nat -> W.Tick,
    stamp: nat -> Time)

  /** The turn as the watch knows it. */
  function TurnOf(f: Finds): W.Turn {
    var mark := if f.found && f.foundAgain then W.MarkOf(f.state, f.reading) else None;
    W.Turn(mark, f.sentAt, f.start, f.grace, f.timeout, f.hold)
  }

  /** Error texts, by number. */
  const NOT_RESUMED: Text := 2
  const IN_THE_WAY: Text := 3
  const NOT_LIVE: Text := 4
  const NOT_SENT: Text := 5

  function ErrorOf(why: W.Why): Text {
    match why
    case Gone => 10
    case Replaced => 11
    case NotStarted => 12
    case Unreadable => 13
    case NoAnswer => 14
    case NoClaude => 15
    case TooLong => 16
  }

  function MoveStep(m: W.Move, now: Time): T.TurnStep {
    match m
    case KeepRunning => T.StillRunning(now)
    case Ask(q) => T.Ask(q, now)
    case Reread(q) => T.Reread(q)
  }

  function OutcomeStep(o: W.Outcome, now: Time): T.TurnStep {
    match o
    case LetGo => T.SeeCancel
    case Failed(why) => T.Fail(ErrorOf(why), now)
    case Settled(answer, background) => T.Settle(answer, background, now)
  }

  // ---------- what a turn's steps are ----------

  /** Nothing stands in the way of the message. */
  predicate Sent(f: Finds) {
    && !f.closed && f.wake == Awake && !(f.found && !f.settles && f.foundLate && f.dialog)
    && !(f.found && f.cancelled) && f.foundToSend && f.sends
  }

  /** How a turn whose message is not sent ends: by a cancel it sees, or failed for
      the first thing in its way. */
  predicate StopsAs(f: Finds, last: T.TurnStep) {
    if f.closed then last.SeeCancel?
    else if f.wake == WontResume then last.Fail? && last.error == NOT_RESUMED
    else if f.found && !f.settles && f.foundLate && f.dialog then last.Fail? && last.error == IN_THE_WAY
    else if f.found && f.cancelled then last.SeeCancel?
    else last.Fail? && last.error == if f.foundToSend then NOT_SENT else NOT_LIVE
  }

  /** The step that reports a poll's move. */
  predicate Tells(m: W.Move, step: T.TurnStep) {
    match m
    case KeepRunning => step.StillRunning?
    case Ask(q) => step.Ask? && step.question == q
    case Reread(q) => step.Reread? && step.question == q
  }

  /** The step an outcome ends the turn with. */
  predicate EndsAs(o: W.Outcome, last: T.TurnStep) {
    match o
    case LetGo => last.SeeCancel?
    case Failed(why) => last.Fail? && last.error == ErrorOf(why)
    case Settled(answer, background) => last.Settle? && last.result == answer && last.background == background
  }

  /** Step i is what poll at[i] must report; every such report is made but one
      due at the poll that ends the watch otherwise than by its deadline. */
  ghost predicate Told(f: Finds, n: nat, o: W.Outcome, steps: seq<T.TurnStep>, at: seq<nat>) {
    && |at| == |steps|
    && (forall i :: 0 < i < |at| ==> at[i - 1] < at[i])
    && (forall i :: 0 <= i < |at| ==> at[i] <= n && TellsDue(f, at[i], steps[i]))
    && (forall k: nat, m :: k <= n && W.MoveDue(TurnOf(f), f.ticks, k, m) && (k < n || o == W.Failed(W.TooLong)) ==>
          k in at)
  }

  ghost predicate TellsDue(f: Finds, k: nat, step: T.TurnStep) {
    exists m :: W.MoveDue(TurnOf(f), f.ticks, k, m) && Tells(m, step)
  }

  /** The reports of the first n polls of a watch. */
  ghost predicate ToldSoFar(f: Finds, moves: seq<Option<W.Move>>, n: nat, steps: seq<T.TurnStep>, at: seq<nat>)
    requires n <= |moves|
  {
    && |at| == |steps|
    && (forall i :: 0 < i < |at| ==> at[i - 1] < at[i])
    && (forall i :: 0 <= i < |at| ==> at[i] < n && moves[at[i]].Some? && Tells(moves[at[i]].value, steps[i]))
    && (forall k: nat :: k < n && moves[k].Some? ==> k in at)
  }

  lemma ToldAll(f: Finds, o: W.Outcome, moves: seq<Option<W.Move>>, n: nat, steps: seq<T.TurnStep>, at: seq<nat>)
    requires |moves| == n + 1 && ToldSoFar(f, moves, n + 1, steps, at)
    requires forall k: nat :: k < n ==> W.Reports(TurnOf(f), f.ticks, k, moves[k])
    requires if o == W.Failed(W.TooLong) then W.Reports(TurnOf(f), f.ticks, n, moves[n]) else moves[n] == None
    ensures Told(f, n, o, steps, at)
  {
    hide W.MoveDue, Tells;
    forall i | 0 <= i < |at| ensures TellsDue(f, at[i], steps[i]) {
      assert W.Reports(TurnOf(f), f.ticks, at[i], moves[at[i]]);
    }
    forall k: nat, m | k <= n && W.MoveDue(TurnOf(f), f.ticks, k, m) && (k < n || o == W.Failed(W.TooLong))
      ensures k in at
    {
      assert W.Reports(TurnOf(f), f.ticks, k, moves[k]);
    }
  }

  /** Watching goes on through reports and ends at the step after them. */
  lemma {:induction false} WatchWalks(told: seq<T.TurnStep>, last: T.TurnStep)
    requires forall i :: 0 <= i < |told| ==> told[i].StillRunning? || told[i].Ask? || told[i].Reread?
    requires last.SeeCancel? || last.Fail? || last.Settle?
    ensures T.Walks(T.Watching, told + [last])
  {
    if told == [] {
      assert [last][1..] == [] && told + [last] == [last];
    } else {
      WatchWalks(told[1..], last);
      assert (told + [last])[1..] == told[1..] + [last];
    }
  }

  /** The steps of a watch: each poll's report, and then the outcome. */
  method WatchSteps(f: Finds, moves: seq<Option<W.Move>>, n: nat, o: W.Outcome)
    returns (steps: seq<T.TurnStep>, ghost at: seq<nat>)
    requires |moves| == n + 1
    requires forall k: nat :: k < n ==> W.Reports(TurnOf(f), f.ticks, k, moves[k])
    requires if o == W.Failed(W.TooLong) then W.Reports(TurnOf(f), f.ticks, n, moves[n]) else moves[n] == None
    ensures steps != [] && EndsAs(o, steps[|steps| - 1]) && Told(f, n, o, steps[..|steps| - 1], at)
    ensures forall i :: 0 <= i < |steps| ==> !steps[i].Proceed?
    ensures T.Walks(T.Watching, steps)
  {
    hide W.MoveDue, TellsDue, Told, W.Reports, T.Walks;
    steps, at := [], [];
    for k := 0 to |moves|
      invariant ToldSoFar(f, moves, k, steps, at)
      invariant forall i :: 0 <= i < |steps| ==> steps[i].StillRunning? || steps[i].Ask? || steps[i].Reread?
    {
      var step := if moves[k].Some? then MoveStep(moves[k].value, f.stamp(4 + k)) else T.SeeCancel;
      if moves[k].Some? { steps, at := steps + [step], at + [k]; }
    }
    ToldAll(f, o, moves, n, steps, at);
    var last := OutcomeStep(o, f.stamp(5 + n));
    WatchWalks(steps, last);
    assert (steps + [last])[..|steps|] == steps;
    steps := steps + [last];
  }

  /** Where the way in is after i steps. */
  function PcAt(i: nat): T.Pc {
    if i == 0 then T.Begin else if i == 1 then T.Waking else if i == 2 then T.Readying
    else if i == 3 then T.Sending else T.Watching
  }

  /** The first n steps of the way in. */
  function WayIn(f: Finds, n: nat): seq<T.TurnStep> {
    seq(n, i requires 0 <= i < n => T.Proceed(f.stamp(i)))
  }

  lemma {:induction false} WayInWalks(f: Finds, n: nat, k: nat, rest: seq<T.TurnStep>)
    requires k <= n <= 4 && T.Walks(PcAt(n), rest)
    ensures T.Walks(PcAt(k), WayIn(f, n)[k..] + rest)
    decreases n - k
  {
    if k < n {
      WayInWalks(f, n, k + 1, rest);
      var steps := WayIn(f, n)[k..] + rest;
      assert steps[0] == T.Proceed(f.stamp(k)) && steps[1..] == WayIn(f, n)[k + 1..] + rest;
    } else {
      assert WayIn(f, n)[k..] + rest == rest;
    }
  }

  /** What comes before the watch: the steps, and whether the watch is reached. */
  method Prepare(f: Finds) returns (steps: seq<T.TurnStep>, mark: Option<nat>, sent: bool)
    ensures sent ==> mark == TurnOf(f).mark
    ensures sent ==> forall rest :: T.Walks(T.Watching, rest) ==> T.Walks(T.Begin, steps + rest)
    ensures sent ==> |steps| == 4 && forall i :: 0 <= i < 4 ==> steps[i] == T.Proceed(f.stamp(i))
    // Nothing is sent over a cancel seen, a dialog in the way, or a lost session.
    ensures sent <==> Sent(f)
    ensures !sent ==> T.Walks(T.Begin, steps) && 0 < |steps| <= 4 && StopsAs(f, steps[|steps| - 1])
    ensures !sent ==> forall i :: 0 <= i < |steps| - 1 ==> steps[i] == T.Proceed(f.stamp(i))
  {
    mark, sent := None, false;
    var n, last := 0, T.SeeCancel;
    if f.closed {
      n := 0;
    } else if f.wake == WontResume {
      n, last := 1, T.Fail(NOT_RESUMED, f.stamp(1));
    } else {
      var r, failed :=
        W.AwaitReady(f.found, f.settles, f.foundLate, f.dialog, f.cancelled, f.foundAgain, f.state, f.reading);
      if r == W.NotReady {
        n := 2;
        if failed { last := T.Fail(IN_THE_WAY, f.stamp(2)); }
      } else if !f.foundToSend || !f.sends {
        n, last := 3, T.Fail(if !f.foundToSend then NOT_LIVE else NOT_SENT, f.stamp(3));
      } else {
        steps := WayIn(f, 4);
        assert steps[0..] == steps;
        forall rest | T.Walks(T.Watching, rest) { WayInWalks(f, 4, 0, rest); }
        return steps, r.mark, true;
      }
    }
    assert [last][1..] == [] && WayIn(f, n)[0..] == WayIn(f, n) && T.Walks(PcAt(n), [last]);
    WayInWalks(f, n, 0, [last]);
    steps := WayIn(f, n) + [last];
  }

  /** What the watch is given: the mark, where the wait found one, and the times. */
  ghost predicate TurnRight(f: Finds, t: W.Turn) {
    && (t.mark.Some? <==>
          f.found && f.foundAgain && (f.reading.Read? || (f.reading == W.Missing && f.state == W.Unset)))
    && (t.mark.Some? ==> t.mark.value == if f.reading.Read? then |f.reading.lines| else 0)
    && t.sentAt == f.sentAt && t.start == f.start
    && t.grace == f.grace && t.timeout == f.timeout && t.hold == f.hold
  }

  /** The store as the turn begins, and after each of its steps: everybody else
      comes before each, and each does to its task what it says. The fourth step
      of the way in is the one that sends. */
  ghost predicate Follows(id: Id, store: K.Store, steps: seq<T.TurnStep>, others: (nat, T.TurnStep, K.Store) -> K.Store,
                          trail: seq<K.Store>)
  {
    && |trail| == |steps| + 1 && trail[0] == store
    && forall i :: 0 <= i < |steps| ==>
         T.StepDoes(id, steps[i], i == 3, others(i, steps[i], trail[i]), trail[i + 1])
  }

  /** The task that was unfinished when its turn's last step came is as the
      outcome says. */
  ghost predicate LeftAs(id: Id, o: W.Outcome, before: K.Store, end: K.Store) {
    id in before.byID && !K.Terminal(before.byID[id].status) ==>
      && id in end.byID
      && var t := end.byID[id];
         match o
         case LetGo => false
         case Failed(why) => t.status == K.Failed && t.error == ErrorOf(why)
         case Settled(answer, bg) => t.status == K.Done && t.result == answer && t.background == bg
  }

  lemma LastLeaves(id: Id, o: W.Outcome, last: T.TurnStep, sending: bool, before: K.Store, end: K.Store)
    requires EndsAs(o, last) && T.StepDoes(id, last, sending, before, end)
    requires last.SeeCancel? ==> T.FinishedOrGone(before, id)
    ensures LeftAs(id, o, before, end)
  {
  }

  /** runTurn. Whatever it finds and whatever races it, it returns with its task
      finished or gone: its steps are a whole walk from the start to the return,
      with everybody else's changes to the store between them. The message goes
      out when nothing stands in its way; then poll n is the first that does not
      go on, o is its outcome, and the turn reports what every poll up to it must
      report, in order, and ends as o says. */
  method RunTurn(
      id: Id, store: K.Store, f: Finds, others: (nat, T.TurnStep, K.Store) -> K.Store, ghost late: nat)
    returns (end: K.Store, steps: seq<T.TurnStep>, ghost trail: seq<K.Store>, ghost n: nat, ghost o: W.Outcome,
             ghost at: seq<nat>)
    requires T.CancelsFirst(id, others) && f.ticks(late).end > f.start + f.timeout
    ensures T.Walks(T.Begin, steps) && end == T.Played(store, T.Begin, id, steps, 0, others)
    ensures T.FinishedOrGone(end, id)
    ensures steps != [] && Follows(id, store, steps, others, trail) && end == trail[|steps|]
    ensures !Sent(f) ==> |steps| <= 4 && StopsAs(f, steps[|steps| - 1])
    ensures forall i :: 0 <= i < |steps| ==> (steps[i].Proceed? <==> i < if Sent(f) then 4 else |steps| - 1)
    ensures Sent(f) ==> TurnRight(f, TurnOf(f))
    ensures Sent(f) ==>
      && W.OutcomeRight(TurnOf(f), f.ticks, n, o) && (forall k: nat :: k < n ==> W.GoesOn(TurnOf(f), f.ticks, k))
      && |steps| >= 5 && Told(f, n, o, steps[4..|steps| - 1], at)
      && EndsAs(o, steps[|steps| - 1]) && LeftAs(id, o, others(|steps| - 1, steps[|steps| - 1], trail[|steps| - 1]), end)
  {
    hide Told, LeftAs, W.OutcomeRight, W.GoesOn, W.Reports, W.ShowsEnd, W.ShowsOpen, T.Walks, T.Played, T.StepDoes;
    var mark, sent;
    steps, mark, sent := Prepare(f);
    n, o, at := 0, W.LetGo, [];
    if sent {
      var t := W.Turn(mark, f.sentAt, f.start, f.grace, f.timeout, f.hold);
      var outcome, last, moves := W.WatchTurn(t, f.ticks, late);
      var watched;
      watched, at := WatchSteps(f, moves, last, outcome);
      n, o := last, outcome;
      ghost var first := steps;
      steps := steps + watched;
      assert |first| == 4 && steps[4..] == watched && steps[4..|steps| - 1] == watched[..|watched| - 1];
    }
    T.WalkEnds(store, T.Begin, id, steps, 0, others);
    end, trail := Play(id, store, steps, others);
    if sent {
      var k := |steps| - 1;
      LastLeaves(id, o, steps[k], k == 3, others(k, steps[k], trail[k]), end);
    }
  }

  /** The steps, one access to the store after another. */
  method Play(id: Id, store: K.Store, steps: seq<T.TurnStep>, others: (nat, T.TurnStep, K.Store) -> K.Store)
    returns (end: K.Store, ghost trail: seq<K.Store>)
    requires forall i :: 0 <= i < |steps| && steps[i].Proceed? ==> i < 4 && forall j :: 0 <= j < i ==> steps[j].Proceed?
    ensures end == T.Played(store, T.Begin, id, steps, 0, others)
    ensures Follows(id, store, steps, others, trail) && end == trail[|steps|]
  {
    hide T.StepDoes, T.TurnTasks;
    end, trail := store, [store];
    var pc := T.Begin;
    for i := 0 to |steps|
      invariant T.Played(store, T.Begin, id, steps, 0, others) == T.Played(end, pc, id, steps[i..], i, others)
      invariant Follows(id, store, steps[..i], others, trail) && end == trail[i]
      invariant i < 4 && (forall j :: 0 <= j < i ==> steps[j].Proceed?) ==> pc == PcAt(i)
    {
      var step, found := steps[i], others(i, steps[i], end);
      assert steps[i..][1..] == steps[i + 1..] && steps[..i + 1] == steps[..i] + [step];
      T.TurnDoes(found, pc, id, step, i == 3);
      end := T.TurnTasks(found, pc, id, step);
      pc := T.NextPc(pc, step);
      trail := trail + [end];
    }
    assert steps[..|steps|] == steps;
  }
}
