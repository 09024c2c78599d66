// Reading one turn's records out of a transcript: its answer, its end, and the
// background work it started that has not ended (agent-api/turnread.go).
module TurnRead {
  import opened Ids
  import opened Options

  type Time = int

  datatype Kind = System | Assistant | Attachment | User | OtherKind

  datatype Subtype = TurnDuration | ScheduledTaskFire | OtherSubtype

  datatype Role = AssistantRole | UserRole | OtherRole

  /** One <task-notification>: the task it names, whether it says a Monitor
      expired, whether its status is a final one, and whether it may be interim. */
  datatype Notice = Notice(task: Option<Id>, expired: bool, final: bool, interim: bool)

  /** A tool result's object. Missing ids are EMPTY. */
  datatype ToolResult = ToolResult(
    background: Id, task: Id, persistent: bool, launched: bool, agent: Id,
    stopped: Id, shell: Id, scheduledFor: Option<int>, wakeupStopped: bool, timeoutMs: int)

  /** The fields backgroundOutstanding decodes of a line. */
  datatype Entry = Entry(
    kind: Kind, subtype: Subtype, stamp: Option<Time>, queuedCommand: bool,
    prompt: seq<Notice>, result: Option<ToolResult>)

  /** sessionio's record of a line; text is trimmed, EMPTY when blank. */
  datatype Record = Record(
    role: Role, conversational: bool, isMeta: bool, isSidechain: bool, text: Text,
    notices: seq<Notice>, stamp: Option<Time>, callsTool: bool)

  /** One line as its three readers decode it; None where it does not decode. */
  datatype Line = Line(head: Option<(Kind, Subtype)>, entry: Option<Entry>, record: Option<Record>)

  /** A pending ScheduleWakeup among the outstanding tasks. */
  const WAKEUP: Id := 1

  const MAX_AGENT_DEPTH := 4

  // ---------- what this turn wrote ----------

  predicate StampedSince(l: Line, sentAt: Time) {
    l.record.Some? && l.record.value.stamp.Some? && l.record.value.stamp.value >= sentAt
  }

  function Since(lines: seq<Line>, sentAt: Time): (out: seq<Line>)
    ensures forall l :: l in out <==> l in lines && StampedSince(l, sentAt)
  {
    if lines == [] then [] else
    var n := |lines| - 1;
    assert lines == lines[..n] + [lines[n]];
    Since(lines[..n], sentAt) + if StampedSince(lines[n], sentAt) then [lines[n]] else []
  }

  function TurnPart(lines: seq<Line>, mark: Option<nat>, sentAt: Time): seq<Line> {
    match mark
    case Some(m) => if m > |lines| then [] else lines[m..]
    case None => Since(lines, sentAt)
  }

  /** mark is None when the transcript could not be read before the turn. */
  method TurnLines(lines: seq<Line>, mark: Option<nat>, sentAt: Time) returns (out: seq<Line>)
    ensures out == TurnPart(lines, mark, sentAt)
  {
    if mark.Some? {
      if mark.value > |lines| { return []; }
      return lines[mark.value..];
    }
    out := [];
    for i := 0 to |lines|
      invariant out == Since(lines[..i], sentAt)
    {
      assert lines[..i + 1][..i] == lines[..i];
      var rec := lines[i].record;
      if rec.Some? && rec.value.stamp.Some? && rec.value.stamp.value >= sentAt {
        out := out + [lines[i]];
      }
    }
    assert lines[..|lines|] == lines;
  }

  // ---------- its answer and its end ----------

  predicate Spoken(l: Line) {
    l.record.Some? && !l.record.value.isMeta && !l.record.value.isSidechain && l.record.value.text != EMPTY
  }

  predicate Answering(l: Line) {
    Spoken(l) && l.record.value.role == AssistantRole
  }

  predicate Asking(l: Line) {
    Spoken(l) && l.record.value.role == UserRole && l.record.value.conversational
  }

  predicate EndMark(l: Line) {
    l.head == Some((System, TurnDuration))
  }

  /** Line i is the last thing said among the first n, and it is an answer. */
  predicate AnsweredBy(lines: seq<Line>, n: nat, i: nat)
    requires n <= |lines|
  {
    i < n && Answering(lines[i]) && forall j :: i < j < n ==> !Answering(lines[j]) && !Asking(lines[j])
  }

  /** The last assistant text; settled when nothing was said to Claude after it. */
  method TurnAnswer(lines: seq<Line>) returns (answer: Text, settled: bool)
    ensures settled <==> exists i: nat :: AnsweredBy(lines, |lines|, i)
    ensures forall i: nat :: AnsweredBy(lines, |lines|, i) ==> answer == lines[i].record.value.text
    ensures answer == EMPTY <==> forall l :: l in lines ==> !Answering(l)
  {
    var waiting := false;
    answer := EMPTY;
    ghost var last := -1;
    for k := 0 to |lines|
      invariant -1 <= last < k
      invariant last == -1 <==> answer == EMPTY
      invariant last >= 0 ==> Answering(lines[last]) && answer == lines[last].record.value.text
      invariant forall j :: last < j < k ==> !Answering(lines[j])
      invariant last >= 0 ==> (waiting <==> exists j :: last < j < k && Asking(lines[j]))
    {
      var rec := lines[k].record;
      if rec.None? || rec.value.isMeta || rec.value.isSidechain { continue; }
      if rec.value.text == EMPTY { continue; }
      match rec.value.role
      case AssistantRole =>
        answer, waiting := rec.value.text, false;
        last := k;
      case UserRole => if rec.value.conversational { waiting := true; }
      case OtherRole =>
    }
    settled := answer != EMPTY && !waiting;
    if settled { assert AnsweredBy(lines, |lines|, last); }
  }

  /** Line i is a turn's end, with nothing said after it among the first n. */
  predicate EndedBy(lines: seq<Line>, n: nat, i: nat)
    requires n <= |lines|
  {
    && i < n && EndMark(lines[i])
    && forall j :: i < j < n ==> EndMark(lines[j]) || !(Answering(lines[j]) || Asking(lines[j]))
  }

  ghost predicate NoEnd(lines: seq<Line>, n: nat)
    requires n <= |lines|
  {
    forall i: nat :: !EndedBy(lines, n, i)
  }

  lemma NoEndNext(lines: seq<Line>, n: nat)
    requires n < |lines| && !EndMark(lines[n]) && (NoEnd(lines, n) || Answering(lines[n]) || Asking(lines[n]))
    ensures NoEnd(lines, n + 1)
  {
    var m := n + 1;
    forall i: nat ensures !EndedBy(lines, m, i) {
      if EndedBy(lines, m, i) { assert EndedBy(lines, n, i); }
    }
  }

  /** The newest of these records is a turn's end: nothing said after it. */
  method TurnEnded(lines: seq<Line>) returns (ended: bool)
    ensures ended <==> exists i: nat :: EndedBy(lines, |lines|, i)
  {
    ended := false;
    ghost var at: nat := 0;
    for k := 0 to |lines|
      invariant if ended then EndedBy(lines, k, at) else NoEnd(lines, k)
    {
      if lines[k].head == Some((System, TurnDuration)) {
        ended := true;
        at := k;
        continue;
      }
      var rec := lines[k].record;
      if !ended { NoEndNext(lines, k); }
      if rec.None? || rec.value.isMeta || rec.value.isSidechain || rec.value.text == EMPTY { continue; }
      match rec.value.role
      case AssistantRole =>
        NoEndNext(lines, k);
        ended := false;
      case UserRole =>
        if rec.value.conversational {
          NoEndNext(lines, k);
          ended := false;
        }
      case OtherRole =>
    }
  }

  // ---------- an agent's newest message ----------

  predicate Message(l: Line) {
    l.record.Some? && l.record.value.role != OtherRole
  }

  /** The newest message says something, calls no tool, and was written at t. */
  ghost predicate AnsweredAt(lines: seq<Line>, t: Time) {
    exists i :: 0 <= i < |lines| && Message(lines[i]) && (forall j :: i < j < |lines| ==> !Message(lines[j]))
      && lines[i].record.value.role == AssistantRole && lines[i].record.value.text != EMPTY
      && !lines[i].record.value.callsTool && lines[i].record.value.stamp == Some(t)
  }

  method LastAnswerAt(lines: seq<Line>) returns (at: Option<Time>)
    ensures forall t :: AnsweredAt(lines, t) <==> at == Some(t)
  {
    var last: Option<Record> := None;
    ghost var i := -1;
    for k := 0 to |lines|
      invariant -1 <= i < k && (last.None? <==> i == -1)
      invariant i >= 0 ==> Message(lines[i]) && lines[i].record == last
      invariant forall j :: i < j < k ==> !Message(lines[j])
    {
      var rec := lines[k].record;
      if rec.Some? && (rec.value.role == AssistantRole || rec.value.role == UserRole) {
        last := rec;
        i := k;
      }
    }
    if last.None? || last.value.role != AssistantRole || last.value.text == EMPTY || last.value.callsTool {
      return None;
    }
    return last.value.stamp;
  }

  // ---------- background work: what each line says ----------

  /** What can be seen beyond the records given: the subagents' transcripts. */
  datatype View = View(read: Id -> Option<seq<Line>>, subagent: bool, depth: nat)

  function Inner(v: View): View {
    v.(subagent := true, depth := v.depth + 1)
  }

  predicate HasResult(l: Line) {
    l.entry.Some? && l.entry.value.kind == User && l.entry.value.result.Some?
  }

  predicate Schedules(l: Line) {
    HasResult(l) && l.entry.value.result.value.scheduledFor.Some?
  }

  predicate Arms(l: Line) {
    Schedules(l) && l.entry.value.result.value.scheduledFor.value > 0 && !l.entry.value.result.value.wakeupStopped
  }

  predicate Fires(l: Line) {
    l.entry.Some? && l.entry.value.kind == System && l.entry.value.subtype == ScheduledTaskFire
  }

  predicate SaysSomething(l: Line) {
    && l.entry.Some? && l.entry.value.kind == Assistant
    && l.record.Some? && !l.record.value.isSidechain && l.record.value.text != EMPTY
  }

  predicate Starts(l: Line, id: Id) {
    && HasResult(l) && !Schedules(l) && id != EMPTY
    && var r := l.entry.value.result.value;
       id == r.background || (!r.persistent && id == r.task) || (r.launched && id == r.agent)
  }

  predicate Stops(l: Line, id: Id) {
    && HasResult(l) && !Schedules(l)
    && (id == l.entry.value.result.value.stopped || id == l.entry.value.result.value.shell)
  }

  predicate IsMonitor(l: Line, id: Id) {
    && HasResult(l) && !Schedules(l) && id != EMPTY
    && var r := l.entry.value.result.value; !r.persistent && id == r.task && r.timeoutMs > 0
  }

  /** The notices a line brings to the session: a queued command's, or those of
      a user record that is not a tool's result. */
  function NoticesOf(l: Line): seq<Notice> {
    if l.entry.None? then []
    else if l.entry.value.kind == Attachment && l.entry.value.queuedCommand then l.entry.value.prompt
    else if l.entry.value.kind == User && l.entry.value.result.None? && l.record.Some? then l.record.value.notices
    else []
  }

  function NoticedAt(l: Line): Option<Time> {
    if l.entry.None? then None
    else if l.entry.value.kind == Attachment && l.entry.value.queuedCommand then l.entry.value.stamp
    else if l.record.Some? then l.record.value.stamp
    else None
  }

  // ---------- what it means to be outstanding ----------

  /** A notice ends its task unless it may be interim and the subagent is not
      seen to be idle. */
  ghost predicate NoticeEnds(v: View, n: Notice, at: Option<Time>, id: Id)
    decreases MAX_AGENT_DEPTH - v.depth, 1
  {
    n.task == Some(id) && (n.expired || (n.final && (!n.interim || Idle(v, id, at))))
  }

  ghost predicate Noticed(v: View, ns: seq<Notice>, at: Option<Time>, id: Id)
    decreases MAX_AGENT_DEPTH - v.depth, 2
  {
    exists i :: 0 <= i < |ns| && NoticeEnds(v, ns[i], at, id)
  }

  ghost predicate Ends(v: View, l: Line, id: Id)
    decreases MAX_AGENT_DEPTH - v.depth, 3
  {
    Stops(l, id) || Noticed(v, NoticesOf(l), NoticedAt(l), id)
  }

  /** Among the first n lines one starts id, and neither it nor a later one ends it. */
  ghost predicate Open(v: View, lines: seq<Line>, n: nat, id: Id)
    requires n <= |lines|
    decreases MAX_AGENT_DEPTH - v.depth, 4
  {
    exists i :: 0 <= i < n && Starts(lines[i], id) && forall j :: i <= j < n ==> !Ends(v, lines[j], id)
  }

  predicate MonitorAmong(lines: seq<Line>, n: nat, id: Id)
    requires n <= |lines|
  {
    exists i :: 0 <= i < n && IsMonitor(lines[i], id)
  }

  /** The newest ScheduleWakeup is armed, and nothing has been said since it fired. */
  ghost predicate WakeupDue(lines: seq<Line>) {
    exists i :: 0 <= i < |lines| && Arms(lines[i]) && (forall j :: i < j < |lines| ==> !Schedules(lines[j]))
      && !exists f, a :: i < f < a < |lines| && Fires(lines[f]) && SaysSomething(lines[a])
  }

  ghost predicate Outstanding(v: View, lines: seq<Line>, id: Id)
    decreases MAX_AGENT_DEPTH - v.depth, 5
  {
    || (Open(v, lines, |lines|, id) && !(v.subagent && MonitorAmong(lines, |lines|, id)))
    || (id == WAKEUP && WakeupDue(lines))
  }

  /** The subagent's newest message is an answer from no later than the notice,
      and its own transcript has nothing outstanding. */
  ghost predicate Idle(v: View, id: Id, at: Option<Time>)
    decreases MAX_AGENT_DEPTH - v.depth, 0
  {
    && v.depth < MAX_AGENT_DEPTH && at.Some? && v.read(id).Some?
    && (exists t :: t <= at.value && AnsweredAt(v.read(id).value, t))
    && forall x: Id :: !Outstanding(Inner(v), v.read(id).value, x)
  }

  lemma OpenNext(v: View, lines: seq<Line>, n: nat, id: Id)
    requires n < |lines|
    ensures Open(v, lines, n + 1, id) <==> (Open(v, lines, n, id) || Starts(lines[n], id)) && !Ends(v, lines[n], id)
  {
    if (Open(v, lines, n, id) || Starts(lines[n], id)) && !Ends(v, lines[n], id) {
      var i :| 0 <= i <= n && Starts(lines[i], id) && forall j :: i <= j < n ==> !Ends(v, lines[j], id);
      assert forall j :: i <= j < n + 1 ==> !Ends(v, lines[j], id);
    }
  }

  // ---------- the fold ----------

  datatype Wakeup = NoWakeup | Pending | Fired

  /** Where the newest schedule, its first fire and the words after it are. */
  ghost predicate WakeupIs(w: Wakeup, lines: seq<Line>, n: nat, arm: int, fire: int, said: int)
    requires n <= |lines|
  {
    && -1 <= arm < n && (arm >= 0 ==> Schedules(lines[arm]))
    && (forall j :: arm < j < n ==> !Schedules(lines[j]))
    && match w
       case NoWakeup =>
         || arm == -1 || !Arms(lines[arm])
         || (arm < fire < said < n && Fires(lines[fire]) && SaysSomething(lines[said]))
       case Pending => arm >= 0 && Arms(lines[arm]) && forall j :: arm < j < n ==> !Fires(lines[j])
       case Fired =>
         && 0 <= arm < fire < n && Arms(lines[arm]) && Fires(lines[fire])
         && (forall j :: arm < j < fire ==> !Fires(lines[j]))
         && forall a :: fire < a < n ==> !SaysSomething(lines[a])
  }

  lemma WakeupMeans(w: Wakeup, lines: seq<Line>, arm: int, fire: int, said: int)
    requires WakeupIs(w, lines, |lines|, arm, fire, said)
    ensures WakeupDue(lines) <==> !w.NoWakeup?
  {
    if WakeupDue(lines) {
      var i :| 0 <= i < |lines| && Arms(lines[i]) && (forall j :: i < j < |lines| ==> !Schedules(lines[j]))
        && !exists f, a :: i < f < a < |lines| && Fires(lines[f]) && SaysSomething(lines[a]);
      assert i == arm;
    }
  }

  function NextWakeup(w: Wakeup, l: Line): Wakeup {
    if Schedules(l) then (if Arms(l) then Pending else NoWakeup)
    else if Fires(l) && w == Pending then Fired
    else if SaysSomething(l) && w == Fired then NoWakeup
    else w
  }

  lemma WakeupNext(w: Wakeup, lines: seq<Line>, n: nat, arm: int, fire: int, said: int) returns (now: (int, int, int))
    requires n < |lines| && WakeupIs(w, lines, n, arm, fire, said)
    ensures WakeupIs(NextWakeup(w, lines[n]), lines, n + 1, now.0, now.1, now.2)
  {
    if Schedules(lines[n]) {
      now := (n, fire, said);
    } else if Fires(lines[n]) && w == Pending {
      now := (arm, n, said);
    } else if SaysSomething(lines[n]) && w == Fired {
      now := (arm, fire, n);
    } else {
      now := (arm, fire, said);
    }
  }

  /** What a line does to the wakeup slot. */
  method FollowWakeup(l: Line, wakeup: Wakeup) returns (next: Wakeup)
    ensures next == NextWakeup(wakeup, l)
  {
    next := wakeup;
    if l.entry.None? { return; }
    var e := l.entry.value;
    if e.kind == System && e.subtype == ScheduledTaskFire && wakeup == Pending { return Fired; }
    if e.kind == Assistant && wakeup == Fired {
      if l.record.Some? && !l.record.value.isSidechain && l.record.value.text != EMPTY { next := NoWakeup; }
      return;
    }
    if e.kind == User && e.result.Some? && e.result.value.scheduledFor.Some? {
      next := NoWakeup;
      if e.result.value.scheduledFor.value > 0 && !e.result.value.wakeupStopped { next := Pending; }
    }
  }

  /** The tasks a line starts join, in order; those it ends leave. */
  method FollowTasks(l: Line, v: View, order: seq<Id>, open: set<Id>, monitors: set<Id>)
    returns (order': seq<Id>, open': set<Id>, monitors': set<Id>)
    requires forall x :: x in open ==> x in order
    ensures forall x :: x in open' <==> (x in open || Starts(l, x)) && !Ends(v, l, x)
    ensures forall x :: x in monitors' <==> x in monitors || IsMonitor(l, x)
    ensures forall x :: x in open' ==> x in order'
    decreases MAX_AGENT_DEPTH - v.depth, 2
  {
    order', open', monitors' := order, open, monitors;
    if l.entry.None? { return; }
    var e := l.entry.value;
    if e.kind == Attachment && e.queuedCommand {
      open' := CloseNoticed(v, open, e.prompt, e.stamp);
      return;
    }
    if e.kind != User { return; }
    if e.result.Some? {
      var tur := e.result.value;
      if tur.scheduledFor.Some? { return; }
      var started := [tur.background];
      if !tur.persistent {
        started := started + [tur.task];
        if tur.task != EMPTY && tur.timeoutMs > 0 { monitors' := monitors' + {tur.task}; }
      }
      if tur.launched { started := started + [tur.agent]; }
      order', open' := Join(started, order, open);
      open' := open' - {tur.stopped} - {tur.shell};
      return;
    }
    if l.record.None? { return; }
    open' := CloseNoticed(v, open, l.record.value.notices, l.record.value.stamp);
  }

  method Join(started: seq<Id>, order: seq<Id>, open: set<Id>) returns (order': seq<Id>, open': set<Id>)
    requires forall x :: x in open ==> x in order
    ensures forall x :: x in open' <==> x in open || (x in started && x != EMPTY)
    ensures forall x :: x in open' ==> x in order'
  {
    order', open' := order, open;
    for k := 0 to |started|
      invariant forall x :: x in open' <==> x in open || (x in started[..k] && x != EMPTY)
      invariant forall x :: x in open' ==> x in order'
    {
      var id := started[k];
      assert started[..k + 1] == started[..k] + [id];
      if id != EMPTY && id !in open' {
        open' := open' + {id};
        order' := order' + [id];
      }
    }
    assert started[..|started|] == started;
  }

  /** Retires every task these notices say has ended. */
  method CloseNoticed(v: View, open: set<Id>, notices: seq<Notice>, at: Option<Time>) returns (left: set<Id>)
    ensures forall x :: x in left <==> x in open && !Noticed(v, notices, at, x)
    decreases MAX_AGENT_DEPTH - v.depth, 1
  {
    left := open;
    for k := 0 to |notices|
      invariant forall x :: x in left <==> x in open && forall i :: 0 <= i < k ==> !NoticeEnds(v, notices[i], at, x)
    {
      var n := notices[k];
      if n.task.None? { continue; }
      var id := n.task.value;
      if n.expired {
        left := left - {id};
        continue;
      }
      if !n.final { continue; }
      var gone := !n.interim;
      if !gone { gone := IsIdle(v, id, at); }
      if gone { left := left - {id}; }
    }
  }

  /** Whether a subagent noticed at `at` will not notify again. */
  method IsIdle(v: View, id: Id, at: Option<Time>) returns (idle: bool)
    ensures idle <==> Idle(v, id, at)
    decreases MAX_AGENT_DEPTH - v.depth, 0
  {
    if v.depth >= MAX_AGENT_DEPTH { return false; }
    if at.None? { return false; }
    var lines := v.read(id);
    if lines.None? { return false; }
    var answered := LastAnswerAt(lines.value);
    if answered.None? || answered.value > at.value { return false; }
    assert AnsweredAt(lines.value, answered.value);
    var out := BackgroundOutstanding(lines.value, Inner(v));
    idle := |out| == 0;
    if idle {
      assert forall x: Id :: !Outstanding(Inner(v), lines.value, x);
    } else {
      assert out[0] in out && Outstanding(Inner(v), lines.value, out[0]);
    }
  }

  /** The single pass over the records is exactly the meaning of outstanding. */
  method BackgroundOutstanding(lines: seq<Line>, v: View) returns (out: seq<Id>)
    ensures forall x :: x in out <==> Outstanding(v, lines, x)
    decreases MAX_AGENT_DEPTH - v.depth, 3
  {
    var order: seq<Id>, open: set<Id>, monitors: set<Id>, wakeup := [], {}, {}, NoWakeup;
    ghost var arm, fire, said := -1, -1, -1;
    for k := 0 to |lines|
      invariant forall x :: x in open <==> Open(v, lines, k, x)
      invariant forall x :: x in monitors <==> MonitorAmong(lines, k, x)
      invariant forall x :: x in open ==> x in order
      invariant WakeupIs(wakeup, lines, k, arm, fire, said)
    {
      var next := FollowWakeup(lines[k], wakeup);
      ghost var now := WakeupNext(wakeup, lines, k, arm, fire, said);
      arm, fire, said, wakeup := now.0, now.1, now.2, next;
      forall x: Id ensures Open(v, lines, k + 1, x) <==> (x in open || Starts(lines[k], x)) && !Ends(v, lines[k], x) {
        OpenNext(v, lines, k, x);
      }
      order, open, monitors := FollowTasks(lines[k], v, order, open, monitors);
    }
    out := Listed(order, open, if v.subagent then monitors else {});
    WakeupMeans(wakeup, lines, arm, fire, said);
    if wakeup != NoWakeup { out := out + [WAKEUP]; }
  }

  method Listed(order: seq<Id>, open: set<Id>, skipped: set<Id>) returns (out: seq<Id>)
    ensures forall x :: x in out <==> x in order && x in open && x !in skipped
  {
    out := [];
    for k := 0 to |order|
      invariant forall x :: x in out <==> x in order[..k] && x in open && x !in skipped
    {
      assert order[..k + 1] == order[..k] + [order[k]];
      if order[k] !in open { continue; }
      if order[k] in skipped { continue; }
      out := out + [order[k]];
    }
    assert order[..|order|] == order;
  }

  // ---------- seeing less only holds for more ----------

  /** u sees no more than v: a depth nearer the limit, fewer transcripts readable. */
  ghost predicate SeesLess(u: View, v: View) {
    u.subagent == v.subagent && u.depth >= v.depth && forall id :: u.read(id) == v.read(id) || u.read(id) == None
  }

  lemma {:induction false} IdleMonotone(u: View, v: View, id: Id, at: Option<Time>)
    requires SeesLess(u, v) && Idle(u, id, at)
    ensures Idle(v, id, at)
    decreases MAX_AGENT_DEPTH - v.depth, 0
  {
    forall x: Id ensures !Outstanding(Inner(v), v.read(id).value, x) {
      if Outstanding(Inner(v), v.read(id).value, x) { Conservative(Inner(u), Inner(v), u.read(id).value, x); }
    }
  }

  lemma EndsMonotone(u: View, v: View, l: Line, id: Id)
    requires SeesLess(u, v) && Ends(u, l, id)
    ensures Ends(v, l, id)
    decreases MAX_AGENT_DEPTH - v.depth, 1
  {
    if !Stops(l, id) {
      var ns := NoticesOf(l);
      var i :| 0 <= i < |ns| && NoticeEnds(u, ns[i], NoticedAt(l), id);
      if Idle(u, id, NoticedAt(l)) { IdleMonotone(u, v, id, NoticedAt(l)); }
      assert NoticeEnds(v, ns[i], NoticedAt(l), id);
    }
  }

  /** Reading is conservative: with fewer subagents' transcripts readable, or
      less depth left to follow them, nothing stops being outstanding. Cyclic
      references between agents included. */
  lemma {:induction false} Conservative(u: View, v: View, lines: seq<Line>, id: Id)
    requires SeesLess(u, v) && Outstanding(v, lines, id)
    ensures Outstanding(u, lines, id)
    decreases MAX_AGENT_DEPTH - v.depth, 2
  {
    if Open(v, lines, |lines|, id) {
      var i :| 0 <= i < |lines| && Starts(lines[i], id) && forall j :: i <= j < |lines| ==> !Ends(v, lines[j], id);
      forall j | i <= j < |lines| ensures !Ends(u, lines[j], id) {
        if Ends(u, lines[j], id) { EndsMonotone(u, v, lines[j], id); }
      }
    }
  }

  /** A view that sees nothing keeps an interim notice's subagent outstanding. */
  lemma BlindKeepsInterim(v: View, l: Line, id: Id)
    requires (forall x :: v.read(x) == None) && !Stops(l, id)
    requires forall n :: n in NoticesOf(l) && n.task == Some(id) && n.final ==> n.interim
    requires forall n :: n in NoticesOf(l) && n.task == Some(id) ==> !n.expired
    ensures !Ends(v, l, id)
  {
    forall i | 0 <= i < |NoticesOf(l)| ensures !NoticeEnds(v, NoticesOf(l)[i], NoticedAt(l), id) {
      assert NoticesOf(l)[i] in NoticesOf(l);
    }
  }
}
