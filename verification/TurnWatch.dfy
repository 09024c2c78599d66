// Watching one turn to its end (agent-api/turn.go): the wait for a prompt, and
// the poll that decides when the turn has settled, failed or been let go of.
// What each poll sees of the session is an input, as are its clock readings.
module TurnWatch {
  import opened Ids
  import opened Options
  import opened TurnRead
  import K = Tasks

  datatype State = Unset | Running | Awaiting | Done | Other

  type Transcript = Option<seq<Line>>

  /** readQuestion's answer when no dialog can be read. */
  const KIND_UNKNOWN: Text := 1

  /** One poll: whether the cancel channel was closed and the session found; its
      stamped state, its mod, and the transcript and pane read in the mod's
      place; the dialog; the task as
      the store gives it, if it still has it; the transcript and the
      subagents' transcripts read for the answer; and the clock as the branch
      reads it first (`at`) and next (`again`), and at the deadline check (`end`). */
  datatype Tick = Tick(
    cancelled: bool, found: bool, stamped: State, mod: bool, early: Transcript, menu: bool,
    question: K.Question, paned: K.Question, status: Option<K.Status>, kind: Text,
    lines: Transcript, agents: Id -> Transcript, at: Time, again: Time, end: Time)

  /** The turn: the transcript's length before the send (None when unknown), the
      clock at the send and at the watch's start, and the configured limits. */
  datatype Turn = Turn(mark: Option<nat>, sentAt: Time, start: Time, grace: int, timeout: int, hold: int)

  datatype Why = Gone | Replaced | NotStarted | Unreadable | NoAnswer | NoClaude | TooLong

  datatype Outcome = LetGo | Failed(why: Why) | Settled(answer: Text, background: bool)

  /** What the watch does to the task before its outcome. */
  datatype Move = KeepRunning | Ask(question: K.Question) | Reread(question: K.Question)

  // ---------- the state of a session ----------

  ghost predicate HasEnded(lines: seq<Line>) {
    exists i: nat :: EndedBy(lines, |lines|, i)
  }

  predicate Shrunk(t: Turn, lines: Transcript) {
    lines.Some? && t.mark.Some? && t.mark.value > |lines.value|
  }

  ghost function TranscriptState(t: Turn, lines: Transcript): State {
    if lines.None? then Unset
    else if Shrunk(t, lines) then Done
    else if TurnPart(lines.value, t.mark, t.sentAt) == [] then Unset
    else if HasEnded(TurnPart(lines.value, t.mark, t.sentAt)) then Done
    else Running
  }

  /** The stamp when a mod keeps it; otherwise the transcript's word, a menu on
      the pane turning running into awaiting, and a stamped done kept while the
      transcript shows nothing of the turn. */
  ghost function StateAt(t: Turn, k: Tick): State {
    if k.stamped != Unset && k.mod then k.stamped
    else
      var s := TranscriptState(t, k.early);
      if s == Unset then (if k.stamped == Done then Done else Unset)
      else if s == Running && k.menu then Awaiting
      else s
  }

  // What the transcript shows, record by record.

  /** Record i is this turn's: past the mark, or, with none known, stamped since
      the send. */
  predicate OfTurn(t: Turn, lines: seq<Line>, i: nat) {
    && i < |lines|
    && match t.mark
       case Some(m) => m <= i
       case None =>
         var rec := lines[i].record;
         rec.Some? && rec.value.stamp.Some? && t.sentAt <= rec.value.stamp.value
  }

  predicate Says(l: Line) {
    Answering(l) || Asking(l)
  }

  /** Record i ends this turn: the turn says nothing after it. */
  ghost predicate EndsTurn(t: Turn, lines: seq<Line>, i: nat) {
    && OfTurn(t, lines, i) && EndMark(lines[i])
    && forall j :: i < j && OfTurn(t, lines, j) ==> EndMark(lines[j]) || !Says(lines[j])
  }

  /** It shows the turn ended, or is shorter than it was before the send. */
  ghost predicate ShowsEnd(t: Turn, lines: Transcript) {
    && lines.Some?
    && ((t.mark.Some? && |lines.value| < t.mark.value) || exists i: nat :: EndsTurn(t, lines.value, i))
  }

  /** It shows the turn, and no end of it. */
  ghost predicate ShowsOpen(t: Turn, lines: Transcript) {
    && lines.Some? && (exists i: nat :: OfTurn(t, lines.value, i))
    && forall i: nat :: !EndsTurn(t, lines.value, i)
  }

  /** One more record, and whether these have ended. */
  lemma EndedNext(ls: seq<Line>, l: Line)
    ensures HasEnded(ls + [l]) <==> EndMark(l) || (!Says(l) && HasEnded(ls))
  {
    var f, n := ls + [l], |ls| + 1;
    if EndMark(l) {
      assert EndedBy(f, n, |ls|);
    } else if i: nat :| EndedBy(f, n, i) {
      assert !Says(f[|ls|]);
      assert forall j :: i <= j < |ls| ==> f[j] == ls[j];
      assert EndedBy(ls, |ls|, i);
    } else if i: nat :| EndedBy(ls, |ls|, i) {
      assert Says(l) || EndedBy(f, n, i);
    }
  }

  lemma EndsNext(t: Turn, ls: seq<Line>, l: Line)
    requires t.mark.None?
    ensures (exists i: nat :: EndsTurn(t, ls + [l], i)) <==>
      if StampedSince(l, t.sentAt) then EndMark(l) || (!Says(l) && exists i: nat :: EndsTurn(t, ls, i))
      else exists i: nat :: EndsTurn(t, ls, i)
  {
    var f := ls + [l];
    assert forall i: nat :: i < |ls| ==> f[i] == ls[i] && (OfTurn(t, f, i) <==> OfTurn(t, ls, i));
    assert OfTurn(t, f, |ls|) <==> StampedSince(l, t.sentAt);
    if StampedSince(l, t.sentAt) && EndMark(l) {
      assert EndsTurn(t, f, |ls|);
    } else if i: nat :| EndsTurn(t, f, i) {
      assert EndsTurn(t, ls, i);
    } else if i: nat :| EndsTurn(t, ls, i) {
      assert (StampedSince(l, t.sentAt) && Says(l)) || EndsTurn(t, f, i);
    }
  }

  lemma {:induction false} SinceEnds(t: Turn, lines: seq<Line>)
    requires t.mark.None?
    ensures Since(lines, t.sentAt) == [] <==> forall i: nat :: !OfTurn(t, lines, i)
    ensures HasEnded(Since(lines, t.sentAt)) <==> exists i: nat :: EndsTurn(t, lines, i)
  {
    assert !HasEnded([]) && forall i: nat :: !EndsTurn(t, [], i);
    hide HasEnded, EndsTurn;
    var n := |lines| - 1;
    if lines != [] {
      SinceEnds(t, lines[..n]);
      assert lines == lines[..n] + [lines[n]];
      EndsNext(t, lines[..n], lines[n]);
      EndedNext(Since(lines[..n], t.sentAt), lines[n]);
      assert forall i: nat :: i < n ==> (OfTurn(t, lines, i) <==> OfTurn(t, lines[..n], i));
      assert OfTurn(t, lines, n) <==> StampedSince(lines[n], t.sentAt);
      assert StampedSince(lines[n], t.sentAt) ==> Since(lines, t.sentAt) != [];
      assert !StampedSince(lines[n], t.sentAt) ==> Since(lines, t.sentAt) == Since(lines[..n], t.sentAt);
    }
  }

  lemma MarkEnds(t: Turn, lines: seq<Line>, m: nat)
    requires t.mark == Some(m) && m <= |lines|
    ensures lines[m..] == [] <==> forall i: nat :: !OfTurn(t, lines, i)
    ensures HasEnded(lines[m..]) <==> exists i: nat :: EndsTurn(t, lines, i)
  {
    if m < |lines| { assert OfTurn(t, lines, m); }
    var turn := lines[m..];
    if i: nat :| EndedBy(turn, |turn|, i) {
      forall j | m + i < j && OfTurn(t, lines, j)
        ensures EndMark(lines[j]) || !Says(lines[j])
      {
        assert turn[j - m] == lines[j];
      }
      assert EndsTurn(t, lines, m + i);
    }
    if i: nat :| EndsTurn(t, lines, i) {
      assert turn[i - m] == lines[i];
      forall j | i - m < j < |turn| ensures EndMark(turn[j]) || !Says(turn[j]) {
        assert OfTurn(t, lines, m + j) && turn[j] == lines[m + j];
      }
      assert EndedBy(turn, |turn|, i - m);
    }
  }

  /** Done is an end of this turn or a transcript cut short, running a turn begun
      with no end, and unset nothing of the turn. */
  lemma TranscriptShows(t: Turn, lines: Transcript)
    ensures TranscriptState(t, lines) == Done <==> ShowsEnd(t, lines)
    ensures TranscriptState(t, lines) == Running <==> ShowsOpen(t, lines)
    ensures TranscriptState(t, lines) == Unset <==> !ShowsEnd(t, lines) && !ShowsOpen(t, lines)
  {
    if lines.Some? && !Shrunk(t, lines) {
      hide EndsTurn, HasEnded, OfTurn;
      if t.mark.Some? { MarkEnds(t, lines.value, t.mark.value); } else { SinceEnds(t, lines.value); }
    }
  }

  method StateFromTranscript(t: Turn, lines: Transcript) returns (s: State)
    ensures s == TranscriptState(t, lines)
    ensures s == Done <==> ShowsEnd(t, lines)
    ensures s == Running <==> ShowsOpen(t, lines)
    ensures s == Unset <==> !ShowsEnd(t, lines) && !ShowsOpen(t, lines)
  {
    TranscriptShows(t, lines);
    if lines.None? { return Unset; }
    if t.mark.Some? && t.mark.value > |lines.value| { return Done; }
    var turn := TurnLines(lines.value, t.mark, t.sentAt);
    if |turn| == 0 { return Unset; }
    var ended := TurnEnded(turn);
    return if ended then Done else Running;
  }

  /** The state, from what the mod keeps, what the transcript shows and the menu. */
  ghost predicate StateRight(t: Turn, k: Tick, s: State) {
    if k.stamped != Unset && k.mod then s == k.stamped else
    && (s == Done <==> ShowsEnd(t, k.early) || (k.stamped == Done && !ShowsOpen(t, k.early)))
    && (s == Awaiting <==> ShowsOpen(t, k.early) && k.menu)
    && (s == Running <==> ShowsOpen(t, k.early) && !k.menu)
    && s != Other
  }

  lemma StateShows(t: Turn, k: Tick)
    ensures StateRight(t, k, StateAt(t, k))
  {
    TranscriptShows(t, k.early);
  }

  method SessionState(t: Turn, k: Tick) returns (s: State)
    ensures s == StateAt(t, k) && StateRight(t, k, s)
  {
    StateShows(t, k);
    if k.stamped != Unset && k.mod { return k.stamped; }
    s := StateFromTranscript(t, k.early);
    if s == Unset { return if k.stamped != Done then Unset else k.stamped; }
    if s == Running && k.menu { s := Awaiting; }
  }

  // ---------- what one poll means ----------

  ghost predicate Busy(t: Turn, k: Tick) {
    StateAt(t, k) == Running || StateAt(t, k) == Awaiting
  }

  function TurnAt(t: Turn, k: Tick): seq<Line> {
    if k.lines.Some? then TurnPart(k.lines.value, t.mark, t.sentAt) else []
  }

  /** This turn's records end with an answer, and that is its text. */
  ghost predicate Answered(t: Turn, k: Tick, answer: Text) {
    exists i: nat :: AnsweredBy(TurnAt(t, k), |TurnAt(t, k)|, i) && answer == TurnAt(t, k)[i].record.value.text
  }

  ghost predicate AtRest(t: Turn, k: Tick) {
    StateAt(t, k) == Done && exists answer :: Answered(t, k, answer)
  }

  ghost predicate Waiting(t: Turn, k: Tick) {
    exists x: Id :: Outstanding(View(k.agents, false, 0), TurnAt(t, k), x)
  }

  /** The transcript proves the turn began. */
  ghost predicate Evidence(t: Turn, k: Tick) {
    && k.lines.Some?
    && if t.mark.Some? then |k.lines.value| > t.mark.value else exists l :: l in TurnAt(t, k) && Answering(l)
  }

  ghost predicate Begun(t: Turn, ticks: nat -> Tick, n: nat) {
    Evidence(t, ticks(n)) || exists k: nat :: k <= n && Busy(t, ticks(k))
  }

  // ---------- since when ----------

  /** Poll k is one of the first n, a(k) holds, and nothing has reset it since. */
  ghost predicate Held(a: nat -> bool, reset: nat -> bool, k: nat, n: nat) {
    k < n && a(k) && forall j: nat :: k <= j < n ==> !reset(j)
  }

  /** k is the earliest such poll: what a "since" variable that is set when zero
      and zeroed at a reset is the time of. */
  ghost predicate EarliestHeld(a: nat -> bool, reset: nat -> bool, k: nat, n: nat) {
    Held(a, reset, k, n) && forall j: nat :: j < k ==> !Held(a, reset, j, n)
  }

  ghost predicate Mark(a: nat -> bool, reset: nat -> bool, n: nat, mark: Option<nat>) {
    match mark
    case None => forall k: nat :: !Held(a, reset, k, n)
    case Some(k) => EarliestHeld(a, reset, k, n)
  }

  ghost function NextMark(a: nat -> bool, reset: nat -> bool, n: nat, mark: Option<nat>): Option<nat> {
    if reset(n) then None else if mark.None? && a(n) then Some(n) else mark
  }

  lemma MarkNext(a: nat -> bool, reset: nat -> bool, n: nat, mark: Option<nat>)
    requires Mark(a, reset, n, mark) && !(a(n) && reset(n))
    ensures Mark(a, reset, n + 1, NextMark(a, reset, n, mark))
  {
    var m := n + 1;
    forall k: nat ensures Held(a, reset, k, m) <==> !reset(n) && (Held(a, reset, k, n) || (k == n && a(n))) {}
  }

  lemma MarkIsEarliest(a: nat -> bool, reset: nat -> bool, n: nat, mark: Option<nat>, k: nat)
    requires Mark(a, reset, n, mark)
    ensures EarliestHeld(a, reset, k, n) <==> mark == Some(k)
  {
  }

  /** Done, the turn begun, and no answer at rest. */
  ghost function UnsettledAt(t: Turn, ticks: nat -> Tick): nat -> bool {
    (k: nat) => StateAt(t, ticks(k)) == Done && Begun(t, ticks, k) && !AtRest(t, ticks(k))
  }

  ghost function BusyAt(t: Turn, ticks: nat -> Tick): nat -> bool {
    (k: nat) => Busy(t, ticks(k))
  }

  /** At rest, with background work out. */
  ghost function OutAt(t: Turn, ticks: nat -> Tick): nat -> bool {
    (k: nat) => AtRest(t, ticks(k)) && Waiting(t, ticks(k))
  }

  ghost function Never(): nat -> bool {
    (k: nat) => false
  }

  ghost function RanAt(t: Turn, ticks: nat -> Tick): nat -> bool {
    (k: nat) => StateAt(t, ticks(k)) == Running
  }

  /** Waiting on a dialog that can be read. */
  ghost predicate Readable(t: Turn, k: Tick) {
    StateAt(t, k) == Awaiting && k.question.kind != KIND_UNKNOWN
  }

  ghost function ReadableAt(t: Turn, ticks: nat -> Tick): nat -> bool {
    (k: nat) => Readable(t, ticks(k))
  }

  /** A dialog has been read, and so reported, before poll n in this episode. */
  ghost predicate Asked(t: Turn, ticks: nat -> Tick, n: nat) {
    exists k: nat :: Held(ReadableAt(t, ticks), RanAt(t, ticks), k, n)
  }

  /** Waiting on a dialog nobody can read, with none reported in this episode. */
  ghost function UnreadAt(t: Turn, ticks: nat -> Tick): nat -> bool {
    (k: nat) => StateAt(t, ticks(k)) == Awaiting && ticks(k).question.kind == KIND_UNKNOWN && !Asked(t, ticks, k)
  }

  /** The dialog last reported before poll n. */
  ghost function LastTool(t: Turn, ticks: nat -> Tick, n: nat): Text {
    if n == 0 then EMPTY
    else if Readable(t, ticks(n - 1)) && (!Asked(t, ticks, n - 1) || ticks(n - 1).status == Some(K.Running))
    then ticks(n - 1).question.tool
    else LastTool(t, ticks, n - 1)
  }

  // ---------- what an outcome means ----------

  /** Nothing settled for longer than the grace, counted from the first poll of
      this rest. */
  ghost predicate UnsettledLong(t: Turn, ticks: nat -> Tick, n: nat) {
    exists k: nat ::
      EarliestHeld(UnsettledAt(t, ticks), BusyAt(t, ticks), k, n + 1) && ticks(n).again - ticks(k).at > t.grace
  }

  /** Background work has been out for the whole hold, counted from the first
      poll that found the turn at rest over some. */
  ghost predicate HeldLong(t: Turn, ticks: nat -> Tick, n: nat) {
    exists k: nat :: EarliestHeld(OutAt(t, ticks), Never(), k, n + 1) && ticks(n).again - ticks(k).at >= t.hold
  }

  ghost predicate NoState(t: Turn, k: Tick) {
    StateAt(t, k) == Unset || StateAt(t, k) == Other
  }

  /** What the watch goes past, the deadline aside. */
  ghost predicate Passes(t: Turn, ticks: nat -> Tick, n: nat) {
    var k := ticks(n);
    && (StateAt(t, k) == Done ==>
          && !Shrunk(t, k.lines)
          && (!Begun(t, ticks, n) ==> k.at <= t.start + t.grace)
          && (Begun(t, ticks, n) && !AtRest(t, k) ==> !UnsettledLong(t, ticks, n))
          && (AtRest(t, k) ==> Waiting(t, k) && !HeldLong(t, ticks, n)))
    && (NoState(t, k) ==> k.at <= t.start + t.grace)
  }

  ghost predicate GoesOn(t: Turn, ticks: nat -> Tick, n: nat) {
    !ticks(n).cancelled && ticks(n).found && Passes(t, ticks, n) && ticks(n).end <= t.start + t.timeout
  }

  ghost predicate FailedRight(t: Turn, ticks: nat -> Tick, n: nat, why: Why) {
    var k := ticks(n);
    var done := k.found && StateAt(t, k) == Done && !Shrunk(t, k.lines);
    match why
    case Gone => !k.found
    case Replaced => k.found && StateAt(t, k) == Done && Shrunk(t, k.lines)
    case NotStarted => done && !Begun(t, ticks, n) && k.at > t.start + t.grace
    case Unreadable => done && Begun(t, ticks, n) && !AtRest(t, k) && UnsettledLong(t, ticks, n) && k.lines.None?
    case NoAnswer => done && Begun(t, ticks, n) && !AtRest(t, k) && UnsettledLong(t, ticks, n) && k.lines.Some?
    case NoClaude => k.found && NoState(t, k) && k.at > t.start + t.grace
    case TooLong => k.found && Passes(t, ticks, n) && k.end > t.start + t.timeout
  }

  /** The outcome a poll gives, if it does not go on. */
  ghost predicate OutcomeRight(t: Turn, ticks: nat -> Tick, n: nat, o: Outcome) {
    var k := ticks(n);
    match o
    case LetGo => k.cancelled
    case Failed(why) => !k.cancelled && FailedRight(t, ticks, n, why)
    case Settled(answer, background) =>
      && !k.cancelled && k.found && StateAt(t, k) == Done && !Shrunk(t, k.lines) && Answered(t, k, answer)
      && (background <==> Waiting(t, k)) && (background ==> HeldLong(t, ticks, n))
  }

  /** A poll either goes on or gives one outcome, never two and never both: the
      conditions above leave the watch no choice. */
  lemma OutcomeIsDetermined(t: Turn, ticks: nat -> Tick, n: nat, o: Outcome, p: Outcome)
    requires OutcomeRight(t, ticks, n, o)
    ensures !GoesOn(t, ticks, n)
    ensures OutcomeRight(t, ticks, n, p) ==> o == p
  {
    if o.Settled? {
      assert AtRest(t, ticks(n));
    }
    if p.Settled? && OutcomeRight(t, ticks, n, p) {
      assert AtRest(t, ticks(n));
    }
  }

  // ---------- what is reported to the caller ----------

  /** The report a poll must make. A dialog is reported at the first poll of its
      episode that can read it, and another one once an answer has put the task
      back to running; one nobody can read is reported as unknown after the grace,
      unless the task says so already. A running session puts its task back to
      running, and so does an answer held over background work. */
  ghost predicate MoveDue(t: Turn, ticks: nat -> Tick, n: nat, m: Move) {
    var k := ticks(n);
    match StateAt(t, k)
    case Running => m == KeepRunning
    case Awaiting =>
      if !Asked(t, ticks, n) then
        if k.question.kind != KIND_UNKNOWN then
          m == if k.status == Some(K.NeedsInput) then Reread(k.question) else Ask(k.question)
        else
          && m == Ask(k.paned) && UnreadLong(t, ticks, n)
          && !(k.status == Some(K.NeedsInput) && k.kind == KIND_UNKNOWN)
      else
        && m == Ask(k.question) && k.question.kind != KIND_UNKNOWN
        && k.status == Some(K.Running) && k.question.tool != LastTool(t, ticks, n)
    case Done => m == KeepRunning && !Shrunk(t, k.lines) && AtRest(t, k) && Waiting(t, k) && !HeldLong(t, ticks, n)
    case _ => false
  }

  /** Nobody could read the dialog for the whole grace, counted from the first
      such poll of this episode. */
  ghost predicate UnreadLong(t: Turn, ticks: nat -> Tick, n: nat) {
    exists k: nat ::
      EarliestHeld(UnreadAt(t, ticks), RanAt(t, ticks), k, n + 1) && ticks(n).again - ticks(k).at >= t.grace
  }

  /** Exactly what must be reported is. */
  ghost predicate Reports(t: Turn, ticks: nat -> Tick, n: nat, move: Option<Move>) {
    match move
    case None => forall m :: !MoveDue(t, ticks, n, m)
    case Some(m) => MoveDue(t, ticks, n, m)
  }

  /** The report of a dialog that was read. */
  ghost predicate Tells(t: Turn, ticks: nat -> Tick, n: nat) {
    Readable(t, ticks(n)) && exists m :: MoveDue(t, ticks, n, m)
  }

  lemma {:induction false} LastToolStays(t: Turn, ticks: nat -> Tick, i: nat, n: nat)
    requires i < n && Tells(t, ticks, i) && forall k: nat :: i < k < n ==> !Tells(t, ticks, k)
    requires forall k: nat :: i <= k < n ==> StateAt(t, ticks(k)) != Running
    ensures Asked(t, ticks, n) && LastTool(t, ticks, n) == ticks(i).question.tool
  {
    assert Held(ReadableAt(t, ticks), RanAt(t, ticks), i, n);
    var p := n - 1;
    if i < p {
      LastToolStays(t, ticks, i, p);
      assert Readable(t, ticks(p)) && MoveDue(t, ticks, p, Ask(ticks(p).question)) ==> Tells(t, ticks, p);
    }
  }

  /** A dialog that has been reported is not reported again in its episode until
      another one has been. */
  lemma NotToldAgain(t: Turn, ticks: nat -> Tick, i: nat, n: nat)
    requires i < n && Tells(t, ticks, i) && Tells(t, ticks, n)
    requires forall k: nat :: i < k < n ==> !Tells(t, ticks, k)
    requires forall k: nat :: i <= k < n ==> StateAt(t, ticks(k)) != Running
    ensures ticks(n).question.tool != ticks(i).question.tool
  {
    LastToolStays(t, ticks, i, n);
  }

  // ---------- the watch ----------

  /** What the watch remembers from poll to poll. */
  datatype Memory = Memory(
    sawRunning: bool, asked: bool, lastTool: Text,
    doneSince: Option<Time>, bgSince: Option<Time>, unknownSince: Option<Time>)

  const FRESH := Memory(false, false, EMPTY, None, None, None)

  /** The polls its times are of, and the one that found the reported dialog. */
  datatype Marks = Marks(done: Option<nat>, bg: Option<nat>, unknown: Option<nat>, asked: Option<nat>)

  const NO_MARKS := Marks(None, None, None, None)

  ghost predicate TimeOf(ticks: nat -> Tick, since: Option<Time>, mark: Option<nat>) {
    since == if mark.None? then None else Some(ticks(mark.value).at)
  }

  ghost predicate MarksRight(t: Turn, ticks: nat -> Tick, n: nat, at: Marks) {
    && Mark(UnsettledAt(t, ticks), BusyAt(t, ticks), n, at.done)
    && Mark(OutAt(t, ticks), Never(), n, at.bg)
    && Mark(UnreadAt(t, ticks), RanAt(t, ticks), n, at.unknown)
    && Mark(ReadableAt(t, ticks), RanAt(t, ticks), n, at.asked)
  }

  ghost function NextMarks(t: Turn, ticks: nat -> Tick, n: nat, at: Marks): Marks {
    Marks(
      NextMark(UnsettledAt(t, ticks), BusyAt(t, ticks), n, at.done),
      NextMark(OutAt(t, ticks), Never(), n, at.bg),
      NextMark(UnreadAt(t, ticks), RanAt(t, ticks), n, at.unknown),
      NextMark(ReadableAt(t, ticks), RanAt(t, ticks), n, at.asked))
  }

  /** A poll that sets one of them does not reset it. */
  lemma Apart(t: Turn, ticks: nat -> Tick, n: nat)
    ensures !(UnsettledAt(t, ticks)(n) && BusyAt(t, ticks)(n)) && !(OutAt(t, ticks)(n) && Never()(n))
    ensures !(UnreadAt(t, ticks)(n) && RanAt(t, ticks)(n)) && !(ReadableAt(t, ticks)(n) && RanAt(t, ticks)(n))
  {
    hide Begun, AtRest, Asked, Waiting;
    var k := ticks(n);
    assert UnsettledAt(t, ticks)(n) ==> StateAt(t, k) == Done;
    assert BusyAt(t, ticks)(n) ==> Busy(t, k);
    assert UnreadAt(t, ticks)(n) ==> StateAt(t, k) == Awaiting;
    assert ReadableAt(t, ticks)(n) ==> StateAt(t, k) == Awaiting;
    assert RanAt(t, ticks)(n) ==> StateAt(t, k) == Running;
  }

  lemma MarksNext(t: Turn, ticks: nat -> Tick, n: nat, at: Marks)
    requires MarksRight(t, ticks, n, at)
    ensures MarksRight(t, ticks, n + 1, NextMarks(t, ticks, n, at))
  {
    Apart(t, ticks, n);
    hide Mark, UnsettledAt, BusyAt, OutAt, Never, UnreadAt, RanAt, ReadableAt;
    MarkNext(UnsettledAt(t, ticks), BusyAt(t, ticks), n, at.done);
    MarkNext(OutAt(t, ticks), Never(), n, at.bg);
    MarkNext(UnreadAt(t, ticks), RanAt(t, ticks), n, at.unknown);
    MarkNext(ReadableAt(t, ticks), RanAt(t, ticks), n, at.asked);
  }

  /** What it remembers after polls 0 to n - 1, and no less. */
  ghost predicate Remembers(t: Turn, ticks: nat -> Tick, n: nat, m: Memory, at: Marks) {
    && MarksRight(t, ticks, n, at)
    && (m.sawRunning <==> exists k: nat :: k < n && Busy(t, ticks(k)))
    && m.asked == at.asked.Some? && m.lastTool == LastTool(t, ticks, n)
    && TimeOf(ticks, m.doneSince, at.done) && TimeOf(ticks, m.bgSince, at.bg)
    && TimeOf(ticks, m.unknownSince, at.unknown)
  }

  lemma AskedIs(t: Turn, ticks: nat -> Tick, n: nat, at: Marks)
    requires MarksRight(t, ticks, n, at)
    ensures at.asked.Some? <==> Asked(t, ticks, n)
  {
    if at.asked.Some? { assert Held(ReadableAt(t, ticks), RanAt(t, ticks), at.asked.value, n); }
  }

  /** The three waits, by the marks the watch keeps. */
  lemma WaitsAre(t: Turn, ticks: nat -> Tick, n: nat, at: Marks)
    requires MarksRight(t, ticks, n + 1, at)
    ensures UnsettledLong(t, ticks, n) <==> at.done.Some? && ticks(n).again - ticks(at.done.value).at > t.grace
    ensures HeldLong(t, ticks, n) <==> at.bg.Some? && ticks(n).again - ticks(at.bg.value).at >= t.hold
    ensures UnreadLong(t, ticks, n) <==> at.unknown.Some? && ticks(n).again - ticks(at.unknown.value).at >= t.grace
  {
    var m := n + 1;
    forall k: nat ensures EarliestHeld(UnsettledAt(t, ticks), BusyAt(t, ticks), k, m) <==> at.done == Some(k) {
      MarkIsEarliest(UnsettledAt(t, ticks), BusyAt(t, ticks), m, at.done, k);
    }
    forall k: nat ensures EarliestHeld(OutAt(t, ticks), Never(), k, m) <==> at.bg == Some(k) {
      MarkIsEarliest(OutAt(t, ticks), Never(), m, at.bg, k);
    }
    forall k: nat ensures EarliestHeld(UnreadAt(t, ticks), RanAt(t, ticks), k, m) <==> at.unknown == Some(k) {
      MarkIsEarliest(UnreadAt(t, ticks), RanAt(t, ticks), m, at.unknown, k);
    }
  }

  /** What a poll's state does to the marks. */
  lemma MarksMove(t: Turn, ticks: nat -> Tick, n: nat, at: Marks)
    requires MarksRight(t, ticks, n, at)
    ensures var s, next := StateAt(t, ticks(n)), NextMarks(t, ticks, n, at);
      && (s == Running ==> next == at.(done := None, unknown := None, asked := None))
      && (s == Awaiting && at.asked.Some? ==> next == at.(done := None))
      && (s == Awaiting && at.asked.None? && Readable(t, ticks(n)) ==> next == at.(done := None, asked := Some(n)))
      && (s == Awaiting && at.asked.None? && !Readable(t, ticks(n)) ==>
            next == at.(done := None, unknown := if at.unknown.None? then Some(n) else at.unknown))
      && (s == Done ==>
            && next.unknown == at.unknown && next.asked == at.asked
            && next.done == (if at.done.None? && Begun(t, ticks, n) && !AtRest(t, ticks(n)) then Some(n) else at.done)
            && next.bg == (if at.bg.None? && AtRest(t, ticks(n)) && Waiting(t, ticks(n)) then Some(n) else at.bg))
      && (NoState(t, ticks(n)) ==> next == at)
  {
    AskedIs(t, ticks, n, at);
  }

  /** The branch for a session waiting on a dialog. */
  method OnAwaiting(t: Turn, ghost ticks: nat -> Tick, ghost n: nat, k: Tick, m: Memory, ghost at: Marks)
    returns (m': Memory, move: Option<Move>)
    requires k == ticks(n) && StateAt(t, k) == Awaiting && Remembers(t, ticks, n, m, at)
    ensures Remembers(t, ticks, n + 1, m', NextMarks(t, ticks, n, at))
    ensures Reports(t, ticks, n, move)
  {
    ghost var next := NextMarks(t, ticks, n, at);
    MarksNext(t, ticks, n, at);
    MarksMove(t, ticks, n, at);
    AskedIs(t, ticks, n, at);
    WaitsAre(t, ticks, n, next);
    assert Busy(t, ticks(n));
    hide MarksRight, NextMarks, UnreadLong, Asked;
    m', move := m.(sawRunning := true, doneSince := None), None;
    if !m.asked {
      if k.question.kind == KIND_UNKNOWN {
        if m'.unknownSince.None? { m' := m'.(unknownSince := Some(k.at)); }
        if k.again - m'.unknownSince.value < t.grace { return; }
        if k.status != Some(K.NeedsInput) || k.kind != KIND_UNKNOWN { move := Some(Ask(k.paned)); }
        return;
      }
      m' := m'.(asked := true, lastTool := k.question.tool);
      move := Some(if k.status == Some(K.NeedsInput) then Reread(k.question) else Ask(k.question));
    } else if k.status == Some(K.Running) && k.question.kind != KIND_UNKNOWN && k.question.tool != m.lastTool {
      m' := m'.(lastTool := k.question.tool);
      move := Some(Ask(k.question));
    }
  }

  /** This turn's records, its answer, and whether it has come to rest. */
  method ReadTurn(t: Turn, k: Tick) returns (turn: seq<Line>, answer: Text, settled: bool)
    requires StateAt(t, k) == Done
    ensures turn == TurnAt(t, k)
    ensures settled <==> AtRest(t, k)
    ensures settled ==> Answered(t, k, answer)
    ensures answer != EMPTY <==> exists l :: l in turn && Answering(l)
  {
    turn := [];
    if k.lines.Some? { turn := TurnLines(k.lines.value, t.mark, t.sentAt); }
    assert turn == TurnAt(t, k);
    answer, settled := TurnAnswer(turn);
    if settled { assert Answered(t, k, answer); }
  }

  /** Done, with no answer at rest: the grace tells a late line from none. */
  method OnUnsettled(t: Turn, ghost ticks: nat -> Tick, ghost n: nat, k: Tick, m: Memory, ghost at: Marks)
    returns (m': Memory, outcome: Option<Outcome>)
    requires k == ticks(n) && StateAt(t, k) == Done && !k.cancelled && k.found && !Shrunk(t, k.lines)
    requires !AtRest(t, k) && Begun(t, ticks, n) && Remembers(t, ticks, n, m, at)
    ensures Remembers(t, ticks, n + 1, m', NextMarks(t, ticks, n, at))
    ensures match outcome case None => Passes(t, ticks, n) case Some(o) => OutcomeRight(t, ticks, n, o)
    ensures outcome != Some(Failed(TooLong))
  {
    hide MarksRight, NextMarks, UnsettledLong, Begun, AtRest, StateAt, LastTool, HeldLong, Waiting, Shrunk, Busy;
    DoneKeeps(t, ticks, n, m, at);
    m', outcome := m, None;
    if m'.doneSince.None? { m' := m'.(doneSince := Some(k.at)); }
    if k.again - m'.doneSince.value > t.grace {
      outcome := Some(Failed(if k.lines.None? then Unreadable else NoAnswer));
    }
  }

  /** Done, with an answer at rest: it is the turn's unless background work is
      out, and then only once it has been held for. */
  method OnSettled(t: Turn, ghost ticks: nat -> Tick, ghost n: nat, k: Tick, m: Memory, ghost at: Marks,
                   turn: seq<Line>, answer: Text)
    returns (m': Memory, move: Option<Move>, outcome: Option<Outcome>)
    requires k == ticks(n) && StateAt(t, k) == Done && !k.cancelled && k.found && !Shrunk(t, k.lines)
    requires turn == TurnAt(t, k) && Answered(t, k, answer) && Begun(t, ticks, n) && Remembers(t, ticks, n, m, at)
    ensures Remembers(t, ticks, n + 1, m', NextMarks(t, ticks, n, at))
    ensures match outcome case None => Passes(t, ticks, n) case Some(o) => OutcomeRight(t, ticks, n, o)
    ensures outcome.None? ==> move == Some(KeepRunning) && Reports(t, ticks, n, move)
    ensures outcome != Some(Failed(TooLong))
  {
    assert AtRest(t, k);
    hide MarksRight, NextMarks, HeldLong, Begun, StateAt, LastTool;
    DoneKeeps(t, ticks, n, m, at);
    var bg := IsWaiting(t, k, turn);
    m', move, outcome := m, None, None;
    if bg {
      if m'.bgSince.None? { m' := m'.(bgSince := Some(k.at)); }
      if k.again - m'.bgSince.value < t.hold {
        move := Some(KeepRunning);
        return;
      }
    }
    outcome := Some(Settled(answer, bg));
  }

  /** What a poll that reads done leaves to be remembered, and its two waits. */
  lemma DoneKeeps(t: Turn, ticks: nat -> Tick, n: nat, m: Memory, at: Marks)
    requires Remembers(t, ticks, n, m, at) && StateAt(t, ticks(n)) == Done
    ensures var k := ticks(n); var next := NextMarks(t, ticks, n, at);
      && MarksRight(t, ticks, n + 1, next)
      && (m.sawRunning <==> exists j: nat :: j < n + 1 && Busy(t, ticks(j)))
      && next.asked == at.asked && next.unknown == at.unknown && m.lastTool == LastTool(t, ticks, n + 1)
      && next.done == (if at.done.None? && Begun(t, ticks, n) && !AtRest(t, k) then Some(n) else at.done)
      && next.bg == (if at.bg.None? && AtRest(t, k) && Waiting(t, k) then Some(n) else at.bg)
      && (UnsettledLong(t, ticks, n) <==> next.done.Some? && k.again - ticks(next.done.value).at > t.grace)
      && (HeldLong(t, ticks, n) <==> next.bg.Some? && k.again - ticks(next.bg.value).at >= t.hold)
  {
    MarksNext(t, ticks, n, at);
    MarksMove(t, ticks, n, at);
    WaitsAre(t, ticks, n, NextMarks(t, ticks, n, at));
    assert !Busy(t, ticks(n));
  }

  method IsWaiting(t: Turn, k: Tick, turn: seq<Line>) returns (waiting: bool)
    requires turn == TurnAt(t, k)
    ensures waiting <==> Waiting(t, k)
  {
    var v := View(k.agents, false, 0);
    var bg := BackgroundOutstanding(turn, v);
    waiting := |bg| > 0;
    if waiting {
      assert bg[0] in bg && Outstanding(v, turn, bg[0]);
    } else {
      assert forall x: Id :: !Outstanding(v, turn, x);
    }
  }

  /** The branch for a session whose state reads done. */
  method OnDone(t: Turn, ghost ticks: nat -> Tick, ghost n: nat, k: Tick, m: Memory, ghost at: Marks)
    returns (m': Memory, move: Option<Move>, outcome: Option<Outcome>)
    requires k == ticks(n) && StateAt(t, k) == Done && Remembers(t, ticks, n, m, at)
    requires !k.cancelled && k.found
    ensures Remembers(t, ticks, n + 1, m', NextMarks(t, ticks, n, at)) || outcome.Some?
    ensures match outcome case None => Passes(t, ticks, n) case Some(o) => OutcomeRight(t, ticks, n, o)
    ensures outcome.None? ==> Reports(t, ticks, n, move)
    ensures outcome != Some(Failed(TooLong))
  {
    m', move, outcome := m, None, None;
    DoneKeeps(t, ticks, n, m, at);
    if k.lines.Some? && t.mark.Some? && t.mark.value > |k.lines.value| {
      return m', None, Some(Failed(Replaced));
    }
    var turn, answer, settled := ReadTurn(t, k);
    var started := m.sawRunning
      || (k.lines.Some? && t.mark.Some? && |k.lines.value| > t.mark.value)
      || (t.mark.None? && answer != EMPTY);
    assert started <==> Begun(t, ticks, n);
    hide MarksRight, NextMarks, UnsettledLong, HeldLong, Begun;
    if !started {
      if k.at > t.start + t.grace { outcome := Some(Failed(NotStarted)); }
    } else if !settled {
      m', outcome := OnUnsettled(t, ticks, n, k, m, at);
    } else {
      m', move, outcome := OnSettled(t, ticks, n, k, m, at, turn, answer);
    }
  }

  lemma RunningKeeps(t: Turn, ticks: nat -> Tick, n: nat, m: Memory, at: Marks)
    requires Remembers(t, ticks, n, m, at) && StateAt(t, ticks(n)) == Running
    ensures Remembers(t, ticks, n + 1,
      m.(sawRunning := true, asked := false, doneSince := None, unknownSince := None), NextMarks(t, ticks, n, at))
  {
    MarksNext(t, ticks, n, at);
    MarksMove(t, ticks, n, at);
    assert Busy(t, ticks(n));
  }

  lemma UnsetKeeps(t: Turn, ticks: nat -> Tick, n: nat, m: Memory, at: Marks)
    requires Remembers(t, ticks, n, m, at) && NoState(t, ticks(n))
    ensures Remembers(t, ticks, n + 1, m, NextMarks(t, ticks, n, at))
  {
    MarksNext(t, ticks, n, at);
    MarksMove(t, ticks, n, at);
    assert !Busy(t, ticks(n));
  }

  /** One pass of the loop, from the select on the cancel to the deadline. */
  method Poll(t: Turn, ghost ticks: nat -> Tick, ghost n: nat, k: Tick, m: Memory, ghost at: Marks)
    returns (m': Memory, move: Option<Move>, outcome: Option<Outcome>)
    requires k == ticks(n) && Remembers(t, ticks, n, m, at)
    ensures match outcome
      case None => GoesOn(t, ticks, n) && Remembers(t, ticks, n + 1, m', NextMarks(t, ticks, n, at))
      case Some(o) => OutcomeRight(t, ticks, n, o)
    ensures if outcome.None? || outcome == Some(Failed(TooLong)) then Reports(t, ticks, n, move) else move == None
  {
    m', move, outcome := m, None, None;
    if k.cancelled { return m, None, Some(LetGo); }
    if !k.found { return m, None, Some(Failed(Gone)); }
    var state := SessionState(t, k);
    hide Remembers, NextMarks, UnsettledLong, HeldLong, Begun, Asked, UnreadLong, StateAt, AtRest, Waiting, Shrunk;
    match state {
      case Running =>
        RunningKeeps(t, ticks, n, m, at);
        m' := m.(sawRunning := true, asked := false, doneSince := None, unknownSince := None);
        move := Some(KeepRunning);
      case Awaiting =>
        m', move := OnAwaiting(t, ticks, n, k, m, at);
      case Done =>
        m', move, outcome := OnDone(t, ticks, n, k, m, at);
        if outcome.Some? { return m', None, outcome; }
      case _ =>
        UnsetKeeps(t, ticks, n, m, at);
        if k.at > t.start + t.grace { return m', None, Some(Failed(NoClaude)); }
    }
    if k.end > t.start + t.timeout { outcome := Some(Failed(TooLong)); }
  }

  lemma NoneTooLate(t: Turn, ticks: nat -> Tick, n: nat)
    requires ticks(n).end > t.start + t.timeout
    ensures !GoesOn(t, ticks, n)
  {
  }

  /** Without a mod an answer is settled only over a transcript that shows the turn's
      end (or was cut short), or shows nothing of the turn, with done stamped. */
  lemma SettledOverEnd(t: Turn, ticks: nat -> Tick, n: nat, o: Outcome)
    requires OutcomeRight(t, ticks, n, o) && o.Settled? && !ticks(n).mod
    ensures ShowsEnd(t, ticks(n).early) || (ticks(n).stamped == Done && !ShowsOpen(t, ticks(n).early))
  {
    StateShows(t, ticks(n));
  }

  lemma FreshRemembers(t: Turn, ticks: nat -> Tick)
    ensures Remembers(t, ticks, 0, FRESH, NO_MARKS)
  {
  }

  /** watchTurn. It ends, because some poll reads a clock past the deadline; n is
      the poll it ended at, the first that does not go on; `moves` is what each
      poll reported: exactly what it had to. */
  method WatchTurn(t: Turn, ticks: nat -> Tick, ghost late: nat)
    returns (outcome: Outcome, n: nat, moves: seq<Option<Move>>)
    requires ticks(late).end > t.start + t.timeout
    ensures n <= late && OutcomeRight(t, ticks, n, outcome)
    ensures forall k: nat :: k < n ==> GoesOn(t, ticks, k)
    ensures |moves| == n + 1 && forall k: nat :: k < n ==> Reports(t, ticks, k, moves[k])
    ensures if outcome == Failed(TooLong) then Reports(t, ticks, n, moves[n]) else moves[n] == None
    // Without a mod an answer is settled only over a transcript that shows the turn's
    // end (or was cut short), or shows nothing of the turn, with done stamped.
    ensures outcome.Settled? && !ticks(n).mod ==>
      ShowsEnd(t, ticks(n).early) || (ticks(n).stamped == Done && !ShowsOpen(t, ticks(n).early))
  {
    hide Remembers, NextMarks, GoesOn, Reports, OutcomeRight, StateAt, ShowsEnd, ShowsOpen;
    FreshRemembers(t, ticks);
    NoneTooLate(t, ticks, late);
    var m := FRESH;
    ghost var at := NO_MARKS;
    n, moves := 0, [];
    while true
      invariant n <= late && Remembers(t, ticks, n, m, at)
      invariant forall k: nat :: k < n ==> GoesOn(t, ticks, k)
      invariant |moves| == n && forall k: nat :: k < n ==> Reports(t, ticks, k, moves[k])
      decreases late - n
    {
      var move: Option<Move>, o: Option<Outcome>;
      m, move, o := Poll(t, ticks, n, ticks(n), m, at);
      moves := moves + [move];
      if o.Some? {
        if o.value.Settled? && !ticks(n).mod { SettledOverEnd(t, ticks, n, o.value); }
        return o.value, n, moves;
      }
      at := NextMarks(t, ticks, n, at);
      n := n + 1;
    }
  }

  // ---------- never an earlier turn's answer ----------

  /** The send's view of the past: a known mark is the transcript's length, an
      unknown one leaves the stamps, which for what was written before the send
      are earlier than it. */
  predicate Before(t: Turn, past: seq<Line>) {
    match t.mark
    case Some(m) => m == |past|
    case None => forall l :: l in past ==> !StampedSince(l, t.sentAt)
  }

  lemma {:induction false} SinceSplits(a: seq<Line>, b: seq<Line>, sentAt: Time)
    ensures Since(a + b, sentAt) == Since(a, sentAt) + Since(b, sentAt)
  {
    if b == [] {
      assert a + b == a;
    } else {
      var n := |b| - 1;
      assert (a + b)[..|a + b| - 1] == a + b[..n];
      SinceSplits(a, b[..n], sentAt);
    }
  }

  lemma {:induction false} NoneSince(past: seq<Line>, sentAt: Time)
    requires forall l :: l in past ==> !StampedSince(l, sentAt)
    ensures Since(past, sentAt) == []
  {
    if Since(past, sentAt) != [] { assert Since(past, sentAt)[0] in Since(past, sentAt); }
  }

  /** Record i answers, and nothing conversational that the turn is read from
      follows it. */
  predicate NewAnswer(t: Turn, added: seq<Line>, i: nat, answer: Text) {
    && i < |added| && Answering(added[i]) && added[i].record.value.text == answer
    && (t.mark.None? ==> StampedSince(added[i], t.sentAt))
    && forall j :: i < j < |added| && (t.mark.Some? || StampedSince(added[j], t.sentAt)) ==>
         !Answering(added[j]) && !Asking(added[j])
  }

  predicate LastStamped(ls: seq<Line>, sentAt: Time, k: nat) {
    && k < |ls| && StampedSince(ls[k], sentAt)
    && forall j :: k < j < |ls| && StampedSince(ls[j], sentAt) ==> !Answering(ls[j]) && !Asking(ls[j])
  }

  /** On a transcript that is only appended to, a settled answer is the text of a
      record written after the send, and no conversational user text follows it
      in what the turn is read from: so it is never an earlier turn's. With an
      unknown mark the record is moreover stamped at or after the send. */
  lemma SettledAnswerIsNew(
      t: Turn, ticks: nat -> Tick, n: nat, past: seq<Line>, added: seq<Line>, answer: Text, bg: bool)
    requires OutcomeRight(t, ticks, n, Settled(answer, bg)) && Before(t, past)
    requires ticks(n).lines == Some(past + added)
    ensures exists i: nat :: NewAnswer(t, added, i, answer)
  {
    var turn := TurnAt(t, ticks(n));
    var i: nat :| AnsweredBy(turn, |turn|, i) && answer == turn[i].record.value.text;
    if t.mark.Some? {
      assert turn == added;
      assert NewAnswer(t, added, i, answer);
    } else {
      SinceSplits(past, added, t.sentAt);
      NoneSince(past, t.sentAt);
      assert turn == Since(added, t.sentAt);
      LastSince(added, t.sentAt, i);
      var k: nat :| LastStamped(added, t.sentAt, k) && added[k] == turn[i];
      assert NewAnswer(t, added, k, answer);
    }
  }

  /** The record a filtered answer comes from, with the same records after it. */
  lemma {:induction false} LastSince(ls: seq<Line>, sentAt: Time, i: nat)
    requires AnsweredBy(Since(ls, sentAt), |Since(ls, sentAt)|, i)
    ensures exists k: nat :: LastStamped(ls, sentAt, k) && ls[k] == Since(ls, sentAt)[i]
  {
    var n := |ls| - 1;
    var f := Since(ls, sentAt);
    if StampedSince(ls[n], sentAt) && i == |f| - 1 {
      assert LastStamped(ls, sentAt, n) && ls[n] == f[i];
    } else {
      var g := Since(ls[..n], sentAt);
      assert i < |g| && g[i] == f[i];
      assert forall j :: i < j < |g| ==> g[j] == f[j];
      LastSince(ls[..n], sentAt, i);
      var k: nat :| LastStamped(ls[..n], sentAt, k) && ls[..n][k] == g[i];
      if StampedSince(ls[n], sentAt) { assert f[|f| - 1] == ls[n]; }
      forall j | k < j < |ls| && StampedSince(ls[j], sentAt) ensures !Answering(ls[j]) && !Asking(ls[j]) {
        if j < n { assert ls[j] == ls[..n][j]; }
      }
      assert LastStamped(ls, sentAt, k) && ls[k] == f[i];
    }
  }

  // ---------- where the mark comes from ----------

  /** What the wait for the pane finds: the session before and after it, its
      state, whether the pane drew a prompt or shows a dialog, and a transcript
      that reads, does not exist, or cannot be read. */
  datatype Reading = Read(lines: seq<Line>) | Missing | ReadError

  datatype Ready = NotReady | Send(mark: Option<nat>, uncleared: bool)

  /** How much history there is before the turn: zero over a missing transcript
      only when nothing ever stamped the session, and unknown when a turn was run
      there before, or it cannot be read. */
  function MarkOf(state: State, reading: Reading): Option<nat> {
    match reading
    case Read(lines) => Some(|lines|)
    case Missing => if state == Unset then Some(0) else None
    case ReadError => None
  }

  /** awaitReady. A dialog in the way of a pane that never settled fails the task,
      and nothing else here does; a cancel seen after the wait ends the turn; and
      otherwise the message is sent, with the mark the second look at the session
      gives (unknown when either look missed it). */
  method AwaitReady(
      found: bool, settles: bool, foundLate: bool, dialog: bool, cancelled: bool, foundAgain: bool,
      state: State, reading: Reading)
    returns (r: Ready, failed: bool)
    ensures failed <==> found && !settles && foundLate && dialog
    ensures r == NotReady <==> failed || (found && cancelled)
    ensures r != NotReady ==>
      && (r.uncleared <==> found && !settles)
      && r.mark == if found && foundAgain then MarkOf(state, reading) else None
    // The mark is how many lines a transcript that reads has, none when there is
    // no transcript and nothing ever stamped the session, and otherwise unknown.
    ensures r != NotReady ==> (r.mark.Some? <==>
      found && foundAgain && (reading.Read? || (reading == Missing && state == Unset)))
    ensures r != NotReady && r.mark.Some? ==> r.mark.value == if reading.Read? then |reading.lines| else 0
  {
    failed := false;
    if !found { return Send(None, false), false; }
    var uncleared := false;
    if !settles {
      if foundLate && dialog { return NotReady, true; }
      uncleared := true;
    }
    if cancelled { return NotReady, false; }
    if !foundAgain { return Send(None, uncleared), false; }
    match reading
    case Read(lines) => r := Send(Some(|lines|), uncleared);
    case Missing => r := Send(if state != Unset then None else Some(0), uncleared);
    case ReadError => r := Send(None, uncleared);
  }
}
