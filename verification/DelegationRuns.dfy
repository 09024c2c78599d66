// Whole runs of the delegation store: any sequence of requests, sweeps,
// failed writes and restarts (a crash is a restart; a crash inside an
// operation is that operation, with the writes that landed, and then one).
module DelegationRuns {
  import opened Ids
  import opened Delegations

  datatype Event =
    | CreateEvent(rec: Record, now: Time, stamp: Time, ok: bool)
    | ReadEvent(ids: set<Id>, now: Time, stamp: Time, ok: bool)      // Get, List, a pass of Wait
    | ChangeEvent(id: Id, change: Change, now: Time, stamp: Time, ok: bool)
    | SweepEvent(now: Time, stamp: Time, later: Time, ok: bool, okPrune: bool)
    | RestartEvent

  /** The store, and two histories: every creation answered with success, in
      order, and the latest clock reading taken. */
  datatype World = World(store: Store, created: seq<Record>, horizon: Time)

  const START := World(NEW_STORE, [], 0)

  function Max(a: Time, b: Time): Time { if a < b then b else a }

  function Horizon(h: Time, e: Event): Time {
    match e
    case SweepEvent(now, stamp, later, _, _) => Max(Max(Max(h, now), stamp), later)
    case RestartEvent => h
    case _ => Max(Max(h, e.now), e.stamp)
  }

  /** An id is minted once: no record anywhere carries it yet. */
  ghost predicate Unused(w: World, id: Id) {
    && id != EMPTY && id !in w.store.byID && id !in Loaded(w.store.file)
    && (forall r :: r in w.created ==> r.id != id)
  }

  ghost predicate Enabled(w: World, e: Event) {
    e.CreateEvent? ==> Unused(w, e.rec.id)
  }

  ghost function Next(w: World, e: Event, caps: Caps): World
    requires WellFormed(w.store) && Enabled(w, e)
  {
    var s := w.store;
    match e
    case CreateEvent(rec, now, stamp, ok) =>
      World(Create(s, rec, caps, now, stamp, ok),
            if Capped(s.byID, rec.caller, now, caps) || !ok then w.created else w.created + [NewRecord(rec, stamp)],
            Horizon(w.horizon, e))
    case ReadEvent(ids, now, stamp, ok) =>
      w.(store := Expire(s, ids, now, stamp, ok), horizon := Horizon(w.horizon, e))
    case ChangeEvent(id, change, now, stamp, ok) =>
      w.(store := Transition(s, id, change, now, stamp, ok), horizon := Horizon(w.horizon, e))
    case SweepEvent(now, stamp, later, ok, okPrune) =>
      w.(store := Sweep(s, now, stamp, later, ok, okPrune), horizon := Horizon(w.horizon, e))
    case RestartEvent =>
      w.(store := Open(s.file))
  }

  lemma ExpireWellFormed(s: Store, ids: set<Id>, now: Time, stamp: Time, ok: bool)
    requires WellFormed(s)
    ensures WellFormed(Expire(s, ids, now, stamp, ok))
  {
  }

  lemma CommitWellFormed(s: Store, r: Record)
    requires WellFormed(s) && r.id != EMPTY
    ensures WellFormed(Commit(s, r))
    ensures Loaded(Commit(s, r).file) == Commit(s, r).byID
  {
    var n := Commit(s, r);
    Append(s.order, r.id);
    assert n.byID.Keys == s.byID.Keys + {r.id};
    assert IdSet(n.order) == n.byID.Keys && Distinct(n.order);
    WholeWrite(n);
  }

  lemma WholeWrite(s: Store)
    requires WellFormed(s) && s.file == Listing(s.order, s.byID)
    ensures Loaded(s.file) == s.byID
  {
    LoadedListing(s.order, s.byID);
  }

  /** The copy a transition writes. */
  function Changed(r: Record, c: Change, stamp: Time): Record
    requires Apply(r, c).Took?
  {
    Apply(r, c).rec.(updatedAt := Truncate(stamp))
  }

  lemma ChangedKeeps(r: Record, c: Change, stamp: Time)
    requires Apply(r, c).Took?
    ensures var n := Changed(r, c, stamp);
      && n.id == r.id && n.caller == r.caller && n.handover == r.handover
      && n.createdAt == r.createdAt && n.expiresAt == r.expiresAt && n.updatedAt == Truncate(stamp)
      && !Finished(r.status) && CanGo(r.status, n.status)
  {
  }

  /** A transition is an expiry, and then possibly one committed record. */
  lemma TransitionShape(s: Store, id: Id, c: Change, now: Time, stamp: Time, ok: bool)
    requires WellFormed(s) && id in s.byID
    ensures var e := Expire(s, {id}, now, stamp, ok); var t := Transition(s, id, c, now, stamp, ok);
      && WellFormed(e) && id in e.byID
      && (t == e || (Apply(e.byID[id], c).Took? && t == Commit(e, Changed(e.byID[id], c, stamp))))
  {
    ExpireWellFormed(s, {id}, now, stamp, ok);
  }

  lemma PruneWellFormed(s: Store, later: Time, ok: bool)
    requires WellFormed(s)
    ensures WellFormed(Prune(s, later, ok))
  {
  }

  lemma NextWellFormed(w: World, e: Event, caps: Caps)
    requires WellFormed(w.store) && Enabled(w, e)
    ensures WellFormed(Next(w, e, caps).store)
  {
    match e
    case CreateEvent(rec, _, stamp, _) => CommitWellFormed(w.store, NewRecord(rec, stamp));
    case ReadEvent(ids, now, stamp, ok) => ExpireWellFormed(w.store, ids, now, stamp, ok);
    case ChangeEvent(id, c, now, stamp, ok) =>
      if id in w.store.byID {
        TransitionShape(w.store, id, c, now, stamp, ok);
        var x := Expire(w.store, {id}, now, stamp, ok);
        if Apply(x.byID[id], c).Took? {
          CommitWellFormed(x, Changed(x.byID[id], c, stamp));
        }
      }
    case SweepEvent(now, stamp, later, ok, okPrune) =>
      ExpireWellFormed(w.store, w.store.byID.Keys, now, stamp, ok);
      PruneWellFormed(Expire(w.store, w.store.byID.Keys, now, stamp, ok), later, okPrune);
    case RestartEvent => OpenIsWellFormed(w.store.file);
  }

  ghost predicate Linked(w: World, e: Event, n: World, caps: Caps) {
    WellFormed(w.store) && Enabled(w, e) && n == Next(w, e, caps)
  }

  /** A run: every world follows from the one before it by one event. */
  ghost predicate StoreRun(ws: seq<World>, es: seq<Event>, caps: Caps) {
    && |ws| == |es| + 1
    && ws[0] == START
    && forall k :: 0 <= k < |es| ==> Linked(ws[k], es[k], ws[k + 1], caps)
  }

  // ---------- the crash-refinement invariant ----------

  /** Memory holds what the file holds, or the file's record with an expiry
      that was due by h and whose write failed. */
  predicate Agrees(m: Record, f: Record, h: Time) {
    m == f
    || (m.status == Expired && Overdue(f, h) && m == f.(status := Expired, updatedAt := m.updatedAt))
  }

  predicate AgreesAt(m: Table, f: Table, id: Id, h: Time) {
    && (id in m ==> id in f && Agrees(m[id], f[id], h))
    && (id in f && id !in m ==> Finished(Report(f[id], h).status))
  }

  ghost predicate Refines(s: Store, h: Time) {
    WellFormed(s) && forall id :: AgreesAt(s.byID, Loaded(s.file), id, h)
  }

  lemma ExpireRefines(s: Store, h: Time, ids: set<Id>, now: Time, stamp: Time, ok: bool, h': Time)
    requires Refines(s, h) && h <= h' && now <= h'
    ensures Refines(Expire(s, ids, now, stamp, ok), h')
  {
    var e := Expire(s, ids, now, stamp, ok);
    ExpireWellFormed(s, ids, now, stamp, ok);
    if e.file != s.file { WholeWrite(e); }
    forall id ensures AgreesAt(e.byID, Loaded(e.file), id, h') {
      assert AgreesAt(s.byID, Loaded(s.file), id, h);
    }
  }

  lemma PruneRefines(s: Store, h: Time, later: Time, ok: bool)
    requires Refines(s, h)
    ensures Refines(Prune(s, later, ok), h)
  {
    var e := Prune(s, later, ok);
    PruneWellFormed(s, later, ok);
    if e.file != s.file { WholeWrite(e); }
    forall id ensures AgreesAt(e.byID, Loaded(e.file), id, h) {
      assert AgreesAt(s.byID, Loaded(s.file), id, h);
    }
  }

  lemma CommitRefines(s: Store, r: Record, h: Time)
    requires WellFormed(s) && r.id != EMPTY
    ensures Refines(Commit(s, r), h)
  {
    CommitWellFormed(s, r);
  }

  lemma TransitionRefines(s: Store, h: Time, id: Id, c: Change, now: Time, stamp: Time, ok: bool, h': Time)
    requires Refines(s, h) && h <= h' && now <= h'
    ensures Refines(Transition(s, id, c, now, stamp, ok), h')
  {
    if id in s.byID {
      TransitionShape(s, id, c, now, stamp, ok);
      ExpireRefines(s, h, {id}, now, stamp, ok, h');
      var x := Expire(s, {id}, now, stamp, ok);
      if Apply(x.byID[id], c).Took? {
        ChangedKeeps(x.byID[id], c, stamp);
        CommitRefines(x, Changed(x.byID[id], c, stamp), h');
      }
    } else {
      RefinesLater(s, h, h');
    }
  }

  lemma NextRefines(w: World, e: Event, caps: Caps)
    requires Refines(w.store, w.horizon) && Enabled(w, e)
    ensures Refines(Next(w, e, caps).store, Next(w, e, caps).horizon)
  {
    var s, h := w.store, Next(w, e, caps).horizon;
    match e
    case CreateEvent(rec, _, stamp, _) =>
      CommitRefines(s, NewRecord(rec, stamp), h);
      RefinesLater(s, w.horizon, h);
    case ReadEvent(ids, now, stamp, ok) =>
      ExpireRefines(s, w.horizon, ids, now, stamp, ok, h);
    case ChangeEvent(id, c, now, stamp, ok) =>
      TransitionRefines(s, w.horizon, id, c, now, stamp, ok, h);
    case SweepEvent(now, stamp, later, ok, okPrune) =>
      ExpireRefines(s, w.horizon, s.byID.Keys, now, stamp, ok, h);
      PruneRefines(Expire(s, s.byID.Keys, now, stamp, ok), h, later, okPrune);
    case RestartEvent => OpenIsWellFormed(s.file);
  }

  lemma RefinesLater(s: Store, h: Time, h': Time)
    requires Refines(s, h) && h <= h'
    ensures Refines(s, h')
  {
    forall id ensures AgreesAt(s.byID, Loaded(s.file), id, h') {
      assert AgreesAt(s.byID, Loaded(s.file), id, h);
    }
  }

  lemma {:induction false} RunRefines(ws: seq<World>, es: seq<Event>, caps: Caps, k: nat)
    requires StoreRun(ws, es, caps) && k < |ws|
    ensures Refines(ws[k].store, ws[k].horizon)
  {
    if k > 0 {
      RunRefines(ws, es, caps, k - 1);
      assert Linked(ws[k - 1], es[k - 1], ws[k], caps);
      NextRefines(ws[k - 1], es[k - 1], caps);
    }
  }

  /** Crash refinement. At every point of every run, whatever writes failed and
      however the clock moved: every id memory holds is in the file, and at any
      time from the latest reading on, a read of memory and a read of a store
      reopened from the file report the same record. What only the file still
      holds (a prune whose write failed) reads as finished. */
  lemma CrashRefinement(ws: seq<World>, es: seq<Event>, caps: Caps, k: nat, id: Id, t: Time)
    requires StoreRun(ws, es, caps) && k < |ws| && t >= ws[k].horizon
    ensures var s := ws[k].store; var reopened := Open(s.file).byID;
      && (id in s.byID ==> id in reopened && Report(s.byID[id], t) == Report(reopened[id], t))
      && (id in reopened && id !in s.byID ==> Finished(Report(reopened[id], t).status))
  {
    RunRefines(ws, es, caps, k);
    assert AgreesAt(ws[k].store.byID, Loaded(ws[k].store.file), id, ws[k].horizon);
  }

  // ---------- failed writes ----------

  predicate WritesFail(e: Event) {
    match e
    case SweepEvent(_, _, _, ok, okPrune) => !ok && !okPrune
    case RestartEvent => false
    case _ => !e.ok
  }

  /** A request whose write fails changes nothing anybody can read: the file is
      untouched, no record appears, and every record memory keeps reports, from
      then on, what it would have reported anyway. Only finished records may
      leave memory, by a sweep. */
  lemma FailedWriteIsInvisible(w: World, e: Event, caps: Caps, id: Id, t: Time)
    requires WellFormed(w.store) && Enabled(w, e) && WritesFail(e)
    requires t >= Next(w, e, caps).horizon
    ensures var s := Next(w, e, caps).store;
      && s.file == w.store.file
      && (id in s.byID ==> id in w.store.byID && Report(s.byID[id], t) == Report(w.store.byID[id], t))
      && (id in w.store.byID && id !in s.byID ==> e.SweepEvent? && Finished(Report(w.store.byID[id], t).status))
  {
  }

  // ---------- the lifecycle, under a clock that does not go back ----------

  predicate ClockOk(h: Time, e: Event) {
    match e
    case SweepEvent(now, stamp, later, _, _) => h <= now <= stamp <= later
    case RestartEvent => true
    case _ => h <= e.now <= e.stamp
  }

  /** What a read reports moves only along the lifecycle, over every event,
      restarts after failed writes included. */
  lemma ReportMovesAlongLifecycle(w: World, e: Event, caps: Caps, id: Id)
    requires Refines(w.store, w.horizon) && Enabled(w, e) && ClockOk(w.horizon, e)
    requires id in w.store.byID && id in Next(w, e, caps).store.byID
    ensures var a, b := Report(w.store.byID[id], w.horizon).status,
                        Report(Next(w, e, caps).store.byID[id], Next(w, e, caps).horizon).status;
      a == b || CanGo(a, b)
  {
    var s := w.store;
    match e
    case ChangeEvent(other, c, now, stamp, ok) =>
      if other in s.byID { TransitionMoves(s, other, c, now, stamp, ok, w.horizon, id); }
    case RestartEvent => assert AgreesAt(s.byID, Loaded(s.file), id, w.horizon);
    case CreateEvent(rec, _, stamp, _) => assert Next(w, e, caps).store.byID[id] == s.byID[id];
    case ReadEvent(ids, now, stamp, ok) => ExpireMoves(s, ids, now, stamp, ok, w.horizon, id, stamp);
    case SweepEvent(now, stamp, later, ok, okPrune) =>
      ExpireMoves(s, s.byID.Keys, now, stamp, ok, w.horizon, id, later);
  }

  lemma ExpireMoves(s: Store, ids: set<Id>, now: Time, stamp: Time, ok: bool, h: Time, id: Id, h': Time)
    requires WellFormed(s) && id in s.byID && h <= now <= h'
    ensures var a, b := Report(s.byID[id], h).status, Report(Expire(s, ids, now, stamp, ok).byID[id], h').status;
      a == b || CanGo(a, b)
  {
  }

  lemma TransitionMoves(s: Store, other: Id, c: Change, now: Time, stamp: Time, ok: bool, h: Time, id: Id)
    requires WellFormed(s) && id in s.byID && other in s.byID && h <= now <= stamp
    ensures var t := Transition(s, other, c, now, stamp, ok);
      id in t.byID &&
      var a, b := Report(s.byID[id], h).status, Report(t.byID[id], stamp).status;
      a == b || CanGo(a, b)
  {
    TransitionShape(s, other, c, now, stamp, ok);
    ExpireMoves(s, {other}, now, stamp, ok, h, id, stamp);
  }

  predicate ReportsAt(m: Table, id: Id, h: Time, end: Record) {
    id in m ==> Report(m[id], h) == end
  }

  /** The store says `id` ended as `end`, in memory and in the file alike:
      whatever is reopened says the same. */
  ghost predicate EndedAs(s: Store, h: Time, id: Id, end: Record) {
    Finished(end.status) && ReportsAt(s.byID, id, h, end) && ReportsAt(Loaded(s.file), id, h, end)
  }

  lemma ExpireKeepsEnd(s: Store, h: Time, ids: set<Id>, now: Time, stamp: Time, ok: bool, h': Time, id: Id, end: Record)
    requires WellFormed(s) && EndedAs(s, h, id, end) && h <= now <= h'
    ensures EndedAs(Expire(s, ids, now, stamp, ok), h', id, end)
  {
    var e := Expire(s, ids, now, stamp, ok);
    ExpireWellFormed(s, ids, now, stamp, ok);
    if e.file != s.file { WholeWrite(e); }
  }

  lemma PruneKeepsEnd(s: Store, h: Time, later: Time, ok: bool, id: Id, end: Record)
    requires WellFormed(s) && EndedAs(s, h, id, end)
    ensures EndedAs(Prune(s, later, ok), h, id, end)
  {
    var e := Prune(s, later, ok);
    PruneWellFormed(s, later, ok);
    if e.file != s.file { WholeWrite(e); }
  }

  lemma CommitKeepsEnd(s: Store, r: Record, h: Time, h': Time, id: Id, end: Record)
    requires WellFormed(s) && EndedAs(s, h, id, end) && h <= h' && r.id != id && r.id != EMPTY
    ensures EndedAs(Commit(s, r), h', id, end)
  {
    CommitWellFormed(s, r);
  }

  lemma TransitionKeepsEnd(s: Store, h: Time, other: Id, c: Change, now: Time, stamp: Time, ok: bool,
                           h': Time, id: Id, end: Record)
    requires WellFormed(s) && EndedAs(s, h, id, end) && other in s.byID && h <= now <= h'
    ensures EndedAs(Transition(s, other, c, now, stamp, ok), h', id, end)
  {
    TransitionShape(s, other, c, now, stamp, ok);
    ExpireKeepsEnd(s, h, {other}, now, stamp, ok, h', id, end);
    var x := Expire(s, {other}, now, stamp, ok);
    if Transition(s, other, c, now, stamp, ok) != x {
      CommitKeepsEnd(x, Changed(x.byID[other], c, stamp), h', h', id, end);
    }
  }

  /** An expiry of nothing is no step at all. */
  lemma SameTable(s: Store, now: Time, stamp: Time)
    requires WellFormed(s)
    ensures Expire(s, {}, now, stamp, false) == s
  {
    assert ExpireTable(s.byID, {}, now, stamp) == s.byID;
  }

  lemma CreateKeepsEnd(w: World, rec: Record, caps: Caps, now: Time, stamp: Time, ok: bool, id: Id, end: Record)
    requires WellFormed(w.store) && Unused(w, rec.id) && w.horizon <= now <= stamp && rec.id != id
    requires EndedAs(w.store, w.horizon, id, end)
    ensures EndedAs(Create(w.store, rec, caps, now, stamp, ok), stamp, id, end)
  {
    CommitKeepsEnd(w.store, NewRecord(rec, stamp), w.horizon, stamp, id, end);
    ExpireKeepsEnd(w.store, w.horizon, {}, now, stamp, false, stamp, id, end);
    SameTable(w.store, now, stamp);
  }

  lemma NextKeepsEnd(w: World, e: Event, caps: Caps, id: Id, end: Record)
    requires WellFormed(w.store) && Enabled(w, e) && ClockOk(w.horizon, e)
    requires EndedAs(w.store, w.horizon, id, end)
    requires e.CreateEvent? ==> e.rec.id != id
    ensures EndedAs(Next(w, e, caps).store, Next(w, e, caps).horizon, id, end)
  {
    var s, h := w.store, Next(w, e, caps).horizon;
    match e
    case ReadEvent(ids, now, stamp, ok) => ExpireKeepsEnd(s, w.horizon, ids, now, stamp, ok, h, id, end);
    case SweepEvent(now, stamp, later, ok, okPrune) =>
      ExpireKeepsEnd(s, w.horizon, s.byID.Keys, now, stamp, ok, h, id, end);
      ExpireWellFormed(s, s.byID.Keys, now, stamp, ok);
      PruneKeepsEnd(Expire(s, s.byID.Keys, now, stamp, ok), h, later, okPrune, id, end);
    case ChangeEvent(other, c, now, stamp, ok) =>
      if other in s.byID {
        TransitionKeepsEnd(s, w.horizon, other, c, now, stamp, ok, h, id, end);
      }
    case CreateEvent(rec, now, stamp, ok) => CreateKeepsEnd(w, rec, caps, now, stamp, ok, id, end);
    case RestartEvent => OpenIsWellFormed(s.file);
  }

  ghost function CreatedIds(w: World): set<Id> {
    set r | r in w.created :: r.id
  }

  /** Every id held anywhere was created once in this run. */
  ghost predicate IdsCreated(w: World) {
    w.store.byID.Keys <= CreatedIds(w) && Loaded(w.store.file).Keys <= CreatedIds(w)
  }

  /** No event but a creation brings an id that neither memory nor the file held. */
  lemma NoNewKeys(s: Store, ids: set<Id>, now: Time, stamp: Time, ok: bool, later: Time, okPrune: bool)
    requires WellFormed(s)
    ensures var e := Expire(s, ids, now, stamp, ok); var p := Prune(e, later, okPrune);
      && WellFormed(e) && WellFormed(p)
      && e.byID.Keys == s.byID.Keys && Loaded(e.file).Keys <= s.byID.Keys + Loaded(s.file).Keys
      && p.byID.Keys <= s.byID.Keys && Loaded(p.file).Keys <= s.byID.Keys + Loaded(s.file).Keys
  {
    var e := Expire(s, ids, now, stamp, ok);
    ExpireWellFormed(s, ids, now, stamp, ok);
    if e.file != s.file { WholeWrite(e); }
    var p := Prune(e, later, okPrune);
    PruneWellFormed(e, later, okPrune);
    if p.file != e.file { WholeWrite(p); }
  }

  lemma TransitionKeys(s: Store, id: Id, c: Change, now: Time, stamp: Time, ok: bool)
    requires WellFormed(s)
    ensures var t := Transition(s, id, c, now, stamp, ok);
      t.byID.Keys == s.byID.Keys && Loaded(t.file).Keys <= s.byID.Keys + Loaded(s.file).Keys
  {
    if id in s.byID {
      NoNewKeys(s, {id}, now, stamp, ok, 0, false);
      TransitionShape(s, id, c, now, stamp, ok);
      var x := Expire(s, {id}, now, stamp, ok);
      if Apply(x.byID[id], c).Took? {
        ChangedKeeps(x.byID[id], c, stamp);
        CommitWellFormed(x, Changed(x.byID[id], c, stamp));
      }
    }
  }

  lemma NextIdsCreated(w: World, e: Event, caps: Caps)
    requires WellFormed(w.store) && Enabled(w, e) && IdsCreated(w)
    ensures IdsCreated(Next(w, e, caps))
  {
    var s, n := w.store, Next(w, e, caps);
    match e
    case SweepEvent(now, stamp, later, ok, okPrune) => NoNewKeys(s, s.byID.Keys, now, stamp, ok, later, okPrune);
    case ReadEvent(ids, now, stamp, ok) => NoNewKeys(s, ids, now, stamp, ok, 0, false);
    case CreateEvent(rec, _, stamp, _) =>
      var r := NewRecord(rec, stamp);
      CommitWellFormed(s, r);
      if n.store != s { assert n.created == w.created + [r] && r in n.created; }
      assert CreatedIds(w) <= CreatedIds(n);
    case ChangeEvent(id, c, now, stamp, ok) => TransitionKeys(s, id, c, now, stamp, ok);
    case RestartEvent =>
  }

  lemma {:induction false} RunIdsCreated(ws: seq<World>, es: seq<Event>, caps: Caps, k: nat)
    requires StoreRun(ws, es, caps) && k < |ws|
    ensures IdsCreated(ws[k])
  {
    if k > 0 {
      RunIdsCreated(ws, es, caps, k - 1);
      assert Linked(ws[k - 1], es[k - 1], ws[k], caps);
      NextIdsCreated(ws[k - 1], es[k - 1], caps);
    }
  }

  lemma {:induction false} CreatedGrows(ws: seq<World>, es: seq<Event>, caps: Caps, i: nat, j: nat, r: Record)
    requires StoreRun(ws, es, caps) && i <= j < |ws| && r in ws[i].created
    ensures r in ws[j].created
  {
    if i < j {
      assert Linked(ws[j - 1], es[j - 1], ws[j], caps);
      CreatedGrows(ws, es, caps, i, j - 1, r);
    }
  }

  /** An id that was ever held is never created again. */
  lemma NotCreatedAgain(ws: seq<World>, es: seq<Event>, caps: Caps, i: nat, k: nat, id: Id)
    requires StoreRun(ws, es, caps) && i <= k < |es| && id in ws[i].store.byID
    ensures es[k].CreateEvent? ==> es[k].rec.id != id
  {
    RunIdsCreated(ws, es, caps, i);
    assert id in CreatedIds(ws[i]);
    var r :| r in ws[i].created && r.id == id;
    CreatedGrows(ws, es, caps, i, k, r);
    assert Linked(ws[k], es[k], ws[k + 1], caps);
  }

  lemma EndsNow(ws: seq<World>, es: seq<Event>, caps: Caps, i: nat, id: Id)
    requires StoreRun(ws, es, caps) && i < |ws|
    requires id in ws[i].store.byID && Finished(Report(ws[i].store.byID[id], ws[i].horizon).status)
    ensures EndedAs(ws[i].store, ws[i].horizon, id, Report(ws[i].store.byID[id], ws[i].horizon))
  {
    RunRefines(ws, es, caps, i);
    assert AgreesAt(ws[i].store.byID, Loaded(ws[i].store.file), id, ws[i].horizon);
  }

  /** An answer is final. Once a read of a delegation would say it has ended,
      every later read says it ended the same way, with the same result and
      reason, through failed writes, sweeps and restarts, for as long as the
      record is kept, provided the clock does not go back. */
  lemma {:induction false} EndIsFinal(ws: seq<World>, es: seq<Event>, caps: Caps, i: nat, j: nat, id: Id)
    requires StoreRun(ws, es, caps) && i <= j < |ws|
    requires forall k :: i <= k < j ==> ClockOk(ws[k].horizon, es[k])
    requires id in ws[i].store.byID && Finished(Report(ws[i].store.byID[id], ws[i].horizon).status)
    ensures EndedAs(ws[j].store, ws[j].horizon, id, Report(ws[i].store.byID[id], ws[i].horizon))
  {
    if i == j {
      EndsNow(ws, es, caps, i, id);
    } else {
      assert Linked(ws[j - 1], es[j - 1], ws[j], caps);
      EndIsFinal(ws, es, caps, i, j - 1, id);
      NotCreatedAgain(ws, es, caps, i, j - 1, id);
      NextKeepsEnd(ws[j - 1], es[j - 1], caps, id, Report(ws[i].store.byID[id], ws[i].horizon));
    }
  }
}
