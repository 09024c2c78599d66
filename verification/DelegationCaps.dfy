// The rolling creation caps over whole runs: failed writes, sweeps that prune,
// and restarts cannot make room for a creation before its time.
module DelegationCaps {
  import opened Ids
  import opened Delegations
  import opened DelegationRuns

  /** The creation r still counts in table m, or is older than the retention. */
  predicate Counted(m: Table, r: Record, h: Time) {
    || (r.id in m && m[r.id].caller == r.caller && m[r.id].createdAt == r.createdAt)
    || r.createdAt + RETENTION <= h
  }

  predicate Timely(r: Record, h: Time) {
    r.createdAt % SECOND == 0 && r.createdAt <= h && r.createdAt <= r.updatedAt
  }

  ghost predicate TableOk(m: Table, created: seq<Record>, h: Time) {
    && (forall id :: id in m ==> Timely(m[id], h))
    && (forall r :: r in created ==> Counted(m, r, h))
  }

  /** The history: ids distinct, stamps in order and never in the future. */
  ghost predicate HistoryOk(created: seq<Record>, h: Time) {
    && (forall i, j :: 0 <= i < j < |created| ==>
          created[i].id != created[j].id && created[i].createdAt <= created[j].createdAt)
    && (forall r :: r in created ==> r.createdAt % SECOND == 0 && r.createdAt <= h)
  }

  ghost predicate CapsOk(w: World) {
    && WellFormed(w.store)
    && HistoryOk(w.created, w.horizon)
    && TableOk(w.store.byID, w.created, w.horizon)
    && TableOk(Loaded(w.store.file), w.created, w.horizon)
  }

  ghost predicate StoreOk(s: Store, created: seq<Record>, h: Time) {
    WellFormed(s) && TableOk(s.byID, created, h) && TableOk(Loaded(s.file), created, h)
  }

  lemma ExpiredTableOk(m: Table, created: seq<Record>, h: Time, ids: set<Id>, now: Time, stamp: Time, h': Time)
    requires TableOk(m, created, h) && h <= now <= stamp <= h'
    ensures TableOk(ExpireTable(m, ids, now, stamp), created, h')
  {
    var e := ExpireTable(m, ids, now, stamp);
    forall id | id in e ensures Timely(e[id], h') {
      assert Timely(m[id], h);
      TruncateKeeps(m[id].createdAt, stamp);
    }
    forall r | r in created ensures Counted(e, r, h') {
      assert Counted(m, r, h);
    }
  }

  lemma ExpireCounts(s: Store, created: seq<Record>, h: Time, ids: set<Id>, now: Time, stamp: Time, ok: bool, h': Time)
    requires StoreOk(s, created, h) && h <= now <= stamp <= h'
    ensures StoreOk(Expire(s, ids, now, stamp, ok), created, h')
  {
    var e := Expire(s, ids, now, stamp, ok);
    ExpireWellFormed(s, ids, now, stamp, ok);
    ExpiredTableOk(s.byID, created, h, ids, now, stamp, h');
    if e.file != s.file { WholeWrite(e); }
    assert TableOk(Loaded(s.file), created, h');
  }

  lemma PruneCounts(s: Store, created: seq<Record>, h: Time, later: Time, ok: bool)
    requires StoreOk(s, created, h) && later <= h
    ensures StoreOk(Prune(s, later, ok), created, h)
  {
    var e := Prune(s, later, ok);
    PruneWellFormed(s, later, ok);
    forall r | r in created ensures Counted(e.byID, r, h) {
      assert Counted(s.byID, r, h);
      if r.id in s.byID { assert Timely(s.byID[r.id], h); }
    }
    if e.file != s.file { WholeWrite(e); }
  }

  lemma CommitCounts(s: Store, created: seq<Record>, h: Time, r: Record)
    requires StoreOk(s, created, h) && r.id != EMPTY && Timely(r, h)
    requires r.id in s.byID ==> r.caller == s.byID[r.id].caller && r.createdAt == s.byID[r.id].createdAt
    ensures StoreOk(Commit(s, r), created, h)
  {
    var n := Commit(s, r);
    CommitWellFormed(s, r);
    forall c | c in created ensures Counted(n.byID, c, h) {
      assert Counted(s.byID, c, h);
    }
  }

  lemma TransitionCounts(s: Store, created: seq<Record>, h: Time, id: Id, c: Change, now: Time, stamp: Time, ok: bool)
    requires StoreOk(s, created, h) && h <= now <= stamp
    ensures StoreOk(Transition(s, id, c, now, stamp, ok), created, stamp)
  {
    if id in s.byID {
      TransitionShape(s, id, c, now, stamp, ok);
      ExpireCounts(s, created, h, {id}, now, stamp, ok, stamp);
      var x := Expire(s, {id}, now, stamp, ok);
      if Transition(s, id, c, now, stamp, ok) != x {
        ChangedKeeps(x.byID[id], c, stamp);
        assert Timely(s.byID[id], h);
        TruncateKeeps(s.byID[id].createdAt, stamp);
        CommitCounts(x, created, stamp, Changed(x.byID[id], c, stamp));
      }
    } else {
      ExpireCounts(s, created, h, {}, now, stamp, false, stamp);
      SameTable(s, now, stamp);
    }
  }

  lemma CreateCounts(w: World, rec: Record, now: Time, stamp: Time)
    requires CapsOk(w) && Unused(w, rec.id) && w.horizon <= now <= stamp
    ensures var r := NewRecord(rec, stamp);
      && StoreOk(Commit(w.store, r), w.created + [r], stamp)
      && HistoryOk(w.created + [r], stamp)
  {
    var s, r := w.store, NewRecord(rec, stamp);
    ExpireCounts(s, w.created, w.horizon, {}, now, stamp, false, stamp);
    SameTable(s, now, stamp);
    CommitCounts(s, w.created, stamp, r);
    CommitWellFormed(s, r);
    CreateHistory(w.created, w.horizon, r, stamp);
  }

  lemma CreateHistory(created: seq<Record>, h: Time, r: Record, h': Time)
    requires HistoryOk(created, h) && h <= h' && h <= r.createdAt + SECOND
    requires forall c :: c in created ==> c.id != r.id
    requires r.createdAt % SECOND == 0 && r.createdAt <= h' < r.createdAt + SECOND
    ensures HistoryOk(created + [r], h')
  {
    var n := created + [r];
    forall c | c in created ensures c.createdAt <= r.createdAt { TruncateKeeps(c.createdAt, h'); }
    forall i, j | 0 <= i < j < |n| ensures n[i].id != n[j].id && n[i].createdAt <= n[j].createdAt {
      if j == |created| { assert created[i] in created; }
    }
  }

  lemma NextCapsOk(w: World, e: Event, caps: Caps)
    requires CapsOk(w) && Enabled(w, e) && ClockOk(w.horizon, e)
    ensures CapsOk(Next(w, e, caps))
  {
    var s, h := w.store, Next(w, e, caps).horizon;
    match e
    case CreateEvent(rec, now, stamp, ok) =>
      CreateCounts(w, rec, now, stamp);
      ExpireCounts(s, w.created, w.horizon, {}, now, stamp, false, h);
      SameTable(s, now, stamp);
    case ReadEvent(ids, now, stamp, ok) => ExpireCounts(s, w.created, w.horizon, ids, now, stamp, ok, h);
    case ChangeEvent(id, c, now, stamp, ok) => TransitionCounts(s, w.created, w.horizon, id, c, now, stamp, ok);
    case SweepEvent(now, stamp, later, ok, okPrune) =>
      ExpireCounts(s, w.created, w.horizon, s.byID.Keys, now, stamp, ok, h);
      PruneCounts(Expire(s, s.byID.Keys, now, stamp, ok), w.created, h, later, okPrune);
    case RestartEvent => OpenIsWellFormed(s.file);
  }

  // ---------- counting ----------

  /** How many of these creations were for one Caller. */
  function CountFor(rs: seq<Record>, caller: Text): nat {
    if rs == [] then 0
    else CountFor(rs[..|rs| - 1], caller) + if rs[|rs| - 1].caller == caller then 1 else 0
  }

  function IdsFor(rs: seq<Record>, caller: Text): set<Id> {
    if rs == [] then {}
    else IdsFor(rs[..|rs| - 1], caller) + if rs[|rs| - 1].caller == caller then {rs[|rs| - 1].id} else {}
  }

  /** Distinct creations that are all in a set are at most its size. */
  lemma {:induction false} CountedIn(rs: seq<Record>, caller: Text, ids: set<Id>)
    requires forall i, j :: 0 <= i < j < |rs| ==> rs[i].id != rs[j].id
    requires forall r :: r in rs && r.caller == caller ==> r.id in ids
    ensures IdsFor(rs, caller) <= ids && CountFor(rs, caller) == |IdsFor(rs, caller)|
    ensures forall id :: id in IdsFor(rs, caller) ==> exists i :: 0 <= i < |rs| && rs[i].id == id
  {
    if rs != [] {
      var n := |rs| - 1;
      CountedIn(rs[..n], caller, ids);
      assert rs[n].id !in IdsFor(rs[..n], caller);
    }
  }

  lemma SubsetCard(a: set<Id>, b: set<Id>)
    requires a <= b
    ensures |a| <= |b|
  {
    if a != {} {
      var x :| x in a;
      SubsetCard(a - {x}, b - {x});
    }
  }

  /** Everything created since a recent creation is still in memory, so the
      window counts all of it. */
  lemma AllRecent(w: World, i: nat, caller: Text, since: Time)
    requires CapsOk(w) && i < |w.created| && w.created[i].createdAt > since > w.horizon - RETENTION
    ensures CountFor(w.created[i..], caller) <= |CreatedAfter(w.store.byID, caller, since)|
  {
    var recent, all := w.created[i..], CreatedAfter(w.store.byID, caller, since);
    forall r | r in recent && r.caller == caller ensures r.id in all {
      var k :| 0 <= k < |recent| && recent[k] == r;
      assert recent[k] == w.created[i + k];
      assert Counted(w.store.byID, r, w.horizon);
    }
    CountedIn(recent, caller, all);
    SubsetCard(IdsFor(recent, caller), all);
  }

  /** A creation that got past the check came a whole window after the one
      `limit` creations before it, in recorded (whole-second) stamps. */
  lemma SpacedAtCreation(w: World, rec: Record, now: Time, stamp: Time, i: nat, window: Time, limit: int)
    requires CapsOk(w) && w.horizon <= now <= stamp
    requires i < |w.created| && 0 < limit <= CountFor(w.created[i..], rec.caller)
    requires window % SECOND == 0 && 0 < window < RETENTION
    requires !Full(w.store.byID, rec.caller, now, window, limit)
    ensures w.created[i].createdAt + window <= Truncate(stamp)
  {
    WholeStamp(w, i);
    hide CapsOk, CountFor, CreatedAfter;
    var since := now - window;
    if w.created[i].createdAt > since {
      AllRecent(w, i, rec.caller, since);
    } else {
      WholeBelow(w.created[i].createdAt, window, stamp);
    }
  }

  lemma WholeStamp(w: World, i: nat)
    requires CapsOk(w) && i < |w.created|
    ensures w.created[i].createdAt % SECOND == 0 && w.created[i].createdAt <= w.horizon
  {
  }

  lemma WholeBelow(c: Time, window: Time, stamp: Time)
    requires c % SECOND == 0 && window % SECOND == 0 && c + window <= stamp
    ensures c + window <= Truncate(stamp)
  {
    TruncateKeeps(c + window, stamp);
  }

  /** Any two creations for one Caller with `limit` creations for it from the
      first up to the second are recorded at least `window` apart. */
  ghost predicate Spaced(created: seq<Record>, window: Time, limit: int) {
    forall i, j :: 0 <= i < j < |created| && limit > 0 && CountFor(created[i..j], created[j].caller) >= limit
                   ==> created[i].createdAt + window <= created[j].createdAt
  }

  lemma SpacedCreate(w: World, rec: Record, now: Time, stamp: Time, window: Time, limit: int)
    requires CapsOk(w) && w.horizon <= now <= stamp
    requires window == HOUR || window == DAY
    requires !Full(w.store.byID, rec.caller, now, window, limit)
    requires Spaced(w.created, window, limit)
    ensures Spaced(w.created + [NewRecord(rec, stamp)], window, limit)
  {
    var r := NewRecord(rec, stamp);
    forall i | 0 <= i < |w.created| && limit > 0 && CountFor(w.created[i..], r.caller) >= limit
      ensures w.created[i].createdAt + window <= r.createdAt
    {
      SpacedAtCreation(w, rec, now, stamp, i, window, limit);
    }
    SpacedAppend(w.created, r, window, limit);
  }

  lemma NextSpaced(w: World, e: Event, caps: Caps)
    requires CapsOk(w) && Enabled(w, e) && ClockOk(w.horizon, e)
    requires Spaced(w.created, HOUR, caps.perHour) && Spaced(w.created, DAY, caps.perDay)
    ensures var c := Next(w, e, caps).created; Spaced(c, HOUR, caps.perHour) && Spaced(c, DAY, caps.perDay)
  {
    if e.CreateEvent? && !Capped(w.store.byID, e.rec.caller, e.now, caps) {
      SpacedCreate(w, e.rec, e.now, e.stamp, HOUR, caps.perHour);
      SpacedCreate(w, e.rec, e.now, e.stamp, DAY, caps.perDay);
    }
  }

  lemma SpacedAppend(created: seq<Record>, r: Record, window: Time, limit: int)
    requires Spaced(created, window, limit)
    requires forall i :: 0 <= i < |created| && limit > 0 && CountFor(created[i..], r.caller) >= limit
                         ==> created[i].createdAt + window <= r.createdAt
    ensures Spaced(created + [r], window, limit)
  {
    var c := created + [r];
    forall i, j | 0 <= i < j < |c| && limit > 0 && CountFor(c[i..j], c[j].caller) >= limit
      ensures c[i].createdAt + window <= c[j].createdAt
    {
      if j < |created| {
        assert c[i..j] == created[i..j];
      } else {
        assert c[i..j] == created[i..];
      }
    }
  }

  /** The caps hold over every run under a clock that does not go back:
      limit + 1 successive creations for one Caller span at least the window,
      whatever writes failed, records were pruned, or restarts came between. */
  lemma {:induction false} CapsHoldOverRuns(ws: seq<World>, es: seq<Event>, caps: Caps, n: nat)
    requires StoreRun(ws, es, caps) && n < |ws|
    requires forall k :: 0 <= k < n ==> ClockOk(ws[k].horizon, es[k])
    ensures CapsOk(ws[n])
    ensures Spaced(ws[n].created, HOUR, caps.perHour)
    ensures Spaced(ws[n].created, DAY, caps.perDay)
  {
    if n > 0 {
      CapsHoldOverRuns(ws, es, caps, n - 1);
      assert Linked(ws[n - 1], es[n - 1], ws[n], caps);
      NextCapsOk(ws[n - 1], es[n - 1], caps);
      NextSpaced(ws[n - 1], es[n - 1], caps);
    }
  }

  /** In real time, then: two creations recorded a window apart were made more than
      the window less one second apart. */
  lemma MadeApart(first: Time, second: Time, window: Time)
    requires Truncate(first) + window <= Truncate(second)
    ensures second - first > window - SECOND
  {
  }
}
