// DelegationStore (agent-api/delegation.go) as it is written: a map of entries,
// an order slice filtered in place, and loops under one lock. Every method is
// one lock-held region and is proved to take the step of module Delegations, to
// write before it commits, and to wake exactly the waiters whose record moved.
// The numbered channels stand for the entries' `changed` channels: `closed` are
// the ones shut so far and `owners` says whose each one was made for, which is
// what a waiter's snapshot is compared with. Whether a write lands is an input
// of each method (`ok`), and so are the clock readings it takes, in order.
module DelegationStores {
  import opened Ids
  import opened Options
  import opened Wakeups
  import opened Delegations
  import opened DelegationRuns
  import opened CapWindows

  datatype Entry = Entry(rec: Record, changed: nat)

  type Entries = map<Id, Entry>

  ghost function Recs(m: Entries): Table {
    map id | id in m :: m[id].rec
  }

  ghost function BoardOf(m: Entries, closed: set<nat>, owners: seq<Id>): Board<Status> {
    Board(map id | id in m :: Slot(m[id].rec.status, m[id].changed), closed, owners)
  }

  /** Order and table agree, and every channel held is open and its entry's own. */
  ghost predicate Ok(order: seq<Id>, m: Entries, closed: set<nat>, owners: seq<Id>) {
    && WellFormed(Store(order, Recs(m), []))
    && Sound(BoardOf(m, closed, owners)) && Made(BoardOf(m, closed, owners))
  }

  /** One region wakes exactly who it should, and an entry it drops has finished or
      had its waiters woken. */
  ghost predicate WaitersSafe(before: Board<Status>, after: Board<Status>) {
    Wakes(before, after) && Leaves(before, after, Finished)
  }

  /** Over any run of this store's regions, prunes included: a waiter whose snapshot
      had not ended, still blocked on the channel it took with it, waits on an
      entry that is there and has not moved. */
  lemma NoWaiterLeft(boards: seq<Board<Status>>, id: Id)
    requires boards != [] && forall k :: 0 <= k < |boards| ==> Sound(boards[k])
    requires forall k :: 0 < k < |boards| ==> WaitersSafe(boards[k - 1], boards[k])
    requires id in boards[0].slots && !Finished(boards[0].slots[id].status)
    requires boards[0].slots[id].changed !in boards[|boards| - 1].closed
    ensures forall k :: 0 <= k < |boards| ==> id in boards[k].slots && boards[k].slots[id] == boards[0].slots[id]
  {
    assert BoardRun(boards, Finished);
    NoLostWakeup(boards, id, Finished);
  }

  lemma StaySafe(b: Board<Status>)
    ensures WaitersSafe(b, b)
  {
  }

  lemma NamedAs(order: seq<Id>, m: Entries, closed: set<nat>, owners: seq<Id>, id: Id)
    requires Ok(order, m, closed, owners) && id in m
    ensures m[id].rec.id == id && id != EMPTY
    ensures m[id].changed !in closed
  {
    assert Recs(m)[id].id == id;
    assert BoardOf(m, closed, owners).slots[id].changed !in closed;
  }

  lemma KeysAre(order: seq<Id>, m: Entries, closed: set<nat>, owners: seq<Id>, file: seq<Record>)
    requires Ok(order, m, closed, owners)
    ensures WellFormed(Store(order, Recs(m), file))
    ensures IdSet(order) == m.Keys == Recs(m).Keys
  {
    assert m.Keys == Recs(m).Keys;
  }

  /** The table and the board follow one updated entry. */
  lemma Updated(m: Entries, closed: set<nat>, owners: seq<Id>, id: Id, e: Entry)
    ensures Recs(m[id := e]) == Recs(m)[id := e.rec]
    ensures BoardOf(m[id := e], closed, owners).slots
         == BoardOf(m, closed, owners).slots[id := Slot(e.rec.status, e.changed)]
  {
  }

  /** A changed record in place of the old one: the old channel closes and a
      fresh one takes its place. */
  lemma MoveOk(order: seq<Id>, m: Entries, closed: set<nat>, owners: seq<Id>, rec: Record)
    requires Ok(order, m, closed, owners) && rec.id in m
    ensures var n := m[rec.id := Entry(rec, |owners|)];
      var shut, given := closed + {m[rec.id].changed}, owners + [rec.id];
      && Recs(n) == Recs(m)[rec.id := rec]
      && Ok(order, n, shut, given)
      && (rec.status != m[rec.id].rec.status ==> WaitersSafe(BoardOf(m, closed, owners), BoardOf(n, shut, given)))
  {
    var b := BoardOf(m, closed, owners);
    var n := m[rec.id := Entry(rec, |owners|)];
    Updated(m, closed, owners, rec.id, Entry(rec, |owners|));
    SignalSound(b, rec.id, rec.status);
    assert BoardOf(n, closed + {m[rec.id].changed}, owners + [rec.id]) == Signal(b, rec.id, rec.status);
    var s := Store(order, Recs(m), []);
    assert s.byID[rec.id := rec].Keys == s.byID.Keys;
  }

  /** A new record at the end of the order, with a channel of its own. */
  lemma JoinOk(order: seq<Id>, m: Entries, closed: set<nat>, owners: seq<Id>, r: Record)
    requires Ok(order, m, closed, owners) && r.id !in m && r.id != EMPTY
    ensures var n := m[r.id := Entry(r, |owners|)];
      && Recs(n) == Recs(m)[r.id := r]
      && Ok(order + [r.id], n, closed, owners + [r.id])
      && WaitersSafe(BoardOf(m, closed, owners), BoardOf(n, closed, owners + [r.id]))
  {
    hide Distinct, IdSet;
    var b := BoardOf(m, closed, owners);
    var n := m[r.id := Entry(r, |owners|)];
    Updated(m, closed, owners, r.id, Entry(r, |owners|));
    JoinSound(b, r.id, r.status);
    assert BoardOf(n, closed, owners + [r.id]) == Join(b, r.id, r.status);
    Append(order, r.id);
    assert Recs(n).Keys == Recs(m).Keys + {r.id};
  }

  // ---------- expiry, entry by entry ----------

  /** Entries, closed channels and channels given out. */
  datatype Hub = Hub(m: Entries, closed: set<nat>, owners: seq<Id>)

  /** The hub after expiring a list one by one. */
  ghost function Steps(h: Hub, due: seq<Id>, now: Time, stamp: Time): (r: Hub)
    requires IdSet(due) <= h.m.Keys
    ensures r.m.Keys == h.m.Keys
  {
    if due == [] then h else
    var last := due[|due| - 1];
    var p := Steps(h, due[..|due| - 1], now, stamp);
    Hub(p.m[last := Entry(ExpireRecord(p.m[last].rec, now, stamp), |p.owners|)],
        p.closed + {p.m[last].changed}, p.owners + [last])
  }

  /** Entries after an expiry of `due`: those records expired onto fresh
      channels, and the rest as they were. */
  ghost predicate AfterExpiry(was: Hub, now: Time, stamp: Time, due: set<Id>, h: Hub) {
    && h.m.Keys == was.m.Keys && |was.owners| <= |h.owners|
    && was.closed <= h.closed
    && (forall id :: id in was.m && id !in due ==> h.m[id] == was.m[id])
    && (forall id :: id in was.m && id in due ==>
          && h.m[id].rec == ExpireRecord(was.m[id].rec, now, stamp) && h.m[id].changed >= |was.owners|
          && was.m[id].changed in h.closed)
  }

  lemma {:induction false} StepsExpire(h: Hub, due: seq<Id>, now: Time, stamp: Time)
    requires Distinct(due) && IdSet(due) <= h.m.Keys && Sound(BoardOf(h.m, h.closed, h.owners))
    ensures AfterExpiry(h, now, stamp, IdSet(due), Steps(h, due, now, stamp))
  {
    if due != [] {
      var init, id := due[..|due| - 1], due[|due| - 1];
      StepsExpire(h, init, now, stamp);
      var b := BoardOf(h.m, h.closed, h.owners);
      assert b.slots[id].changed == h.m[id].changed;
    }
  }

  lemma ExpiryTable(was: Hub, h: Hub, ids: set<Id>, due: set<Id>, now: Time, stamp: Time)
    requires AfterExpiry(was, now, stamp, due, h) && ids <= was.m.Keys
    requires due == set id | id in ids && Overdue(was.m[id].rec, now)
    ensures Recs(h.m) == ExpireTable(Recs(was.m), ids, now, stamp)
    ensures AnyOverdue(Recs(was.m), ids, now) <==> due != {}
  {
    var m, e := Recs(h.m), ExpireTable(Recs(was.m), ids, now, stamp);
    assert forall id :: id in was.m ==> m[id] == e[id];
    if due != {} {
      var id :| id in due;
      assert Overdue(Recs(was.m)[id], now);
    }
  }

  lemma ExpiryWakes(was: Hub, h: Hub, due: set<Id>, now: Time, stamp: Time)
    requires Sound(BoardOf(was.m, was.closed, was.owners))
    requires AfterExpiry(was, now, stamp, due, h)
    requires forall id :: id in due ==> id in was.m && Overdue(was.m[id].rec, now)
    ensures WaitersSafe(BoardOf(was.m, was.closed, was.owners), BoardOf(h.m, h.closed, h.owners))
  {
    var b, c := BoardOf(was.m, was.closed, was.owners), BoardOf(h.m, h.closed, h.owners);
    forall id | id in was.m
      ensures b.slots[id].status == c.slots[id].status <==> id !in due
      ensures b.slots[id].changed == c.slots[id].changed <==> id !in due
    {
      assert b.slots[id].changed < |was.owners|;
    }
  }

  /** The first loop of expireLocked: the given entries past their time. */
  method Overdues(m: Entries, ids: seq<Id>, now: Time) returns (due: seq<Id>)
    requires Distinct(ids) && IdSet(ids) <= m.Keys
    ensures Distinct(due)
    ensures IdSet(due) == set id | id in IdSet(ids) && Overdue(m[id].rec, now)
  {
    due := [];
    var i := 0;
    while i < |ids|
      invariant 0 <= i <= |ids| && Distinct(due)
      invariant IdSet(ids[..i]) <= m.Keys
      invariant IdSet(due) == set id | id in IdSet(ids[..i]) && Overdue(m[id].rec, now)
    {
      var id := ids[i];
      assert ids[..i + 1][..i] == ids[..i];
      Prefix(ids, i);
      InIdSet(ids, i);
      if Overdue(m[id].rec, now) {
        Append(due, id);
        due := due + [id];
      }
      i := i + 1;
    }
    assert ids[..i] == ids;
  }

  // ---------- reading, writing, pruning ----------

  /** `out` is what stands at the places `at` of the order: those of the kept
      records, the newest first, and all of them or the newest `limit`. */
  ghost predicate NewestKept(order: seq<Id>, m: Entries, keep: Record -> bool, limit: int,
                             out: seq<Record>, at: seq<nat>)
  {
    && |at| == |out| && (limit > 0 ==> |out| <= limit)
    && (forall k :: 0 < k < |at| ==> at[k] < at[k - 1])
    && (forall k :: 0 <= k < |at| ==> Stands(order, m, at[k], out[k]) && keep(out[k]))
    && (forall i, r :: Stands(order, m, i, r) && keep(r) && i !in at ==>
          limit > 0 && |out| == limit && forall k :: 0 <= k < |at| ==> i < at[k])
  }

  predicate Stands(order: seq<Id>, m: Entries, i: nat, r: Record) {
    i < |order| && order[i] in m && m[order[i]].rec == r
  }

  /** transition's edit of what is about to be written. */
  method Replaced(recs: seq<Record>, next: Record) returns (out: seq<Record>)
    ensures |out| == |recs|
    ensures forall i :: 0 <= i < |recs| ==> out[i] == if recs[i].id == next.id then next else recs[i]
  {
    out := recs;
    for i := 0 to |out|
      invariant |out| == |recs|
      invariant forall k :: 0 <= k < i ==> out[k] == if recs[k].id == next.id then next else recs[k]
      invariant forall k :: i <= k < |recs| ==> out[k] == recs[k]
    {
      if out[i].id == next.id { out := out[i := next]; }
    }
  }

  lemma {:induction false} ListingReplaced(order: seq<Id>, m: Table, next: Record, out: seq<Record>)
    requires IdSet(order) <= m.Keys && next.id in m
    requires forall id :: id in m ==> m[id].id == id
    requires var recs := Listing(order, m);
      |out| == |recs| && forall i :: 0 <= i < |recs| ==> out[i] == if recs[i].id == next.id then next else recs[i]
    ensures out == Listing(order, m[next.id := next])
  {
    if order != [] {
      var n := |order| - 1;
      var init := Listing(order[..n], m);
      assert Listing(order, m) == init + [m[order[n]]];
      ListingLength(order[..n], m);
      ListingReplaced(order[..n], m, next, out[..n]);
      assert out == out[..n] + [out[n]];
    }
  }

  lemma {:induction false} ListingLength(order: seq<Id>, m: Table)
    requires IdSet(order) <= m.Keys
    ensures |Listing(order, m)| == |order|
  {
    if order != [] { ListingLength(order[..|order| - 1], m); }
  }

  /** Memory while Sweep has gone through an order. */
  ghost function Dropped(m: Entries, order: seq<Id>, later: Time): Entries
    requires IdSet(order) <= m.Keys
  {
    if order == [] then m else
    var left, id := Dropped(m, order[..|order| - 1], later), order[|order| - 1];
    if Prunable(m[id].rec, later) then left - {id} else left
  }

  /** Entries after a prune: kept ones unchanged. */
  ghost function Remaining(m: Entries, later: Time): Entries {
    map id | id in m && !Prunable(m[id].rec, later) :: m[id]
  }

  lemma {:induction false} DroppedIs(m: Entries, order: seq<Id>, later: Time)
    requires IdSet(order) <= m.Keys
    ensures var left := Dropped(m, order, later);
      && (forall id :: id in left <==> id in m && !(id in IdSet(order) && Prunable(m[id].rec, later)))
      && (forall id :: id in left ==> left[id] == m[id])
  {
    if order != [] { DroppedIs(m, order[..|order| - 1], later); }
  }

  lemma RemainingIs(order: seq<Id>, m: Entries, closed: set<nat>, owners: seq<Id>, later: Time,
                    file: seq<Record>, ok: bool)
    requires Ok(order, m, closed, owners)
    ensures WellFormed(Store(order, Recs(m), file))
    ensures var p := Prune(Store(order, Recs(m), file), later, ok); var n := Recs(Remaining(m, later));
      && p.byID == n && p.order == Kept(order, Recs(m), later) && IdSet(p.order) == n.Keys
      && p.file == if |p.order| < |order| && ok then Listing(p.order, n) else file
  {
    var s := Store(order, Recs(m), file);
    PruneWellFormed(s, later, ok);
    assert Prune(s, later, ok).byID == Recs(Remaining(m, later));
  }

  lemma RemainingOk(order: seq<Id>, m: Entries, closed: set<nat>, owners: seq<Id>, later: Time)
    requires Ok(order, m, closed, owners)
    ensures IdSet(order) <= Recs(m).Keys
    ensures var n := Remaining(m, later);
      && Ok(Kept(order, Recs(m), later), n, closed, owners)
      && WaitersSafe(BoardOf(m, closed, owners), BoardOf(n, closed, owners))
  {
    RemainingIs(order, m, closed, owners, later, [], false);
    PruneWellFormed(Store(order, Recs(m), []), later, false);
    DropsSound(BoardOf(m, closed, owners), BoardOf(Remaining(m, later), closed, owners));
  }

  /** What the filter does with one entry. */
  lemma FilterNext(m: Entries, order: seq<Id>, later: Time, i: nat)
    requires i < |order| && IdSet(order) <= m.Keys == Recs(m).Keys
    ensures order[i] in m && IdSet(order[..i]) <= m.Keys && IdSet(order[..i + 1]) <= m.Keys
    ensures var kept, left := Kept(order[..i], Recs(m), later), Dropped(m, order[..i], later);
      if Prunable(m[order[i]].rec, later)
      then Kept(order[..i + 1], Recs(m), later) == kept && Dropped(m, order[..i + 1], later) == left - {order[i]}
      else Kept(order[..i + 1], Recs(m), later) == kept + [order[i]] && Dropped(m, order[..i + 1], later) == left
  {
    assert order[..i + 1][..i] == order[..i];
    InIdSet(order, i);
    Prefix(order, i);
    Prefix(order, i + 1);
  }

  lemma FilterEnds(m: Entries, order: seq<Id>, later: Time)
    requires IdSet(order) == m.Keys == Recs(m).Keys
    ensures IdSet(order[..0]) <= m.Keys && Kept(order[..0], Recs(m), later) == [] && Dropped(m, order[..0], later) == m
    ensures order[..|order|] == order && Dropped(m, order, later) == Remaining(m, later)
  {
    DroppedIs(m, order, later);
  }

  /** The in-place filter of Sweep. */
  method Filter(m: Entries, order: seq<Id>, later: Time) returns (kept: seq<Id>, left: Entries, pruned: nat)
    requires Distinct(order) && IdSet(order) == m.Keys == Recs(m).Keys
    ensures kept == Kept(order, Recs(m), later) && |kept| + pruned == |order|
    ensures left == Remaining(m, later)
  {
    hide Distinct, IdSet, Kept, Dropped, Remaining, Recs;
    FilterEnds(m, order, later);
    kept, left, pruned := [], m, 0;
    var i := 0;
    while i < |order|
      invariant 0 <= i <= |order| && IdSet(order[..i]) <= m.Keys
      invariant kept == Kept(order[..i], Recs(m), later) && |kept| + pruned == i
      invariant left == Dropped(m, order[..i], later)
    {
      FilterNext(m, order, later, i);
      var id := order[i];
      if Prunable(m[id].rec, later) {
        left := left - {id};
        pruned := pruned + 1;
      } else {
        kept := kept + [id];
      }
      i := i + 1;
    }
  }

  /** The loop of checkCapsLocked over the entries in order. */
  method Times(m: Entries, order: seq<Id>, caller: Text, since: Time) returns (times: seq<Time>)
    requires IdSet(order) <= m.Keys == Recs(m).Keys
    ensures times == TimesOf(order, Recs(m), caller, since)
  {
    times := [];
    var i := 0;
    while i < |order|
      invariant 0 <= i <= |order| && IdSet(order[..i]) <= m.Keys
      invariant times == TimesOf(order[..i], Recs(m), caller, since)
    {
      assert order[..i + 1][..i] == order[..i];
      InIdSet(order, i);
      var r := m[order[i]].rec;
      if r.caller == caller && r.createdAt > since { times := times + [r.createdAt]; }
      i := i + 1;
    }
    assert order[..i] == order;
  }

  /** Memory while the first records of the file have been read in. */
  ghost predicate Opening(saved: seq<Record>, order: seq<Id>, m: Entries, closed: set<nat>, owners: seq<Id>) {
    Ok(order, m, closed, owners) && order == LoadedOrder(saved) && Recs(m) == Loaded(saved)
  }

  lemma OpenStep(saved: seq<Record>, rec: Record, order: seq<Id>, m: Entries, closed: set<nat>, owners: seq<Id>)
    requires Opening(saved, order, m, closed, owners)
    ensures
      if rec.id != EMPTY && rec.id !in m then
        Opening(saved + [rec], order + [rec.id], m[rec.id := Entry(rec, |owners|)], closed, owners + [rec.id])
      else
        Opening(saved + [rec], order, m, closed, owners)
  {
    assert (saved + [rec])[..|saved|] == saved;
    assert m.Keys == Recs(m).Keys;
    if rec.id != EMPTY && rec.id !in m { JoinOk(order, m, closed, owners, rec); }
  }

  lemma OpeningNone()
    ensures Opening([], [], map[], {}, [])
  {
  }

  /** OpenDelegationStore's loop over the records of the file. */
  method ReadIn(saved: seq<Record>) returns (order: seq<Id>, m: Entries, owners: seq<Id>)
    ensures Opening(saved, order, m, {}, owners)
  {
    hide Opening;
    order, m, owners := [], map[], [];
    OpeningNone();
    assert saved[..0] == [];
    var i := 0;
    while i < |saved|
      invariant 0 <= i <= |saved| && Opening(saved[..i], order, m, {}, owners)
    {
      var rec := saved[i];
      OpenStep(saved[..i], rec, order, m, {}, owners);
      assert saved[..i + 1] == saved[..i] + [rec];
      if rec.id != EMPTY && rec.id !in m {
        m := m[rec.id := Entry(rec, |owners|)];
        owners := owners + [rec.id];
        order := order + [rec.id];
      }
      i := i + 1;
    }
    assert saved[..i] == saved;
  }

  /** The same, with the order gone through down to place i. */
  ghost predicate NewestSince(order: seq<Id>, m: Entries, keep: Record -> bool, i: nat,
                              out: seq<Record>, at: seq<nat>)
  {
    && |at| == |out|
    && (forall k :: 0 < k < |at| ==> at[k] < at[k - 1])
    && (forall k :: 0 <= k < |at| ==> i <= at[k] && Stands(order, m, at[k], out[k]) && keep(out[k]))
    && (forall j, r :: i <= j && Stands(order, m, j, r) && keep(r) ==> j in at)
  }

  lemma NewestNext(order: seq<Id>, m: Entries, keep: Record -> bool, i: nat, out: seq<Record>, at: seq<nat>)
    requires i < |order| && order[i] in m && NewestSince(order, m, keep, i + 1, out, at)
    ensures var r := m[order[i]].rec;
      if keep(r) then NewestSince(order, m, keep, i, out + [r], at + [i]) else NewestSince(order, m, keep, i, out, at)
  {
    assert forall j :: j in at ==> j in at + [i];
    assert i in at + [i];
  }

  /** List's loop over the order slice, from its end. */
  method Newest(m: Entries, order: seq<Id>, keep: Record -> bool, limit: int)
    returns (out: seq<Record>, ghost at: seq<nat>)
    requires IdSet(order) <= m.Keys
    ensures NewestKept(order, m, keep, limit, out, at)
  {
    out, at := [], [];
    var i := |order|;
    while i > 0 && (limit <= 0 || |out| < limit)
      invariant 0 <= i <= |order| && (limit > 0 ==> |out| <= limit)
      invariant NewestSince(order, m, keep, i, out, at)
    {
      i := i - 1;
      InIdSet(order, i);
      NewestNext(order, m, keep, i, out, at);
      var rec := m[order[i]].rec;
      if keep(rec) { out, at := out + [rec], at + [i]; }
    }
  }

  datatype Creation = Created(rec: Record) | Over(error: CapError) | Unwritten

  /** One pass of Wait: nothing to wait on, an answer, or a channel to block on
      with the time left to the expiry. */
  datatype WaitPass = Missing | Settled(rec: Record) | Block(rec: Record, held: nat, untilExpiry: Time)

  class DelegationStore {
    var byID: Entries
    var order: seq<Id>
    var file: seq<Record>
    // The wakeup channels, numbered: those closed, and whose each one is.
    var closed: set<nat>
    var owners: seq<Id>

    ghost function Contents(): Store
      reads this`order, this`byID, this`file
    {
      Store(order, Recs(byID), file)
    }

    ghost predicate Valid()
      reads this`order, this`byID, this`closed, this`owners
    {
      Ok(order, byID, closed, owners)
    }

    /** OpenDelegationStore on a readable file. */
    constructor (saved: seq<Record>)
      ensures Valid()
      ensures Store(order, Recs(byID), file) == Open(saved)
      ensures forall i: nat, id :: FirstOf(saved, id, i) && id != EMPTY ==> id in byID && byID[id].rec == saved[i]
      ensures forall id :: id in byID ==> id != EMPTY && exists r :: r in saved && r.id == id
    {
      hide FirstOf, Ok, IdSet, Distinct, Loaded, LoadedOrder;
      forall id { LoadedHas(saved, id); }
      forall i: nat, id | FirstOf(saved, id, i) && id != EMPTY { LoadedFirst(saved, id, i); }
      var ids, m, given := ReadIn(saved);
      order, byID, owners, file, closed := ids, m, given, saved, {};
    }

    /** The records in creation order, as persistLocked serialises them. */
    method Records() returns (out: seq<Record>)
      requires Valid()
      ensures IdSet(order) == Recs(byID).Keys && out == Listing(order, Recs(byID))
    {
      out := [];
      var i := 0;
      while i < |order|
        invariant 0 <= i <= |order| && IdSet(order[..i]) <= Recs(byID).Keys
        invariant out == Listing(order[..i], Recs(byID))
      {
        assert order[..i + 1][..i] == order[..i];
        InIdSet(order, i);
        out := out + [byID[order[i]].rec];
        i := i + 1;
      }
      assert order[..i] == order;
    }

    /** atomicWrite: the whole new file or the old one. */
    method WriteFile(out: seq<Record>, ok: bool)
      modifies this`file
      ensures file == if ok then out else old(file)
    {
      if ok { file := out; }
    }

    /** persistLocked with no edit. */
    method PersistLocked(ok: bool)
      requires Valid()
      modifies this`file
      ensures IdSet(order) == Recs(byID).Keys
      ensures file == if ok then Listing(order, Recs(byID)) else old(file)
    {
      var out := Records();
      WriteFile(out, ok);
    }

    /** Putting a changed record in place, and e.signal. */
    method Move(rec: Record)
      requires Valid() && rec.id in byID
      modifies this`byID, this`closed, this`owners
      ensures Valid()
      ensures byID == old(byID)[rec.id := Entry(rec, |old(owners)|)] && owners == old(owners) + [rec.id]
      ensures closed == old(closed) + {old(byID[rec.id].changed)}
      ensures Recs(byID) == Recs(old(byID))[rec.id := rec]
      ensures rec.status != old(byID[rec.id].rec.status) ==>
        WaitersSafe(old(BoardOf(byID, closed, owners)), BoardOf(byID, closed, owners))
    {
      MoveOk(order, byID, closed, owners, rec);
      closed := closed + {byID[rec.id].changed};
      byID := byID[rec.id := Entry(rec, |owners|)];
      owners := owners + [rec.id];
    }

    /** The second loop of expireLocked. */
    method ExpireEach(due: seq<Id>, now: Time, stamp: Time)
      requires Valid() && Distinct(due) && IdSet(due) <= byID.Keys
      modifies this`byID, this`closed, this`owners
      ensures Valid()
      ensures AfterExpiry(old(Hub(byID, closed, owners)), now, stamp, IdSet(due), Hub(byID, closed, owners))
      ensures due == [] ==> byID == old(byID) && closed == old(closed) && owners == old(owners)
    {
      hide WaitersSafe, WellFormed, Made, AfterExpiry;
      ghost var h := Hub(byID, closed, owners);
      var i := 0;
      while i < |due|
        invariant 0 <= i <= |due| && Valid() && IdSet(due[..i]) <= h.m.Keys
        invariant Hub(byID, closed, owners) == Steps(h, due[..i], now, stamp)
      {
        var id := due[i];
        assert due[..i + 1][..i] == due[..i];
        InIdSet(due, i);
        NamedAs(order, byID, closed, owners, id);
        Move(ExpireRecord(byID[id].rec, now, stamp));
        i := i + 1;
      }
      assert due[..i] == due;
      StepsExpire(h, due, now, stamp);
    }

    /** Every given entry past its time expires in memory. */
    method ExpireMemory(ids: seq<Id>, now: Time, stamp: Time) returns (moved: nat)
      requires Valid() && Distinct(ids) && IdSet(ids) <= byID.Keys
      modifies this`byID, this`closed, this`owners
      ensures Valid()
      ensures Recs(byID) == ExpireTable(Recs(old(byID)), IdSet(ids), now, stamp)
      ensures WaitersSafe(old(BoardOf(byID, closed, owners)), BoardOf(byID, closed, owners))
      ensures moved == |set id | id in IdSet(ids) && Overdue(old(byID)[id].rec, now)|
      ensures moved > 0 <==> AnyOverdue(Recs(old(byID)), IdSet(ids), now)
      ensures moved == 0 ==> byID == old(byID) && closed == old(closed) && owners == old(owners)
    {
      ghost var was := Hub(byID, closed, owners);
      var due := Overdues(byID, ids, now);
      moved := |due|;
      DistinctCard(due);
      ExpireEach(due, now, stamp);
      ExpiryTable(was, Hub(byID, closed, owners), IdSet(ids), IdSet(due), now, stamp);
      ExpiryWakes(was, Hub(byID, closed, owners), IdSet(due), now, stamp);
    }

    /** expireLocked: committed whatever the one write does. */
    method ExpireLocked(ids: seq<Id>, now: Time, stamp: Time, ok: bool) returns (moved: nat)
      requires Valid() && Distinct(ids) && IdSet(ids) <= byID.Keys
      modifies this
      ensures Valid()
      ensures Contents() == Expire(old(Contents()), IdSet(ids), now, stamp, ok)
      ensures WaitersSafe(old(BoardOf(byID, closed, owners)), BoardOf(byID, closed, owners))
      ensures Read(old(Contents()).byID, IdSet(ids), now, stamp, Contents().byID)
      ensures moved == |set id | id in IdSet(ids) && Overdue(old(byID)[id].rec, now)|
      ensures moved == 0 ==> byID == old(byID) && closed == old(closed) && owners == old(owners)
    {
      hide Ok, WaitersSafe, Distinct, IdSet, ExpireTable;
      KeysAre(order, byID, closed, owners, file);
      ExpireNotices(Contents(), IdSet(ids), now, stamp, ok);
      moved := ExpireMemory(ids, now, stamp);
      if moved > 0 { PersistLocked(ok); }
    }

    /** Get: expire the one entry if its time has passed, and report it. */
    method Get(id: Id, now: Time, stamp: Time, ok: bool) returns (r: Option<Record>)
      requires Valid()
      modifies this
      ensures Valid() && WaitersSafe(old(BoardOf(byID, closed, owners)), BoardOf(byID, closed, owners))
      ensures Contents() == if id in old(byID) then Expire(old(Contents()), {id}, now, stamp, ok) else old(Contents())
      ensures r == if id in byID then Some(byID[id].rec) else None
      ensures Read(old(Contents()).byID, {id}, now, stamp, Contents().byID)
    {
      if id !in byID {
        StaySafe(BoardOf(byID, closed, owners));
        return None;
      }
      assert IdSet([id]) == {id};
      var _ := ExpireLocked([id], now, stamp, ok);
      return Some(byID[id].rec);
    }

    /** List: everything due expires first; then the newest `limit` kept records
        (all of them when limit is not positive), newest first. */
    method List(keep: Record -> bool, limit: int, now: Time, stamp: Time, ok: bool)
      returns (out: seq<Record>, ghost at: seq<nat>)
      requires Valid()
      modifies this
      ensures Valid() && WaitersSafe(old(BoardOf(byID, closed, owners)), BoardOf(byID, closed, owners))
      ensures Contents() == Expire(old(Contents()), old(Contents()).byID.Keys, now, stamp, ok)
      ensures order == old(order) && Read(old(Contents()).byID, IdSet(order), now, stamp, Contents().byID)
      ensures NewestKept(order, byID, keep, limit, out, at)
    {
      var _ := ExpireLocked(order, now, stamp, ok);
      out, at := Newest(byID, order, keep, limit);
    }

    /** transition's second half: write the file with the copy in place of its
        record, and commit the copy only if that worked. */
    method CommitChange(next: Record, ok: bool)
      requires Valid() && next.id in byID && next.status != byID[next.id].rec.status
      modifies this
      ensures Valid() && WaitersSafe(old(BoardOf(byID, closed, owners)), BoardOf(byID, closed, owners))
      ensures WellFormed(old(Contents()))
      ensures if ok then Contents() == Commit(old(Contents()), next) else unchanged(this)
    {
      var recs := Records();
      var out := Replaced(recs, next);
      ListingReplaced(order, Recs(byID), next, out);
      WriteFile(out, ok);
      StaySafe(BoardOf(byID, closed, owners));
      if ok { Move(next); }
    }

    /** transition: expire, change a copy, write it with the copy in place, and
        commit it only once the write has succeeded. */
    method Transition(id: Id, c: Change, now: Time, stamp: Time, ok: bool) returns (a: Answer)
      requires Valid()
      modifies this
      ensures Valid() && WaitersSafe(old(BoardOf(byID, closed, owners)), BoardOf(byID, closed, owners))
      ensures WellFormed(old(Contents()))
      ensures Contents() == Delegations.Transition(old(Contents()), id, c, now, stamp, ok)
      ensures a == TransitionAnswer(old(Contents()), id, c, now, stamp, ok)
      // Record by record: the change in full, or its refusal.
      ensures var before, after := old(Contents()).byID, Contents().byID;
        && after.Keys == before.Keys && (a == Refused(NotFound) <==> id !in before)
        && (id in before ==> Means(before[id], c, now, stamp, ok, a, after[id]))
        && forall x :: x in before && x != id ==> after[x] == before[x]
    {
      hide Ok, WaitersSafe, WellFormed;
      KeysAre(order, byID, closed, owners, file);
      TransitionMeans(Contents(), id, c, now, stamp, ok);
      if id !in byID {
        StaySafe(BoardOf(byID, closed, owners));
        return Refused(NotFound);
      }
      assert IdSet([id]) == {id};
      var moved := ExpireLocked([id], now, stamp, ok);
      assert Recs(byID)[id] == ExpireRecord(Recs(old(byID))[id], now, stamp);
      if Apply(byID[id].rec, c).Refused? { return Apply(byID[id].rec, c); }
      assert moved == 0;
      a := ApplyLocked(id, c, stamp, ok);
    }

    /** The change itself, on an entry expired if it was due. */
    method ApplyLocked(id: Id, c: Change, stamp: Time, ok: bool) returns (a: Answer)
      requires Valid() && id in byID
      modifies this
      ensures Valid() && WaitersSafe(old(BoardOf(byID, closed, owners)), BoardOf(byID, closed, owners))
      ensures WellFormed(old(Contents()))
      ensures var r := old(byID)[id].rec;
        if Apply(r, c).Refused? then a == Apply(r, c) && unchanged(this)
        else if !ok then a == Refused(WriteFailed) && unchanged(this)
        else a == Took(Changed(r, c, stamp)) && Contents() == Commit(old(Contents()), a.rec)
    {
      a := Apply(byID[id].rec, c);
      if a.Took? {
        NamedAs(order, byID, closed, owners, id);
        ChangedKeeps(byID[id].rec, c, stamp);
        a := Took(a.rec.(updatedAt := Truncate(stamp)));
        CommitChange(a.rec, ok);
        if !ok { a := Refused(WriteFailed); }
      }
    }

    /** One pass of Wait, taken under the lock; the blocking happens outside it. */
    method Wait(id: Id, from: Status, now: Time, stamp: Time, ok: bool, later: Time) returns (w: WaitPass)
      requires Valid()
      modifies this
      ensures Valid() && WaitersSafe(old(BoardOf(byID, closed, owners)), BoardOf(byID, closed, owners))
      ensures Contents() == if id in old(byID) then Expire(old(Contents()), {id}, now, stamp, ok) else old(Contents())
      ensures Read(old(Contents()).byID, {id}, now, stamp, Contents().byID) && (w.Missing? <==> id !in byID)
      ensures w.Settled? ==> w.rec == byID[id].rec && (w.rec.status != from || Finished(w.rec.status))
      // A waiter that blocks holds the current channel of a record still as it
      // knows it and not yet due, and its timer runs to the expiry.
      ensures w.Block? ==> w.rec == byID[id].rec && w.held == byID[id].changed && w.held !in closed
      ensures w.Block? ==> w.rec.status == from && !Finished(from) && now < w.rec.expiresAt
      ensures w.Block? ==> later + w.untilExpiry == w.rec.expiresAt
    {
      hide Ok, WaitersSafe, Distinct;
      var r := Get(id, now, stamp, ok);
      if r.None? { return Missing; }
      var rec := r.value;
      if rec.status != from || Finished(rec.status) { return Settled(rec); }
      NamedAs(order, byID, closed, owners, id);
      return Block(rec, byID[id].changed, rec.expiresAt - later);
    }

    /** The order slice filtered in place. */
    method DropOld(later: Time) returns (pruned: nat)
      requires Valid()
      modifies this`order, this`byID
      ensures Valid() && WaitersSafe(old(BoardOf(byID, closed, owners)), BoardOf(byID, closed, owners))
      ensures IdSet(old(order)) <= Recs(old(byID)).Keys
      ensures order == Kept(old(order), Recs(old(byID)), later) && pruned == |old(order)| - |order|
      ensures byID == Remaining(old(byID), later)
    {
      RemainingOk(order, byID, closed, owners, later);
      order, byID, pruned := Filter(byID, order, later);
    }

    /** The second half of Sweep. */
    method PruneOld(later: Time, ok: bool)
      requires Valid()
      modifies this`order, this`byID, this`file
      ensures Valid() && WaitersSafe(old(BoardOf(byID, closed, owners)), BoardOf(byID, closed, owners))
      ensures IdSet(old(order)) <= Recs(old(byID)).Keys && IdSet(order) == Recs(byID).Keys
      ensures order == Kept(old(order), Recs(old(byID)), later) && byID == Remaining(old(byID), later)
      ensures file == if |order| < |old(order)| && ok then Listing(order, Recs(byID)) else old(file)
    {
      hide Ok, WaitersSafe, Sound, Made, Distinct, Remaining, Kept;
      var pruned := DropOld(later);
      KeysAre(order, byID, closed, owners, file);
      if pruned > 0 { PersistLocked(ok); }
    }

    /** Sweep: expire everything due, then drop finished records past the
        retention. It reports how many it expired. */
    method Sweep(now: Time, stamp: Time, later: Time, ok: bool, okPrune: bool) returns (expired: nat)
      requires Valid()
      modifies this
      ensures Valid() && WaitersSafe(old(BoardOf(byID, closed, owners)), BoardOf(byID, closed, owners))
      ensures WellFormed(old(Contents()))
      ensures Contents() == Delegations.Sweep(old(Contents()), now, stamp, later, ok, okPrune)
      ensures Swept(Recs(old(byID)), now, stamp, later, Recs(byID))
      ensures IdSet(old(order)) == old(Contents()).byID.Keys
      ensures expired == |set id | id in IdSet(old(order)) && Overdue(old(byID)[id].rec, now)|
    {
      KeysAre(order, byID, closed, owners, file);
      SweepLeaves(Contents(), now, stamp, later, ok, okPrune);
      expired := ExpireLocked(order, now, stamp, ok);
      assert Contents() == Expire(old(Contents()), old(Contents()).byID.Keys, now, stamp, ok);
      RemainingIs(order, byID, closed, owners, later, file, okPrune);
      ghost var mid := BoardOf(byID, closed, owners);
      PruneOld(later, okPrune);
      WakesThenDrops(old(BoardOf(byID, closed, owners)), mid, BoardOf(byID, closed, owners));
    }

    /** The creations for one Caller in a window, oldest first. */
    method Recent(caller: Text, since: Time) returns (times: seq<Time>)
      requires Valid()
      ensures Ascending(times)
      ensures forall c :: c >= since ==> CountAbove(times, c) == |CreatedAfter(Recs(byID), caller, c)|
      ensures |times| == |CreatedAfter(Recs(byID), caller, since)|
    {
      ghost var m := Recs(byID);
      times := Times(byID, order, caller, since);
      forall c | c >= since
        ensures CountAbove(times, c) == |CreatedAfter(m, caller, c)|
        ensures c == since ==> |times| == |CreatedAfter(m, caller, since)|
      {
        TimesAreCreations(order, m, caller, since, c);
      }
      times := Sorted(times);
    }

    /** One window of checkCapsLocked. A refusal is exact: the window stays full
        at every instant before now + retryAfter and has room from then on. */
    method CheckWindow(caller: Text, now: Time, limit: int, w: CapWindow) returns (c: CapCheck)
      requires Valid()
      ensures c.HasRoom? <==> !Full(Recs(byID), caller, now, Span(w), limit)
      ensures c.OverCap? ==> c.error.window == w && c.error.limit == limit
      ensures c.OverCap? ==> FullUntil(Recs(byID), caller, now, Span(w), limit, c.error.retryAfter)
    {
      if limit <= 0 { return HasRoom; }
      var times := Recent(caller, now - Span(w));
      if |times| < limit { return HasRoom; }
      var leaves := times[|times| - limit] + Span(w);
      forall t | t >= now ensures Full(Recs(byID), caller, t, Span(w), limit) <==> t < leaves {
        AtLeastAbove(times, t - Span(w), limit);
      }
      return OverCap(CapError(w, limit, leaves - now));
    }

    /** checkCapsLocked: the hour first, then the day. */
    method CheckCaps(caller: Text, now: Time, caps: Caps) returns (c: CapCheck)
      requires Valid()
      ensures c.HasRoom? <==> !Capped(Recs(byID), caller, now, caps)
      ensures c.OverCap? ==>
        && c.error.window == (if Full(Recs(byID), caller, now, HOUR, caps.perHour) then Hour else Day)
        && c.error.limit == Limit(caps, c.error.window)
        && FullUntil(Recs(byID), caller, now, Span(c.error.window), c.error.limit, c.error.retryAfter)
    {
      c := CheckWindow(caller, now, caps.perHour, Hour);
      if c.OverCap? { return; }
      c := CheckWindow(caller, now, caps.perDay, Day);
    }

    /** Create: refused by a cap, or written and then committed. The id is new
        (idGen mints every id once). */
    method Create(rec: Record, caps: Caps, now: Time, stamp: Time, ok: bool) returns (a: Creation)
      requires Valid() && rec.id !in byID && rec.id != EMPTY
      modifies this
      ensures Valid() && WaitersSafe(old(BoardOf(byID, closed, owners)), BoardOf(byID, closed, owners))
      ensures WellFormed(old(Contents())) && rec.id !in old(Contents()).byID
      ensures Contents() == Delegations.Create(old(Contents()), rec, caps, now, stamp, ok)
      ensures a.Over? <==> Capped(Recs(old(byID)), rec.caller, now, caps)
      ensures a.Created? ==> rec.id in byID && byID[rec.id].rec == a.rec && order == old(order) + [rec.id]
      // Pending, with nothing handed back yet, everything else as asked.
      ensures a.Created? ==>
        && a.rec.status == Pending && a.rec.result == EMPTY && a.rec.reason == EMPTY
        && a.rec.createdAt == a.rec.updatedAt == Truncate(stamp)
        && a.rec.id == rec.id && a.rec.caller == rec.caller && a.rec.handover == rec.handover
        && a.rec.expiresAt == rec.expiresAt
      ensures a.Unwritten? <==> !ok && !a.Over?
      ensures !a.Created? ==> byID == old(byID) && order == old(order) && file == old(file)
    {
      hide WaitersSafe, Sound, Made, Distinct;
      var check := CheckCaps(rec.caller, now, caps);
      StaySafe(BoardOf(byID, closed, owners));
      if check.OverCap? { return Over(check.error); }
      var r := NewRecord(rec, stamp);
      var out := Records();
      ListingAppend(order, Recs(byID), r);
      WriteFile(out + [r], ok);
      if !ok { return Unwritten; }
      AddEntry(r);
      return Created(r);
    }

    /** A new entry in the map and at the end of the order. */
    method AddEntry(r: Record)
      requires Valid() && r.id !in byID && r.id != EMPTY
      modifies this`order, this`byID, this`owners
      ensures Valid() && WaitersSafe(old(BoardOf(byID, closed, owners)), BoardOf(byID, closed, owners))
      ensures order == old(order) + [r.id] && byID == old(byID)[r.id := Entry(r, |old(owners)|)]
      ensures Recs(byID) == Recs(old(byID))[r.id := r]
    {
      hide Ok, WaitersSafe, IdSet, Distinct;
      JoinOk(order, byID, closed, owners, r);
      byID := byID[r.id := Entry(r, |owners|)];
      owners := owners + [r.id];
      order := order + [r.id];
    }
  }
}
