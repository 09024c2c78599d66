// The delegation records of agent-api/delegation.go: the six-status lifecycle,
// and what each lock-held region does to memory and to the one JSON file. A
// write lands whole or not at all (`ok`). Times are nanoseconds; `now` and
// `stamp` are a region's clock readings, in order.
module Delegations {
  import opened Ids

  type Time = int

  const SECOND: Time := 1_000_000_000
  const HOUR: Time := 3600 * SECOND
  const DAY: Time := 24 * HOUR
  /** How long a finished delegation is kept. */
  const RETENTION: Time := 14 * DAY

  datatype Status = Pending | Sent | Done | Failed | Expired | Undelivered

  predicate Finished(s: Status) {
    s != Pending && s != Sent
  }

  predicate CanGo(s: Status, next: Status) {
    match s
    case Pending => next != Pending
    case Sent => next == Done || next == Failed || next == Expired
    case _ => false
  }

  /** What is set at creation and never touched again. */
  datatype Handover = Handover(
    createdBy: Text, fromSession: Text, task: Text, message: Text,
    creatorOSUser: Text, callerOSUser: Text)

  datatype Record = Record(
    id: Id, caller: Text, handover: Handover,
    status: Status, result: Text, reason: Text,
    createdAt: Time, updatedAt: Time, expiresAt: Time)

  /** The store's clock: a reading cut to the whole second. */
  function Truncate(t: Time): (s: Time)
    ensures s <= t < s + SECOND && s % SECOND == 0
  {
    t - t % SECOND
  }

  /** A whole second not after a reading is not after its truncation. */
  lemma TruncateKeeps(c: Time, t: Time)
    requires c % SECOND == 0 && c <= t
    ensures c <= Truncate(t)
  {
    assert c == (c / SECOND) * SECOND && t == (t / SECOND) * SECOND + t % SECOND;
  }

  type Table = map<Id, Record>

  /** Memory (creation order, and the record of every id) and the file. */
  datatype Store = Store(order: seq<Id>, byID: Table, file: seq<Record>)

  const NEW_STORE := Store([], map[], [])

  // ---------- expiry ----------

  predicate Overdue(r: Record, now: Time) {
    !Finished(r.status) && r.expiresAt <= now
  }

  function ExpireRecord(r: Record, now: Time, stamp: Time): Record {
    if Overdue(r, now) then r.(status := Expired, updatedAt := Truncate(stamp)) else r
  }

  function ExpireTable(m: Table, ids: set<Id>, now: Time, stamp: Time): Table {
    map id | id in m :: if id in ids then ExpireRecord(m[id], now, stamp) else m[id]
  }

  predicate AnyOverdue(m: Table, ids: set<Id>, now: Time) {
    exists id :: id in ids && id in m && Overdue(m[id], now)
  }

  /** What is written: the records in creation order. */
  function Listing(order: seq<Id>, m: Table): seq<Record>
    requires IdSet(order) <= m.Keys
  {
    if order == [] then [] else
    Listing(order[..|order| - 1], m) + [m[order[|order| - 1]]]
  }

  lemma {:induction false} ListingSame(order: seq<Id>, m: Table, n: Table)
    requires IdSet(order) <= m.Keys && forall id :: id in m ==> id in n && n[id] == m[id]
    ensures IdSet(order) <= n.Keys && Listing(order, n) == Listing(order, m)
  {
    if order != [] { ListingSame(order[..|order| - 1], m, n); }
  }

  lemma ListingAppend(order: seq<Id>, m: Table, r: Record)
    requires IdSet(order) <= m.Keys && r.id !in m
    ensures var n := m[r.id := r];
      IdSet(order + [r.id]) <= n.Keys && Listing(order + [r.id], n) == Listing(order, m) + [r]
  {
    Append(order, r.id);
    ListingSame(order, m, m[r.id := r]);
    assert (order + [r.id])[..|order|] == order;
  }

  ghost predicate WellFormed(s: Store) {
    && Distinct(s.order) && IdSet(s.order) == s.byID.Keys
    && (forall id :: id in s.byID ==> s.byID[id].id == id && id != EMPTY)
  }

  /** expireLocked: committed to memory whatever the write does. */
  function Expire(s: Store, ids: set<Id>, now: Time, stamp: Time, ok: bool): Store
    requires WellFormed(s)
  {
    var m := ExpireTable(s.byID, ids, now, stamp);
    Store(s.order, m, if AnyOverdue(s.byID, ids, now) && ok then Listing(s.order, m) else s.file)
  }

  /** One record put in place or appended, written, and then committed. */
  function Commit(s: Store, r: Record): Store
    requires WellFormed(s)
  {
    var order := if r.id in s.byID then s.order else s.order + [r.id];
    var m := s.byID[r.id := r];
    Append(s.order, r.id);
    Store(order, m, Listing(order, m))
  }

  // ---------- the three transitions ----------

  datatype Change =
    | MarkSent
    | MarkUndelivered(reason: Text)
    | Finish(status: Status, result: Text)

  datatype Refusal = NotFound | NotPending | AlreadyFinished | HasExpired | WriteFailed

  datatype Answer = Took(rec: Record) | Refused(why: Refusal)

  function Apply(r: Record, c: Change): Answer {
    match c
    case MarkSent =>
      if r.status != Pending then Refused(NotPending) else Took(r.(status := Sent))
    case MarkUndelivered(reason) =>
      if r.status != Pending then Refused(NotPending)
      else Took(r.(status := Undelivered, reason := reason))
    case Finish(status, result) =>
      if r.status == Expired then Refused(HasExpired)
      else if !CanGo(r.status, status) then Refused(AlreadyFinished)
      else Took(r.(status := status, result := result))
  }

  /** transition: expire, change a copy, write it, and only then commit it. */
  function Transition(s: Store, id: Id, c: Change, now: Time, stamp: Time, ok: bool): Store
    requires WellFormed(s)
  {
    if id !in s.byID then s else
    var e := Expire(s, {id}, now, stamp, ok);
    match Apply(e.byID[id], c)
    case Refused(_) => e
    case Took(next) => if ok then Commit(e, next.(updatedAt := Truncate(stamp))) else e
  }

  function TransitionAnswer(s: Store, id: Id, c: Change, now: Time, stamp: Time, ok: bool): Answer
    requires WellFormed(s)
  {
    if id !in s.byID then Refused(NotFound) else
    match Apply(ExpireRecord(s.byID[id], now, stamp), c)
    case Refused(why) => Refused(why)
    case Took(next) => if ok then Took(next.(updatedAt := Truncate(stamp))) else Refused(WriteFailed)
  }

  // ---------- what that comes to, record by record ----------

  /** `after` is what the store makes of r at `now`: unfinished and past its time
      it is expired, and stamped; otherwise it is left alone. */
  predicate Noticed(r: Record, now: Time, stamp: Time, after: Record) {
    if (r.status == Pending || r.status == Sent) && r.expiresAt <= now then
      && after.status == Expired && after.updatedAt == Truncate(stamp)
      && after.(status := r.status, updatedAt := r.updatedAt) == r
    else
      after == r
  }

  /** A look at these ids, and what it leaves of the table. */
  ghost predicate Read(was: Table, ids: set<Id>, now: Time, stamp: Time, left: Table) {
    && left.Keys == was.Keys
    && forall id :: id in was ==> if id in ids then Noticed(was[id], now, stamp, left[id]) else left[id] == was[id]
  }

  lemma ExpireNotices(s: Store, ids: set<Id>, now: Time, stamp: Time, ok: bool)
    requires WellFormed(s)
    ensures Read(s.byID, ids, now, stamp, Expire(s, ids, now, stamp, ok).byID)
  {
  }

  /** A record may be changed so: sent or undelivered from pending alone, finished
      from pending or sent, and nothing once its time has passed. */
  predicate MayChange(r: Record, c: Change, now: Time) {
    && (r.status == Pending || r.status == Sent) && r.expiresAt > now
    && match c
       case MarkSent => r.status == Pending
       case MarkUndelivered(_) => r.status == Pending
       case Finish(to, _) => to == Done || to == Failed || to == Expired || (r.status == Pending && to != Pending)
  }

  /** The change asked for, stamped, and nothing else of the record. */
  predicate Edited(r: Record, c: Change, stamp: Time, after: Record) {
    && after.updatedAt == Truncate(stamp)
    && after.(status := r.status, result := r.result, reason := r.reason, updatedAt := r.updatedAt) == r
    && match c
       case MarkSent => after.status == Sent && after.result == r.result && after.reason == r.reason
       case MarkUndelivered(why) => after.status == Undelivered && after.result == r.result && after.reason == why
       case Finish(to, result) => after.status == to && after.result == result && after.reason == r.reason
  }

  /** A change to the record r, its answer, and the record afterwards. Each refusal
      is given in exactly its own case, and a refusal leaves what a read would. */
  predicate Means(r: Record, c: Change, now: Time, stamp: Time, ok: bool, a: Answer, after: Record) {
    var expired := r.status == Expired || ((r.status == Pending || r.status == Sent) && r.expiresAt <= now);
    && (a.Took? <==> MayChange(r, c, now) && ok)
    && (a == Refused(WriteFailed) <==> MayChange(r, c, now) && !ok)
    && (a == Refused(NotPending) <==> !c.Finish? && !MayChange(r, c, now))
    && (a == Refused(HasExpired) <==> c.Finish? && expired)
    && (a == Refused(AlreadyFinished) <==> c.Finish? && !MayChange(r, c, now) && !expired)
    && (a.Took? ==> a.rec == after && Edited(r, c, stamp, after))
    && (a.Refused? ==> Noticed(r, now, stamp, after))
  }

  /** transition does what each change says. */
  lemma TransitionMeans(s: Store, id: Id, c: Change, now: Time, stamp: Time, ok: bool)
    requires WellFormed(s)
    ensures var t, a := Transition(s, id, c, now, stamp, ok), TransitionAnswer(s, id, c, now, stamp, ok);
      && t.byID.Keys == s.byID.Keys
      && (id !in s.byID <==> a == Refused(NotFound))
      && (id in s.byID ==> Means(s.byID[id], c, now, stamp, ok, a, t.byID[id]))
      && (forall x :: x in s.byID && x != id ==> t.byID[x] == s.byID[x])
  {
    ExpireNotices(s, {id}, now, stamp, ok);
  }

  // ---------- creation ----------

  datatype Caps = Caps(perHour: int, perDay: int)

  /** The ids of one Caller's recorded creations after `since`. */
  ghost function CreatedAfter(m: Table, caller: Text, since: Time): set<Id> {
    set id | id in m && m[id].caller == caller && m[id].createdAt > since
  }

  /** A window with a limit, full at t: one more creation would pass the limit. */
  ghost predicate Full(m: Table, caller: Text, t: Time, window: Time, limit: int) {
    limit > 0 && |CreatedAfter(m, caller, t - window)| >= limit
  }

  ghost predicate Capped(m: Table, caller: Text, t: Time, caps: Caps) {
    Full(m, caller, t, HOUR, caps.perHour) || Full(m, caller, t, DAY, caps.perDay)
  }

  function NewRecord(rec: Record, stamp: Time): Record {
    rec.(status := Pending, result := EMPTY, reason := EMPTY,
         createdAt := Truncate(stamp), updatedAt := Truncate(stamp))
  }

  /** Create, with an id nobody holds yet (ids are minted by idGen). */
  ghost function Create(s: Store, rec: Record, caps: Caps, now: Time, stamp: Time, ok: bool): Store
    requires WellFormed(s)
    requires rec.id !in s.byID && rec.id != EMPTY
  {
    if Capped(s.byID, rec.caller, now, caps) || !ok then s else Commit(s, NewRecord(rec, stamp))
  }

  // ---------- sweep ----------

  predicate Prunable(r: Record, later: Time) {
    Finished(r.status) && r.updatedAt <= later - RETENTION
  }

  /** The ids kept, in order: the in-place filter of Sweep. */
  function Kept(order: seq<Id>, m: Table, later: Time): (out: seq<Id>)
    requires IdSet(order) <= m.Keys
    ensures IdSet(out) <= IdSet(order)
    ensures forall id :: id in IdSet(order) ==> (id in IdSet(out) <==> !Prunable(m[id], later))
    ensures |out| <= |order|
    ensures Distinct(order) ==> Distinct(out)
  {
    if order == [] then [] else
    var last := order[|order| - 1];
    var rest := Kept(order[..|order| - 1], m, later);
    Append(rest, last);
    if Prunable(m[last], later) then rest else rest + [last]
  }

  /** The second half of Sweep: finished records past the retention go. */
  function Prune(s: Store, later: Time, ok: bool): Store
    requires WellFormed(s)
  {
    var kept := Kept(s.order, s.byID, later);
    var m := map id | id in s.byID && !Prunable(s.byID[id], later) :: s.byID[id];
    Store(kept, m, if |kept| < |s.order| && ok then Listing(kept, m) else s.file)
  }

  /** Sweep: two separate writes, so two outcomes; `later` is the reading the
      retention is measured from. */
  function Sweep(s: Store, now: Time, stamp: Time, later: Time, ok: bool, okPrune: bool): Store
    requires WellFormed(s)
  {
    Prune(Expire(s, s.byID.Keys, now, stamp, ok), later, okPrune)
  }

  /** What a sweep leaves: each record as a read would leave it, but for those
      finished and last touched 14 days or more before `later`, which are gone. */
  ghost predicate Swept(was: Table, now: Time, stamp: Time, later: Time, left: Table) {
    && left.Keys <= was.Keys
    && (forall id :: id in left ==> Noticed(was[id], now, stamp, left[id]))
    && (forall id, r :: id in was && Noticed(was[id], now, stamp, r) ==>
          (id in left <==> r.status == Pending || r.status == Sent || r.updatedAt > later - 14 * 24 * HOUR))
  }

  lemma SweepLeaves(s: Store, now: Time, stamp: Time, later: Time, ok: bool, okPrune: bool)
    requires WellFormed(s)
    ensures Swept(s.byID, now, stamp, later, Sweep(s, now, stamp, later, ok, okPrune).byID)
  {
    hide Kept, Listing, IdSet, Distinct, AnyOverdue;
    ExpireNotices(s, s.byID.Keys, now, stamp, ok);
  }

  // ---------- opening ----------

  /** The file as a table: the first record of an id wins, and a record without
      an id is passed over. */
  function Loaded(file: seq<Record>): Table {
    if file == [] then map[] else
    var last := file[|file| - 1];
    var m := Loaded(file[..|file| - 1]);
    if last.id == EMPTY || last.id in m then m else m[last.id := last]
  }

  function LoadedOrder(file: seq<Record>): seq<Id> {
    if file == [] then [] else
    var last := file[|file| - 1];
    var ids := LoadedOrder(file[..|file| - 1]);
    if last.id == EMPTY || last.id in IdSet(ids) then ids else ids + [last.id]
  }

  /** A process that starts on this file: memory is what the file says. */
  function Open(file: seq<Record>): Store {
    Store(LoadedOrder(file), Loaded(file), file)
  }

  lemma {:induction false} OpenIsWellFormed(file: seq<Record>)
    ensures WellFormed(Open(file))
  {
    if file != [] {
      var init, r := file[..|file| - 1], file[|file| - 1];
      OpenIsWellFormed(init);
      var m, ids := Loaded(init), LoadedOrder(init);
      assert IdSet(ids) == m.Keys;
      if r.id == EMPTY || r.id in m {
        assert Open(file) == Open(init).(file := file);
      } else {
        Append(ids, r.id);
        assert Loaded(file) == m[r.id := r] && LoadedOrder(file) == ids + [r.id];
      }
    }
  }

  /** Place i of the file is the first to hold this id. */
  predicate FirstOf(file: seq<Record>, id: Id, i: nat) {
    i < |file| && file[i].id == id && forall j :: 0 <= j < i ==> file[j].id != id
  }

  lemma {:induction false} LoadedHas(file: seq<Record>, id: Id)
    ensures id in Loaded(file) <==> id != EMPTY && exists r :: r in file && r.id == id
  {
    if file != [] {
      var n := |file| - 1;
      LoadedHas(file[..n], id);
      assert file == file[..n] + [file[n]];
    }
  }

  /** Any file, repeats and nameless records too: each id it has is loaded, as the
      first record that has it. */
  lemma {:induction false} LoadedFirst(file: seq<Record>, id: Id, i: nat)
    requires FirstOf(file, id, i) && id != EMPTY
    ensures id in Loaded(file) && Loaded(file)[id] == file[i]
  {
    var n := |file| - 1;
    if i < n {
      LoadedFirst(file[..n], id, i);
    } else {
      LoadedHas(file[..n], id);
    }
  }

  /** Reading back what was written gives the records written, in order. */
  lemma {:induction false} LoadedListing(order: seq<Id>, m: Table)
    requires Distinct(order) && IdSet(order) <= m.Keys
    requires forall id :: id in m ==> m[id].id == id && id != EMPTY
    ensures LoadedOrder(Listing(order, m)) == order
    ensures Loaded(Listing(order, m)) == map id | id in IdSet(order) :: m[id]
  {
    if order != [] {
      var n := |order| - 1;
      LoadedListing(order[..n], m);
      Restricted(order, m);
    }
  }

  lemma {:induction false} Restricted(order: seq<Id>, m: Table)
    requires order != [] && IdSet(order) <= m.Keys
    ensures var n := |order| - 1;
      (map id | id in IdSet(order) :: m[id]) == (map id | id in IdSet(order[..n]) :: m[id])[order[n] := m[order[n]]]
  {
  }

  // ---------- what a read reports ----------

  /** What Get reports of a record at t, leaving out the stamp of an expiry,
      which is when it was noticed. */
  function Report(r: Record, t: Time): (p: Record)
    ensures p.status == Expired <==>
      r.status == Expired || ((r.status == Pending || r.status == Sent) && r.expiresAt <= t)
    ensures if p.status == Expired then p.(status := r.status, updatedAt := r.updatedAt) == r else p == r
  {
    var x := ExpireRecord(r, t, t);
    if x.status == Expired then x.(updatedAt := 0) else x
  }
}
