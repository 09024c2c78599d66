// When a full rolling window has room again (checkCapsLocked of
// agent-api/delegation.go): counting creations after an instant, and the
// sorted list that names the one which has to leave.
module CapWindows {
  import opened Ids
  import opened Delegations

  datatype CapWindow = Hour | Day

  /** A creation refused by a cap, and how long until the window has room. */
  datatype CapError = CapError(window: CapWindow, limit: int, retryAfter: Time)

  datatype CapCheck = HasRoom | OverCap(error: CapError)

  function Span(w: CapWindow): Time {
    if w == Hour then HOUR else DAY
  }

  function Limit(caps: Caps, w: CapWindow): int {
    if w == Hour then caps.perHour else caps.perDay
  }

  /** How many of these times are after `since`. */
  function CountAbove(ts: seq<Time>, since: Time): nat {
    if ts == [] then 0
    else CountAbove(ts[..|ts| - 1], since) + if ts[|ts| - 1] > since then 1 else 0
  }

  predicate Ascending(ts: seq<Time>) {
    forall i :: 0 < i < |ts| ==> ts[i - 1] <= ts[i]
  }

  function Insert(ts: seq<Time>, t: Time): (r: seq<Time>)
    requires Ascending(ts)
    ensures Ascending(r) && |r| == |ts| + 1
    ensures r[|ts|] == if ts != [] && ts[|ts| - 1] > t then ts[|ts| - 1] else t
    ensures forall c :: CountAbove(r, c) == CountAbove(ts, c) + if t > c then 1 else 0
  {
    if ts == [] || ts[|ts| - 1] <= t then
      assert (ts + [t])[..|ts|] == ts;
      ts + [t]
    else
      var n := |ts| - 1;
      var rest := Insert(ts[..n], t);
      assert (rest + [ts[n]])[..n + 1] == rest;
      rest + [ts[n]]
  }

  /** sort.Slice on times. */
  function Sorted(ts: seq<Time>): (r: seq<Time>)
    ensures Ascending(r) && |r| == |ts|
    ensures forall c :: CountAbove(r, c) == CountAbove(ts, c)
  {
    if ts == [] then [] else Insert(Sorted(ts[..|ts| - 1]), ts[|ts| - 1])
  }

  /** In a sorted list the k-th time from the end is after c exactly when k of them are. */
  lemma {:induction false} AtLeastAbove(ts: seq<Time>, c: Time, k: nat)
    requires Ascending(ts) && 1 <= k <= |ts|
    ensures CountAbove(ts, c) >= k <==> ts[|ts| - k] > c
  {
    var n := |ts| - 1;
    LastIsLargest(ts, |ts| - k);
    if ts[n] <= c {
      NoneAbove(ts, c);
    } else if k > 1 {
      AtLeastAbove(ts[..n], c, k - 1);
    }
  }

  lemma {:induction false} LastIsLargest(ts: seq<Time>, i: nat)
    requires Ascending(ts) && i < |ts|
    ensures ts[i] <= ts[|ts| - 1]
  {
    if i < |ts| - 1 { LastIsLargest(ts[..|ts| - 1], i); }
  }

  lemma {:induction false} NoneAbove(ts: seq<Time>, c: Time)
    requires Ascending(ts) && ts != [] && ts[|ts| - 1] <= c
    ensures CountAbove(ts, c) == 0
  {
    if |ts| > 1 {
      LastIsLargest(ts, |ts| - 2);
      NoneAbove(ts[..|ts| - 1], c);
    }
  }

  /** The recorded times of a Caller's creations after `since`, in order. */
  function TimesOf(order: seq<Id>, m: Table, caller: Text, since: Time): seq<Time>
    requires IdSet(order) <= m.Keys
  {
    if order == [] then [] else
    var r := m[order[|order| - 1]];
    var ts := TimesOf(order[..|order| - 1], m, caller, since);
    if Counts(r, caller, since) then ts + [r.createdAt] else ts
  }

  predicate Counts(r: Record, caller: Text, since: Time) {
    r.caller == caller && r.createdAt > since
  }

  /** The creations among the entries of an order, entry by entry. */
  ghost function CreatedIn(order: seq<Id>, m: Table, caller: Text, c: Time): set<Id>
    requires IdSet(order) <= m.Keys
  {
    if order == [] then {} else
    var s := CreatedIn(order[..|order| - 1], m, caller, c);
    if Counts(m[order[|order| - 1]], caller, c) then s + {order[|order| - 1]} else s
  }

  lemma {:induction false} CreatedInIs(order: seq<Id>, m: Table, caller: Text, c: Time)
    requires IdSet(order) <= m.Keys
    ensures CreatedIn(order, m, caller, c) <= IdSet(order)
    ensures forall id :: id in CreatedIn(order, m, caller, c) <==> id in IdSet(order) && Counts(m[id], caller, c)
  {
    if order != [] { CreatedInIs(order[..|order| - 1], m, caller, c); }
  }

  /** The times collected count exactly the creations. */
  lemma {:induction false} TimesCount(order: seq<Id>, m: Table, caller: Text, since: Time, c: Time)
    requires Distinct(order) && IdSet(order) <= m.Keys && c >= since
    ensures CountAbove(TimesOf(order, m, caller, since), c) == |CreatedIn(order, m, caller, c)|
    ensures c == since ==> |TimesOf(order, m, caller, since)| == |CreatedIn(order, m, caller, c)|
  {
    if order != [] {
      var init, id := order[..|order| - 1], order[|order| - 1];
      TimesCount(init, m, caller, since, c);
      CreatedInIs(init, m, caller, c);
      var ts, t := TimesOf(init, m, caller, since), m[id].createdAt;
      assert (ts + [t])[..|ts|] == ts;
    }
  }

  lemma TimesAreCreations(order: seq<Id>, m: Table, caller: Text, since: Time, c: Time)
    requires Distinct(order) && IdSet(order) == m.Keys && c >= since
    ensures CountAbove(TimesOf(order, m, caller, since), c) == |CreatedAfter(m, caller, c)|
    ensures c == since ==> |TimesOf(order, m, caller, since)| == |CreatedAfter(m, caller, c)|
  {
    TimesCount(order, m, caller, since, c);
    CreatedInIs(order, m, caller, c);
    assert CreatedIn(order, m, caller, c) == CreatedAfter(m, caller, c);
  }

  /** Retry-After in whole seconds, rounded up and never zero. */
  function RetryAfterSeconds(d: Time): int {
    // Go divides toward zero, which is Dafny's division on what can reach here.
    var secs := if d + SECOND - 1 < 0 then 0 else (d + SECOND - 1) / SECOND;
    if secs < 1 then 1 else secs
  }

  /** What a refusal says: the window is full at every instant before now + d, and
      has room from then on, if nothing is created meanwhile. */
  ghost predicate FullUntil(m: Table, caller: Text, now: Time, window: Time, limit: int, d: Time) {
    d > 0 && forall t :: t >= now ==> (Full(m, caller, t, window, limit) <==> t < now + d)
  }

  /** The header keeps it: from its whole seconds on there is room, and a second
      sooner there is none, unless that is already past. */
  lemma HeaderKeepsRoom(m: Table, caller: Text, now: Time, window: Time, limit: int, d: Time, t: Time)
    requires FullUntil(m, caller, now, window, limit, d)
    ensures t >= now + RetryAfterSeconds(d) * SECOND ==> !Full(m, caller, t, window, limit)
    ensures now <= t <= now + (RetryAfterSeconds(d) - 1) * SECOND ==> Full(m, caller, t, window, limit)
  {
    var n := d + SECOND - 1;
    assert n == (n / SECOND) * SECOND + n % SECOND;
    assert t >= now ==> (Full(m, caller, t, window, limit) <==> t < now + d);
  }

}
