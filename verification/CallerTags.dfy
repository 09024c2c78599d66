// The memo of which Caller a session belongs to (session-events/callertag.go):
// looked up under the lock, read outside it, stored under it again.
module CallerTags {
  import opened Ids
  import opened Options

  type Time = int

  /** An OS user and a session. */
  type Key = Text

  const TTL: Time := 60_000_000_000
  const SWEEP_AT := 512

  datatype Tag = Tag(caller: Text, at: Time)

  type Memo = map<Key, Tag>

  // ---------- the two lock regions ----------

  predicate Fresh(t: Tag, now: Time) {
    now - t.at <= TTL
  }

  function Hit(seen: Memo, key: Key, now: Time): Option<Text> {
    if key in seen && Fresh(seen[key], now) then Some(seen[key].caller) else None
  }

  function Swept(seen: Memo, now: Time): Memo {
    if |seen| >= SWEEP_AT then map k | k in seen && Fresh(seen[k], now) :: seen[k] else seen
  }

  function Remembered(seen: Memo, key: Key, caller: Text, now: Time): Memo {
    Swept(seen, now)[key := Tag(caller, now)]
  }

  class CallerMemo {
    var seen: Memo

    constructor ()
      ensures seen == map[]
    {
      seen := map[];
    }

    method Lookup(key: Key, now: Time) returns (caller: Option<Text>)
      ensures caller == Hit(seen, key, now)
      ensures caller.Some? <==> key in seen && now <= seen[key].at + 60_000_000_000
      ensures caller.Some? ==> caller.value == seen[key].caller
    {
      if key in seen && now - seen[key].at <= TTL { return Some(seen[key].caller); }
      return None;
    }

    method Remember(key: Key, caller: Text, now: Time)
      modifies this
      ensures seen == Remembered(old(seen), key, caller, now)
      // The tag is stamped with the call's own time, and nothing else changes but
      // that a memo of 512 tags or more loses those past the TTL.
      ensures key in seen && seen[key] == Tag(caller, now)
      ensures forall k :: k in seen && k != key ==> k in old(seen) && seen[k] == old(seen)[k]
      ensures forall k :: k in old(seen) && k != key ==>
        (k !in seen <==> |old(seen)| >= 512 && now > old(seen)[k].at + 60_000_000_000)
    {
      if |seen| >= SWEEP_AT { Sweep(now); }
      seen := seen[key := Tag(caller, now)];
    }

    method Sweep(now: Time)
      modifies this
      ensures seen == map k | k in old(seen) && Fresh(old(seen)[k], now) :: old(seen)[k]
    {
      ghost var was := seen;
      var left := seen.Keys;
      while left != {}
        invariant left <= was.Keys
        invariant forall k :: k in seen <==> k in was && (k in left || Fresh(was[k], now))
        invariant forall k :: k in seen ==> seen[k] == was[k]
        decreases left
      {
        var k :| k in left;
        left := left - {k};
        if now - seen[k].at > TTL { seen := seen - {k}; }
      }
    }
  }

  // ---------- callers racing ----------

  /** Where a call of callerOf is. */
  datatype Call =
    | Missed(key: Key, now: Time)
    | Read(key: Key, now: Time, caller: Text)
    | Returned(key: Key, began: Time, caller: Text, ended: Time)

  /** `origins` is what a read of each session's origin would give now; a session
      that is gone or cannot be read has none, which reads as no Caller. */
  datatype World = World(clock: Time, origins: map<Key, Text>, seen: Memo, calls: map<nat, Call>)

  datatype Event =
    | ClockMoves(to: Time)
    | OriginChanges(origins: map<Key, Text>)
    | Look(call: nat, key: Key)
    | ReadOrigin(call: nat)
    | Store(call: nat)

  function CallerNow(w: World, key: Key): Text {
    if key in w.origins then w.origins[key] else EMPTY
  }

  predicate Enabled(w: World, e: Event) {
    match e
    case ClockMoves(to) => to >= w.clock
    case OriginChanges(_) => true
    case Look(c, _) => c !in w.calls
    case ReadOrigin(c) => c in w.calls && w.calls[c].Missed?
    case Store(c) => c in w.calls && w.calls[c].Read?
  }

  function Next(w: World, e: Event): World
    requires Enabled(w, e)
  {
    match e
    case ClockMoves(to) => w.(clock := to)
    case OriginChanges(origins) => w.(origins := origins)
    case Look(c, key) =>
      var hit := Hit(w.seen, key, w.clock);
      w.(calls := w.calls[c := if hit.Some? then Returned(key, w.clock, hit.value, w.clock) else Missed(key, w.clock)])
    case ReadOrigin(c) =>
      var p := w.calls[c];
      w.(calls := w.calls[c := Read(p.key, p.now, CallerNow(w, p.key))])
    case Store(c) =>
      var p := w.calls[c];
      w.(seen := Remembered(w.seen, p.key, p.caller, p.now),
         calls := w.calls[c := Returned(p.key, p.now, p.caller, w.clock)])
  }

  predicate Linked(w: World, e: Event, n: World) {
    Enabled(w, e) && n == Next(w, e)
  }

  predicate MemoRun(ws: seq<World>, es: seq<Event>) {
    && |ws| == |es| + 1 && ws[0].seen == map[] && ws[0].calls == map[]
    && forall k {:trigger es[k]} :: 0 <= k < |es| ==> Linked(ws[k], es[k], ws[k + 1])
  }

  /** A read of the session's origin would have given this caller at some instant
      from lo to hi, among the first n + 1 states of the run. */
  predicate TrueWithin(ws: seq<World>, n: nat, key: Key, caller: Text, lo: Time, hi: Time) {
    exists i :: 0 <= i <= n && i < |ws| && lo <= ws[i].clock <= hi
      && caller == if key in ws[i].origins then ws[i].origins[key] else EMPTY
  }

  /** What each memo entry and each call rests on. */
  predicate TagOk(ws: seq<World>, n: nat, key: Key, t: Tag)
    requires n < |ws|
  {
    TrueWithin(ws, n, key, t.caller, t.at, ws[n].clock)
  }

  predicate CallOk(ws: seq<World>, n: nat, c: Call)
    requires n < |ws|
  {
    match c
    case Missed(key, now) => now <= ws[n].clock
    case Read(key, now, caller) => TrueWithin(ws, n, key, caller, now, ws[n].clock)
    case Returned(key, began, caller, ended) =>
      began <= ended <= ws[n].clock && TrueWithin(ws, n, key, caller, began - TTL, ended)
  }

  predicate AllOk(ws: seq<World>, n: nat)
    requires n < |ws|
  {
    && (forall k :: k in ws[n].seen ==> TagOk(ws, n, k, ws[n].seen[k]))
    && (forall c :: c in ws[n].calls ==> CallOk(ws, n, ws[n].calls[c]))
  }

  lemma SeenSteps(ws: seq<World>, es: seq<Event>, n: nat, k: Key)
    requires MemoRun(ws, es) && n < |es| && AllOk(ws, n) && k in ws[n + 1].seen
    ensures TagOk(ws, n + 1, k, ws[n + 1].seen[k])
  {
    var w, e := ws[n], es[n];
    assert Linked(w, e, ws[n + 1]);
    if e.Store? && k == w.calls[e.call].key {
      var p := w.calls[e.call];
      assert CallOk(ws, n, p);
    } else {
      var t := w.seen[k];
      assert TagOk(ws, n, k, t);
    }
  }

  lemma {:induction false} RunOk(ws: seq<World>, es: seq<Event>, n: nat)
    requires MemoRun(ws, es) && n < |ws|
    ensures AllOk(ws, n)
  {
    if n > 0 {
      RunOk(ws, es, n - 1);
      assert Linked(ws[n - 1], es[n - 1], ws[n]);
      forall k | k in ws[n].seen ensures TagOk(ws, n, k, ws[n].seen[k]) { SeenSteps(ws, es, n - 1, k); }
      forall c | c in ws[n].calls ensures CallOk(ws, n, ws[n].calls[c]) {
        if c in ws[n - 1].calls { assert CallOk(ws, n - 1, ws[n - 1].calls[c]); }
      }
    }
  }

  /** However calls interleave (an older read stored over a newer one, sweeps in
      between), what callerOf answers was true of the session at an instant no
      more than the TTL before the call began, and not after it returned. */
  lemma AnswerWasTrue(ws: seq<World>, es: seq<Event>, n: nat, c: nat)
    requires MemoRun(ws, es) && n < |ws| && c in ws[n].calls && ws[n].calls[c].Returned?
    ensures var r := ws[n].calls[c]; TrueWithin(ws, n, r.key, r.caller, r.began - TTL, r.ended)
  {
    RunOk(ws, es, n);
    assert CallOk(ws, n, ws[n].calls[c]);
  }

  // ---------- what the sweep is for ----------

  /** A full memo is left holding only what could still answer, and the new tag. */
  lemma SweptIsFresh(seen: Memo, key: Key, caller: Text, now: Time, k: Key, later: Time)
    requires |seen| >= SWEEP_AT && now <= later
    ensures var n := Remembered(seen, key, caller, now);
      && (k in n ==> k == key || (k in seen && n[k] == seen[k] && Fresh(seen[k], now)))
      && (k != key && k in seen && k !in n ==> Hit(seen, k, later) == None)
  {
  }
}
