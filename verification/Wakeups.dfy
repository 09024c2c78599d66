// The close-and-replace wakeup channel both stores use (agent-api/task.go,
// agent-api/delegation.go): an entry carries the channel its waiters block
// on, and every status change closes that channel and puts a fresh one in.
// Channels are numbered in the order they are made.
module Wakeups {
  import opened Ids

  /** What a waiter can see of one entry: its status and its current channel. */
  datatype Slot<S> = Slot(status: S, changed: nat)

  /** Every entry of a store, the channels already closed, and whose each
      channel is: channel c was made for the entry owners[c]. */
  datatype Board<S> = Board(slots: map<Id, Slot<S>>, closed: set<nat>, owners: seq<Id>)

  /** Every entry holds a channel made for it and not yet closed, so no two
      share one and none is ever closed twice (which panics in Go). */
  ghost predicate Sound<S>(b: Board<S>) {
    forall id :: id in b.slots ==>
      b.slots[id].changed < |b.owners| && b.owners[b.slots[id].changed] == id && b.slots[id].changed !in b.closed
  }

  /** One atomic step wakes exactly who it should: an entry whose status moved has
      its current channel closed and replaced, and an entry whose status did not
      keeps its channel (which Sound says is open). */
  ghost predicate Wakes<S>(before: Board<S>, after: Board<S>) {
    && |before.owners| <= |after.owners|
    && before.closed <= after.closed
    && forall id :: id in before.slots && id in after.slots ==>
         if after.slots[id].status == before.slots[id].status
         then after.slots[id].changed == before.slots[id].changed
         else before.slots[id].changed in after.closed && after.slots[id].changed >= |before.owners|
  }

  /** The entry's status moves: close-and-replace. */
  ghost function Signal<S>(b: Board<S>, id: Id, status: S): Board<S>
    requires id in b.slots
  {
    Board(b.slots[id := Slot(status, |b.owners|)], b.closed + {b.slots[id].changed}, b.owners + [id])
  }

  /** A new entry with a channel of its own. */
  ghost function Join<S>(b: Board<S>, id: Id, status: S): Board<S> {
    Board(b.slots[id := Slot(status, |b.owners|)], b.closed, b.owners + [id])
  }

  /** The channels closed are channels that were made. */
  ghost predicate Made<S>(b: Board<S>) {
    forall c :: c in b.closed ==> c < |b.owners|
  }

  lemma SignalSound<S(!new)>(b: Board<S>, id: Id, status: S)
    requires Sound(b) && Made(b) && id in b.slots
    ensures Sound(Signal(b, id, status)) && Made(Signal(b, id, status))
    ensures status != b.slots[id].status ==> Wakes(b, Signal(b, id, status))
  {
  }

  lemma JoinSound<S(!new)>(b: Board<S>, id: Id, status: S)
    requires Sound(b) && Made(b) && id !in b.slots
    ensures Sound(Join(b, id, status)) && Made(Join(b, id, status)) && Wakes(b, Join(b, id, status))
  {
  }

  /** Entries that leave take their channels with them, unclosed. */
  lemma DropsSound<S(!new)>(b: Board<S>, c: Board<S>)
    requires Sound(b) && Made(b) && c.closed == b.closed && c.owners == b.owners
    requires forall id :: id in c.slots ==> id in b.slots && c.slots[id] == b.slots[id]
    ensures Sound(c) && Made(c) && Wakes(b, c)
  {
  }

  /** Entries that only leave after a step do not undo what it woke. */
  lemma WakesThenDrops<S(!new)>(a: Board<S>, b: Board<S>, c: Board<S>)
    requires Wakes(a, b) && Wakes(b, c)
    requires forall id :: id in c.slots ==> id in b.slots && c.slots[id] == b.slots[id]
    ensures Wakes(a, c)
  {
  }

  /** An entry leaves only once it has ended, or with its channel closed in the
      same step. */
  ghost predicate Leaves<S(!new)>(before: Board<S>, after: Board<S>, ended: S -> bool) {
    forall id :: id in before.slots && id !in after.slots ==>
      ended(before.slots[id].status) || before.slots[id].changed in after.closed
  }

  ghost predicate BoardRun<S(!new)>(boards: seq<Board<S>>, ended: S -> bool) {
    && (forall k :: 0 <= k < |boards| ==> Sound(boards[k]))
    && (forall k :: 0 < k < |boards| ==> Wakes(boards[k - 1], boards[k]) && Leaves(boards[k - 1], boards[k], ended))
  }

  /** No lost wakeup: a waiter that took its snapshot and its channel in one
      critical section, of an entry that had not ended, and is still blocked on
      that channel later, waits on an entry that is still there and has not moved
      at any moment since. Put the other way round, once the status moves, or the
      entry is pruned, the very channel the waiter holds has been closed. */
  lemma {:induction false} NoLostWakeup<S(!new)>(boards: seq<Board<S>>, id: Id, ended: S -> bool)
    requires boards != [] && BoardRun(boards, ended)
    requires id in boards[0].slots && !ended(boards[0].slots[id].status)
    requires boards[0].slots[id].changed !in boards[|boards| - 1].closed
    ensures forall k :: 0 <= k < |boards| ==> id in boards[k].slots && boards[k].slots[id] == boards[0].slots[id]
  {
    var n := |boards| - 1;
    if n > 0 {
      var init := boards[..n];
      assert forall k :: 0 <= k < n ==> init[k] == boards[k];
      assert Wakes(boards[n - 1], boards[n]) && Leaves(boards[n - 1], boards[n], ended);
      NoLostWakeup(init, id, ended);
    }
  }
}
