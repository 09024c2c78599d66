// TaskStore (agent-api/task.go) as it is written: a map, an order slice pruned
// in place, close-and-replace wakeup channels and a cancel channel per task.
// Every method is one lock-held region and is proved to take the step of module
// Tasks, to wake exactly the waiters whose task moved, and to drop no task that
// has not finished. Channels are numbered, as in module Wakeups; the clock's
// readings are inputs, and a new task's id is one nobody holds.
module TaskStores {
  import opened Ids
  import opened Options
  import opened Wakeups
  import opened Tasks

  datatype Entry = Entry(task: Task, changed: nat)

  type Entries = map<Id, Entry>

  ghost function TasksOf(m: Entries): Table {
    map id | id in m :: m[id].task
  }

  ghost function BoardOf(m: Entries, closed: set<nat>, owners: seq<Id>): Board<Status> {
    Board(map id | id in m :: Slot(m[id].task.status, m[id].changed), closed, owners)
  }

  ghost predicate Ok(order: seq<Id>, m: Entries, closed: set<nat>, owners: seq<Id>) {
    && WellFormed(Store(order, TasksOf(m)))
    && Sound(BoardOf(m, closed, owners)) && Made(BoardOf(m, closed, owners))
  }

  /** One region wakes exactly who it should, and an entry it drops has finished or
      had its waiters woken. */
  ghost predicate WaitersSafe(before: Board<Status>, after: Board<Status>) {
    Wakes(before, after) && Leaves(before, after, Terminal)
  }

  /** Over any run of this store's regions, prunes included: a waiter whose snapshot
      had not ended, still blocked on the channel it took with it, waits on an
      entry that is there and has not moved. */
  lemma NoWaiterLeft(boards: seq<Board<Status>>, id: Id)
    requires boards != [] && forall k :: 0 <= k < |boards| ==> Sound(boards[k])
    requires forall k :: 0 < k < |boards| ==> WaitersSafe(boards[k - 1], boards[k])
    requires id in boards[0].slots && !Terminal(boards[0].slots[id].status)
    requires boards[0].slots[id].changed !in boards[|boards| - 1].closed
    ensures forall k :: 0 <= k < |boards| ==> id in boards[k].slots && boards[k].slots[id] == boards[0].slots[id]
  {
    assert BoardRun(boards, Terminal);
    NoLostWakeup(boards, id, Terminal);
  }

  lemma StaySafe(b: Board<Status>)
    ensures WaitersSafe(b, b)
  {
  }

  lemma NamedAs(order: seq<Id>, m: Entries, closed: set<nat>, owners: seq<Id>, id: Id)
    requires Ok(order, m, closed, owners) && id in m
    ensures m[id].task.id == id && m[id].changed !in closed
  {
    assert TasksOf(m)[id].id == id;
    assert BoardOf(m, closed, owners).slots[id].changed !in closed;
  }

  lemma Updated(m: Entries, closed: set<nat>, owners: seq<Id>, id: Id, e: Entry)
    ensures TasksOf(m[id := e]) == TasksOf(m)[id := e.task]
    ensures BoardOf(m[id := e], closed, owners).slots
         == BoardOf(m, closed, owners).slots[id := Slot(e.task.status, e.changed)]
  {
  }

  /** A task whose status moved: the old channel closes, a fresh one takes its place. */
  lemma MoveOk(order: seq<Id>, m: Entries, closed: set<nat>, owners: seq<Id>, t: Task)
    requires Ok(order, m, closed, owners) && t.id in m && t.status != m[t.id].task.status
    ensures var n := m[t.id := Entry(t, |owners|)];
      var shut, given := closed + {m[t.id].changed}, owners + [t.id];
      && TasksOf(n) == TasksOf(m)[t.id := t] && Ok(order, n, shut, given)
      && WaitersSafe(BoardOf(m, closed, owners), BoardOf(n, shut, given))
  {
    hide Distinct, IdSet;
    var b := BoardOf(m, closed, owners);
    var n := m[t.id := Entry(t, |owners|)];
    Updated(m, closed, owners, t.id, Entry(t, |owners|));
    SignalSound(b, t.id, t.status);
    assert BoardOf(n, closed + {m[t.id].changed}, owners + [t.id]) == Signal(b, t.id, t.status);
    assert TasksOf(n).Keys == TasksOf(m).Keys;
  }

  /** A change that is not of status touches no channel. */
  lemma TouchOk(order: seq<Id>, m: Entries, closed: set<nat>, owners: seq<Id>, t: Task)
    requires Ok(order, m, closed, owners) && t.id in m && t.status == m[t.id].task.status
    ensures var n := m[t.id := Entry(t, m[t.id].changed)];
      && TasksOf(n) == TasksOf(m)[t.id := t] && Ok(order, n, closed, owners)
      && WaitersSafe(BoardOf(m, closed, owners), BoardOf(n, closed, owners))
  {
    var n := m[t.id := Entry(t, m[t.id].changed)];
    Updated(m, closed, owners, t.id, Entry(t, m[t.id].changed));
    assert BoardOf(n, closed, owners) == BoardOf(m, closed, owners);
    assert TasksOf(n).Keys == TasksOf(m).Keys;
  }

  lemma JoinOk(order: seq<Id>, m: Entries, closed: set<nat>, owners: seq<Id>, t: Task)
    requires Ok(order, m, closed, owners) && t.id !in m
    ensures var n := m[t.id := Entry(t, |owners|)];
      && TasksOf(n) == TasksOf(m)[t.id := t]
      && Ok(order + [t.id], n, closed, owners + [t.id])
      && WaitersSafe(BoardOf(m, closed, owners), BoardOf(n, closed, owners + [t.id]))
  {
    hide Distinct, IdSet;
    var b := BoardOf(m, closed, owners);
    var n := m[t.id := Entry(t, |owners|)];
    Updated(m, closed, owners, t.id, Entry(t, |owners|));
    JoinSound(b, t.id, t.status);
    assert BoardOf(n, closed, owners + [t.id]) == Join(b, t.id, t.status);
    Append(order, t.id);
    assert TasksOf(n).Keys == TasksOf(m).Keys + {t.id};
  }

  // ---------- pruning ----------

  ghost function Kept(m: Entries, kept: seq<Id>): Entries {
    map id | id in m && id in kept :: m[id]
  }

  lemma OrderIsKeys(order: seq<Id>, m: Entries, closed: set<nat>, owners: seq<Id>)
    requires Ok(order, m, closed, owners)
    ensures forall id :: id in order <==> id in m
    ensures TasksOf(m).Keys == m.Keys && |TasksOf(m)| == |m|
  {
    OrderIs(Store(order, TasksOf(m)));
  }

  lemma KeptIs(order: seq<Id>, m: Entries, closed: set<nat>, owners: seq<Id>, max: int)
    requires Ok(order, m, closed, owners) && 0 < max < |m|
    requires TasksOf(m).Keys == m.Keys && |TasksOf(m)| == |m|
    requires forall id :: id in order <==> id in m
    ensures var kept := Pruned(order, TasksOf(m), |m| - max);
      Store(kept, TasksOf(Kept(m, kept))) == Prune(Store(order, TasksOf(m)), max)
  {
    hide Ok, Distinct, IdSet;
    var kept := Pruned(order, TasksOf(m), |m| - max);
    assert TasksOf(Kept(m, kept)) == Restrict(TasksOf(m), kept);
  }

  lemma KeptOk(order: seq<Id>, m: Entries, closed: set<nat>, owners: seq<Id>, max: int)
    requires Ok(order, m, closed, owners) && 0 < max < |m|
    requires TasksOf(m).Keys == m.Keys
    requires forall id :: id in order <==> id in m
    ensures var kept := Pruned(order, TasksOf(m), |m| - max); var n := Kept(m, kept);
      && Ok(kept, n, closed, owners)
      && WaitersSafe(BoardOf(m, closed, owners), BoardOf(n, closed, owners))
  {
    KeptIs(order, m, closed, owners, max);
    PruneWellFormed(Store(order, TasksOf(m)), max);
    var kept := Pruned(order, TasksOf(m), |m| - max);
    assert WellFormed(Store(kept, TasksOf(Kept(m, kept))));
    DropsSound(BoardOf(m, closed, owners), BoardOf(Kept(m, kept), closed, owners));
    OnlyFinishedGo(order, m, closed, owners, max);
    hide Wakes, Sound, Made, Distinct, IdSet, Pruned, Leaves;
  }

  /** Prune leaves no waiter behind: a task it drops had finished. */
  lemma OnlyFinishedGo(order: seq<Id>, m: Entries, closed: set<nat>, owners: seq<Id>, max: int)
    requires TasksOf(m).Keys == m.Keys && forall id :: id in order <==> id in m
    ensures var kept := Pruned(order, TasksOf(m), |m| - max);
      Leaves(BoardOf(m, closed, owners), BoardOf(Kept(m, kept), closed, owners), Terminal)
  {
    var kept := Pruned(order, TasksOf(m), |m| - max);
    forall id | id in m && id !in Kept(m, kept) ensures Terminal(m[id].task.status) {
      PrunedTerminal(order, TasksOf(m), |m| - max, id);
      assert TasksOf(m)[id].status == m[id].task.status;
    }
    var b, c := BoardOf(m, closed, owners), BoardOf(Kept(m, kept), closed, owners);
    assert forall id :: id in b.slots ==> b.slots[id].status == m[id].task.status;
  }

  /** The entries left after prune's loop has gone through an order. */
  ghost function Dropped(order: seq<Id>, m: Entries, left: Entries, over: int): Entries
    requires forall id :: id in order ==> id in m
  {
    if order == [] then left else
    assert order[0] in order;
    if over > 0 && Terminal(m[order[0]].task.status) then Dropped(order[1..], m, left - {order[0]}, over - 1)
    else Dropped(order[1..], m, left, over)
  }

  lemma {:induction false} DroppedIs(order: seq<Id>, m: Entries, left: Entries, over: int)
    requires Distinct(order) && forall id :: id in order ==> id in m
    requires TasksOf(m).Keys == m.Keys
    ensures var d, kept := Dropped(order, m, left, over), Pruned(order, TasksOf(m), over);
      forall id :: (id in d <==> id in left && (id in order ==> id in kept)) && (id in d ==> d[id] == left[id])
  {
    if order != [] {
      assert order == [order[0]] + order[1..] && order[0] in order;
      DistinctFromFront(order);
      if over > 0 && Terminal(m[order[0]].task.status) {
        DroppedIs(order[1..], m, left - {order[0]}, over - 1);
      } else {
        DroppedIs(order[1..], m, left, over);
      }
    }
  }

  /** What prune's loop does with one task. */
  lemma OldestNext(m: Entries, order: seq<Id>, i: nat, over: int, kept: seq<Id>, left: Entries)
    requires i < |order| && TasksOf(m).Keys == m.Keys && forall id :: id in order ==> id in m
    ensures forall id :: id in order[i..] ==> id in m
    ensures forall id :: id in order[i + 1..] ==> id in m
    ensures var id := order[i];
      if over > 0 && Terminal(m[id].task.status) then
        && kept + Pruned(order[i..], TasksOf(m), over) == kept + Pruned(order[i + 1..], TasksOf(m), over - 1)
        && Dropped(order[i..], m, left, over) == Dropped(order[i + 1..], m, left - {id}, over - 1)
      else
        && kept + Pruned(order[i..], TasksOf(m), over) == kept + [id] + Pruned(order[i + 1..], TasksOf(m), over)
        && Dropped(order[i..], m, left, over) == Dropped(order[i + 1..], m, left, over)
  {
    var id, rest := order[i], order[i + 1..];
    assert order[i..] == [id] + rest && order[i..][1..] == rest && id in order[i..];
    assert TasksOf(m)[id].status == m[id].task.status;
  }

  lemma OldestEnds(m: Entries, order: seq<Id>, over: int, left: Entries)
    ensures order[0..] == order && order[|order|..] == []
    ensures Pruned([], TasksOf(m), over) == [] && Dropped([], m, left, over) == left
  {
  }

  /** prune's loop over the order slice. */
  method DropOldest(m: Entries, order: seq<Id>, max: int) returns (kept: seq<Id>, left: Entries)
    requires Distinct(order) && 0 < max < |m| && TasksOf(m).Keys == m.Keys
    requires forall id :: id in order <==> id in m
    ensures kept == Pruned(order, TasksOf(m), |m| - max)
    ensures left == Kept(m, kept)
  {
    hide Distinct, IdSet, Kept, Pruned, Dropped, TasksOf;
    OldestEnds(m, order, 0, m);
    kept, left := [], m;
    var over := |m| - max;
    ghost var all := Pruned(order, TasksOf(m), over);
    assert all == [] + all;
    var i := 0;
    while i < |order|
      invariant 0 <= i <= |order| && forall id :: id in order[i..] ==> id in m
      invariant all == kept + Pruned(order[i..], TasksOf(m), over)
      invariant Dropped(order, m, m, |m| - max) == Dropped(order[i..], m, left, over)
    {
      OldestNext(m, order, i, over, kept, left);
      var id := order[i];
      if over > 0 && Terminal(m[id].task.status) {
        left := left - {id};
        over := over - 1;
      } else {
        kept := kept + [id];
      }
      i := i + 1;
    }
    OldestEnds(m, order, over, left);
    assert kept + [] == kept;
    DroppedIsKept(order, m, |m| - max);
  }

  lemma DroppedIsKept(order: seq<Id>, m: Entries, over: int)
    requires Distinct(order) && TasksOf(m).Keys == m.Keys && forall id :: id in order <==> id in m
    ensures Dropped(order, m, m, over) == Kept(m, Pruned(order, TasksOf(m), over))
  {
    DroppedIs(order, m, m, over);
  }

  /** prune, once there is something over. */
  method PruneEntries(order: seq<Id>, m: Entries, ghost closed: set<nat>, ghost owners: seq<Id>, max: int)
    returns (kept: seq<Id>, left: Entries)
    requires Ok(order, m, closed, owners) && 0 < max < |m|
    ensures forall id :: id in order ==> id in TasksOf(m)
    ensures Ok(kept, left, closed, owners) && WaitersSafe(BoardOf(m, closed, owners), BoardOf(left, closed, owners))
    ensures Store(kept, TasksOf(left)) == Tasks.Prune(Store(order, TasksOf(m)), max)
  {
    OrderIsKeys(order, m, closed, owners);
    KeptIs(order, m, closed, owners, max);
    KeptOk(order, m, closed, owners, max);
    kept, left := DropOldest(m, order, max);
  }

  /** The answer a task view serves: the question while waiting, the result once
      done, the error once failed, and nothing else. */
  datatype View = View(id: Id, conv: Text, status: Status, question: Question, result: Text, background: bool,
                       error: Text, hasDetail: bool, created: Time, updated: Time)

  datatype Hub = Hub(order: seq<Id>, byID: Entries, closed: set<nat>, owners: seq<Id>)

  /** What a prune keeps keeps its channel. */
  lemma PrunedSlots(a: Hub, b: Hub, max: int)
    requires WellFormed(Store(a.order, TasksOf(a.byID)))
    requires forall id :: id in a.order ==> id in TasksOf(a.byID)
    requires Store(b.order, TasksOf(b.byID)) == Tasks.Prune(Store(a.order, TasksOf(a.byID)), max)
    requires WaitersSafe(BoardOf(a.byID, a.closed, a.owners), BoardOf(b.byID, b.closed, b.owners))
    ensures var p, q := BoardOf(a.byID, a.closed, a.owners), BoardOf(b.byID, b.closed, b.owners);
      forall id :: id in q.slots ==> id in p.slots && q.slots[id] == p.slots[id]
  {
    var p, q := BoardOf(a.byID, a.closed, a.owners), BoardOf(b.byID, b.closed, b.owners);
    forall id | id in q.slots ensures id in p.slots && q.slots[id] == p.slots[id] {
      PruneKeeps(Store(a.order, TasksOf(a.byID)), max, id);
      assert TasksOf(b.byID)[id] == TasksOf(a.byID)[id];
    }
  }

  /** Add, and what the store is asked for afterwards. */
  lemma AddShape(s: Store, t: Task, now: Time, max: int)
    requires WellFormed(s) && t.id !in s.byID
    ensures var n := Tasks.Add(s, t, now, max);
      && t.id in n.byID && Fresh(t, now, n.byID[t.id]) && n.byID.Keys <= s.byID.Keys + {t.id}
      && forall i, j :: 0 <= i < j < |n.order| ==> Before(s.order + [t.id], n.order[i], n.order[j])
  {
    hide WellFormed, Tasks.Add, Fresh, Before;
    forall id { AddKeeps(s, t, now, max, id); }
    forall i: nat, j: nat | i < j < |Tasks.Add(s, t, now, max).order| { AddInOrder(s, t, now, max, i, j); }
  }

  function ViewOf(t: Task): (v: View)
    ensures v.id == t.id && v.conv == t.conv && v.status == t.status
    ensures v.created == t.created && v.updated == t.updated && (v.hasDetail <==> t.status != Accepted)
    ensures v.question != NO_QUESTION ==> t.status == NeedsInput
    ensures v.result != EMPTY || v.background ==> t.status == Done
    ensures v.error != EMPTY ==> t.status == Failed
    ensures t.status == NeedsInput ==> v.question == t.question
    ensures t.status == Done ==> v.result == t.result && v.background == t.background
    ensures t.status == Failed ==> v.error == t.error
  {
    View(t.id, t.conv, t.status,
         if t.status == NeedsInput then t.question else NO_QUESTION,
         if t.status == Done then t.result else EMPTY,
         t.status == Done && t.background,
         if t.status == Failed then t.error else EMPTY,
         t.status != Accepted, t.created, t.updated)
  }

  datatype WaitPass = Missing | Settled(view: View) | Block(view: View, held: nat)

  class TaskStore {
    var byID: Entries
    var order: seq<Id>
    const max: int
    // The wakeup channels, numbered: those closed, and whose each one is.
    var closed: set<nat>
    var owners: seq<Id>
    // The tasks whose cancel channel is closed.
    var stopped: set<Id>

    ghost function Contents(): Store
      reads this`order, this`byID
    {
      Store(order, TasksOf(byID))
    }

    ghost predicate Valid()
      reads this`order, this`byID, this`closed, this`owners
    {
      Ok(order, byID, closed, owners)
    }

    constructor (max: int)
      ensures Valid() && Contents() == Store([], map[]) && stopped == {} && this.max == max
    {
      byID, order, closed, owners, stopped := map[], [], {}, [], {};
      this.max := max;
    }

    /** A status that moved, and t.signal. */
    method Move(t: Task)
      requires Valid() && t.id in byID && t.status != byID[t.id].task.status
      modifies this`byID, this`closed, this`owners
      ensures Valid() && WaitersSafe(old(BoardOf(byID, closed, owners)), BoardOf(byID, closed, owners))
      ensures TasksOf(byID) == TasksOf(old(byID))[t.id := t]
      ensures closed == old(closed) + {old(byID[t.id].changed)}
    {
      MoveOk(order, byID, closed, owners, t);
      closed := closed + {byID[t.id].changed};
      byID := byID[t.id := Entry(t, |owners|)];
      owners := owners + [t.id];
    }

    /** Update: a change of status the machine allows, or nothing. */
    method Update(id: Id, next: Status, fill: Fill, now: Time) returns (took: bool)
      requires Valid()
      modifies this`byID, this`closed, this`owners
      ensures Valid() && WaitersSafe(old(BoardOf(byID, closed, owners)), BoardOf(byID, closed, owners))
      ensures took == Takes(old(Contents()), id, next)
      ensures Contents() == Tasks.Update(old(Contents()), id, next, fill, now)
      ensures took <==> MayGo(TasksOf(old(byID)), id, next)
      ensures Updates(TasksOf(old(byID)), TasksOf(byID), id, next, fill, now)
    {
      UpdateKeeps(Contents(), id, next, fill, now, id);
      StaySafe(BoardOf(byID, closed, owners));
      if id !in byID || !CanGo(byID[id].task.status, next) { return false; }
      NamedAs(order, byID, closed, owners, id);
      Move(Filled(byID[id].task.(status := next, updated := now), fill));
      return true;
    }

    /** SetQuestion: replaces the question of a waiting task, waking nobody. */
    method SetQuestion(id: Id, q: Question) returns (took: bool)
      requires Valid()
      modifies this`byID
      ensures Valid() && WaitersSafe(old(BoardOf(byID, closed, owners)), BoardOf(byID, closed, owners))
      ensures took == (id in old(byID) && old(byID)[id].task.status == NeedsInput)
      ensures Contents() == Tasks.SetQuestion(old(Contents()), id, q)
      ensures Requestions(TasksOf(old(byID)), TasksOf(byID), id, q)
    {
      SetQuestionKeeps(Contents(), id, q, id);
      StaySafe(BoardOf(byID, closed, owners));
      if id !in byID || byID[id].task.status != NeedsInput { return false; }
      NamedAs(order, byID, closed, owners, id);
      TouchOk(order, byID, closed, owners, byID[id].task.(question := q));
      byID := byID[id := Entry(byID[id].task.(question := q), byID[id].changed)];
      return true;
    }

    /** Add: a new accepted task, and then the prune. Its id is new. */
    method Add(t: Task, now: Time)
      requires Valid() && t.id !in byID
      modifies this`order, this`byID, this`owners
      ensures Valid() && WaitersSafe(old(BoardOf(byID, closed, owners)), BoardOf(byID, closed, owners))
      ensures WellFormed(old(Contents())) && t.id !in old(Contents()).byID
      ensures Contents() == Tasks.Add(old(Contents()), t, now, max)
      ensures t.id in TasksOf(byID) && Fresh(t, now, TasksOf(byID)[t.id])
      ensures TasksOf(byID).Keys <= TasksOf(old(byID)).Keys + {t.id}
      ensures forall i, j :: 0 <= i < j < |order| ==> Before(old(order) + [t.id], order[i], order[j])
    {
      AddShape(Contents(), t, now, max);
      hide Before, Fresh, Ok, Sound, Made;
      Join(t.(status := Accepted, created := now, updated := now));
      ghost var mid := Hub(order, byID, closed, owners);
      Prune();
      PrunedSlots(mid, Hub(order, byID, closed, owners), max);
      WakesThenDrops(
        old(BoardOf(byID, closed, owners)), BoardOf(mid.byID, mid.closed, mid.owners), BoardOf(byID, closed, owners));
    }

    /** A new entry in the map and at the end of the order. */
    method Join(t: Task)
      requires Valid() && t.id !in byID
      modifies this`order, this`byID, this`owners
      ensures Valid() && WaitersSafe(old(BoardOf(byID, closed, owners)), BoardOf(byID, closed, owners))
      ensures order == old(order) + [t.id] && TasksOf(byID) == TasksOf(old(byID))[t.id := t]
    {
      JoinOk(order, byID, closed, owners, t);
      byID := byID[t.id := Entry(t, |owners|)];
      owners := owners + [t.id];
      order := order + [t.id];
    }

    /** prune: the oldest terminal tasks go until the store fits. */
    method Prune()
      requires Valid()
      modifies this`order, this`byID
      ensures Valid() && WaitersSafe(old(BoardOf(byID, closed, owners)), BoardOf(byID, closed, owners))
      ensures forall id :: id in old(order) ==> id in old(Contents()).byID
      ensures Contents() == Tasks.Prune(old(Contents()), max)
    {
      hide Ok, WaitersSafe, Sound, Made, Distinct, IdSet, Pruned;
      OrderIsKeys(order, byID, closed, owners);
      StaySafe(BoardOf(byID, closed, owners));
      if max > 0 && |byID| > max {
        var kept, left := PruneEntries(order, byID, closed, owners, max);
        order := kept;
        byID := left;
      }
    }

    /** Cancel's region under the lock: the status. When it says so, CloseCancel
        follows, with the lock let go. */
    method Cancel(id: Id, now: Time) returns (cancelled: bool, wasLive: bool)
      requires Valid()
      modifies this`byID, this`closed, this`owners
      ensures Valid() && WaitersSafe(old(BoardOf(byID, closed, owners)), BoardOf(byID, closed, owners))
      ensures cancelled == Takes(old(Contents()), id, Cancelled)
      ensures wasLive == (cancelled && Live(old(byID)[id].task.status))
      ensures Contents() == Tasks.Update(old(Contents()), id, Cancelled, Nothing, now)
      ensures cancelled <==> MayGo(TasksOf(old(byID)), id, Cancelled)
      ensures Updates(TasksOf(old(byID)), TasksOf(byID), id, Cancelled, Nothing, now)
      ensures cancelled ==> id in TasksOf(old(byID))
      ensures cancelled ==>
        TasksOf(byID) == TasksOf(old(byID))[id := TasksOf(old(byID))[id].(status := Cancelled, updated := now)]
    {
      hide Ok, WaitersSafe, WellFormed, Sound, Made, Updates;
      UpdateKeeps(Contents(), id, Cancelled, Nothing, now, id);
      StaySafe(BoardOf(byID, closed, owners));
      if id !in byID || !CanGo(byID[id].task.status, Cancelled) { return false, false; }
      NamedAs(order, byID, closed, owners, id);
      var t := byID[id].task;
      Move(t.(status := Cancelled, updated := now));
      return true, t.status == Running || t.status == NeedsInput;
    }

    /** Cancel's last step: the channel the task's turn watches closes. */
    method CloseCancel(id: Id)
      modifies this`stopped
      ensures stopped == old(stopped) + {id}
    {
      stopped := stopped + {id};
    }

    /** Cancelled: whether the channel a task's runner watches is closed. */
    method IsCancelled(id: Id) returns (c: bool)
      ensures c == (id !in byID || id in stopped)
    {
      return id !in byID || id in stopped;
    }

    method Get(id: Id) returns (v: Option<View>)
      ensures v == if id in byID then Some(ViewOf(byID[id].task)) else None
    {
      if id !in byID { return None; }
      return Some(ViewOf(byID[id].task));
    }

    /** One pass of Wait under the lock. A waiter that blocks holds the open,
        current channel of a task still in the status it saw. */
    method Wait(id: Id, settled: Status -> bool) returns (w: WaitPass)
      requires Valid()
      ensures w.Missing? <==> id !in byID
      ensures !w.Missing? ==> w.view == ViewOf(byID[id].task) && (w.Settled? <==> settled(w.view.status))
      ensures w.Block? ==> w.held == byID[id].changed && w.held !in closed
    {
      if id !in byID { return Missing; }
      var e := byID[id];
      NamedAs(order, byID, closed, owners, id);
      if settled(e.task.status) { return Settled(ViewOf(e.task)); }
      return Block(ViewOf(e.task), e.changed);
    }

    /** CancelOpen: every unfinished task of the conversation, in the order sent. */
    method CancelOpen(osUser: Text, conv: Text, now: Time) returns (out: seq<Id>)
      requires Valid()
      modifies this`byID, this`closed, this`owners, this`stopped
      ensures Valid()
      ensures out == OpenOf(order, TasksOf(old(byID)), osUser, conv)
      ensures TasksOf(byID) == CancelAll(TasksOf(old(byID)), out, now)
      ensures stopped == old(stopped) + IdSet(out)
      // Exactly the conversation's unfinished tasks, in the order they were sent.
      ensures forall id :: id in out <==> Unfinished(TasksOf(old(byID)), osUser, conv, id)
      ensures forall i, j :: 0 <= i < j < |out| ==> Before(order, out[i], out[j])
      ensures CancelledIn(TasksOf(old(byID)), TasksOf(byID), osUser, conv, now)
    {
      hide CancelledIn, Unfinished, Before, Sound, Made, WaitersSafe, CancelAll;
      OpenShape(order, TasksOf(byID), osUser, conv, now);
      var ids := OpenIds(byID, order, osUser, conv);
      OpenOfIs(order, TasksOf(byID), osUser, conv);
      out := CancelEach(ids, now);
    }

    /** CancelOpen's second loop. Nothing finished in between here, so every id
        is cancelled by its own call and reported. */
    method CancelEach(ids: seq<Id>, now: Time) returns (out: seq<Id>)
      requires Valid() && Distinct(ids)
      requires forall id :: id in IdSet(ids) ==> id in TasksOf(byID) && !Terminal(TasksOf(byID)[id].status)
      modifies this`byID, this`closed, this`owners, this`stopped
      ensures Valid() && out == ids
      ensures TasksOf(byID) == CancelAll(TasksOf(old(byID)), ids, now)
      ensures stopped == old(stopped) + IdSet(ids)
    {
      hide Updates, Ok, WaitersSafe, Sound, Made, Distinct, WellFormed;
      ghost var m := TasksOf(byID);
      out := [];
      var i := 0;
      while i < |ids|
        invariant 0 <= i <= |ids| && Valid()
        invariant out == ids[..i] && stopped == old(stopped) + IdSet(out)
        invariant TasksOf(byID) == CancelAll(m, out, now)
      {
        InIdSet(ids, i);
        CancelStep(m, ids, i, now);
        ghost var next := ids[..i + 1];
        assert next == out + [ids[i]];
        var cancelled, _ := Cancel(ids[i], now);
        if cancelled {
          CloseCancel(ids[i]);
          out := out + [ids[i]];
        }
        i := i + 1;
      }
      assert ids[..i] == ids;
    }
  }

  /** CancelOpen's first loop. */
  method OpenIds(m: Entries, order: seq<Id>, osUser: Text, conv: Text) returns (ids: seq<Id>)
    ensures ids == OpenOf(order, TasksOf(m), osUser, conv)
  {
    ids := [];
    var i := 0;
    while i < |order|
      invariant 0 <= i <= |order| && ids == OpenOf(order[..i], TasksOf(m), osUser, conv)
    {
      var id := order[i];
      assert order[..i + 1][..i] == order[..i];
      if id in m && m[id].task.osUser == osUser && m[id].task.conv == conv && !Terminal(m[id].task.status) {
        ids := ids + [id];
      }
      i := i + 1;
    }
    assert order[..i] == order;
  }

  function OpenOf(order: seq<Id>, m: Table, osUser: Text, conv: Text): seq<Id> {
    if order == [] then [] else
    var id := order[|order| - 1];
    var ids := OpenOf(order[..|order| - 1], m, osUser, conv);
    if id in m && m[id].osUser == osUser && m[id].conv == conv && !Terminal(m[id].status) then ids + [id] else ids
  }

  lemma {:induction false} OpenOfIs(order: seq<Id>, m: Table, osUser: Text, conv: Text)
    requires Distinct(order)
    ensures var ids := OpenOf(order, m, osUser, conv);
      && Distinct(ids)
      && forall id :: id in IdSet(ids) <==>
           id in IdSet(order) && id in m && m[id].osUser == osUser && m[id].conv == conv && !Terminal(m[id].status)
  {
    if order != [] {
      OpenOfIs(order[..|order| - 1], m, osUser, conv);
      Append(OpenOf(order[..|order| - 1], m, osUser, conv), order[|order| - 1]);
    }
  }

  predicate Unfinished(m: Table, osUser: Text, conv: Text, id: Id) {
    && id in m && m[id].osUser == osUser && m[id].conv == conv
    && (m[id].status == Accepted || m[id].status == Running || m[id].status == NeedsInput)
  }

  /** The conversation's unfinished tasks are cancelled, and no other is touched. */
  ghost predicate CancelledIn(m: Table, n: Table, osUser: Text, conv: Text, now: Time) {
    && n.Keys == m.Keys
    && forall id :: id in m ==>
         n[id] == if Unfinished(m, osUser, conv, id) then m[id].(status := Cancelled, updated := now) else m[id]
  }

  lemma {:induction false} OpenInOrder(order: seq<Id>, m: Table, osUser: Text, conv: Text, i: nat, j: nat)
    requires i < j < |OpenOf(order, m, osUser, conv)|
    ensures Before(order, OpenOf(order, m, osUser, conv)[i], OpenOf(order, m, osUser, conv)[j])
  {
    var n := |order| - 1;
    var out, rest := OpenOf(order, m, osUser, conv), OpenOf(order[..n], m, osUser, conv);
    if j < |rest| {
      OpenInOrder(order[..n], m, osUser, conv, i, j);
      var a, b :| 0 <= a < b < n && order[..n][a] == out[i] && order[..n][b] == out[j];
      assert order[a] == out[i] && order[b] == out[j];
    } else {
      OpenAmong(order[..n], m, osUser, conv, i);
      var a :| 0 <= a < n && order[..n][a] == rest[i];
      assert order[a] == out[i] && order[n] == out[j];
    }
  }

  lemma {:induction false} OpenAmong(order: seq<Id>, m: Table, osUser: Text, conv: Text, i: nat)
    requires i < |OpenOf(order, m, osUser, conv)|
    ensures OpenOf(order, m, osUser, conv)[i] in order
  {
    var n := |order| - 1;
    if i < |OpenOf(order[..n], m, osUser, conv)| { OpenAmong(order[..n], m, osUser, conv, i); }
  }

  /** What CancelOpen comes to. */
  lemma OpenShape(order: seq<Id>, m: Table, osUser: Text, conv: Text, now: Time)
    requires Distinct(order) && IdSet(order) == m.Keys
    ensures var out := OpenOf(order, m, osUser, conv);
      && (forall id :: id in out <==> Unfinished(m, osUser, conv, id))
      && (forall i, j :: 0 <= i < j < |out| ==> Before(order, out[i], out[j]))
      && CancelledIn(m, CancelAll(m, out, now), osUser, conv, now)
  {
    hide Distinct, IdSet, Before, OpenOf, CancelAll;
    var out := OpenOf(order, m, osUser, conv);
    OpenOfIs(order, m, osUser, conv);
    CancelAllIs(m, out, now);
    forall id { IdSetIs(out, id); }
    forall i: nat, j: nat | i < j < |out| { OpenInOrder(order, m, osUser, conv, i, j); }
  }

  function CancelAll(m: Table, ids: seq<Id>, now: Time): Table {
    if ids == [] then m else
    var n := CancelAll(m, ids[..|ids| - 1], now);
    var id := ids[|ids| - 1];
    if id in n && CanGo(n[id].status, Cancelled) then n[id := n[id].(status := Cancelled, updated := now)] else n
  }

  lemma CancelStep(m: Table, ids: seq<Id>, i: nat, now: Time)
    requires Distinct(ids) && i < |ids| && ids[i] in m
    requires forall id :: id in IdSet(ids) ==> id in m && !Terminal(m[id].status)
    ensures var n, id := CancelAll(m, ids[..i], now), ids[i];
      && id in n && n[id] == m[id] && !Terminal(m[id].status)
      && CancelAll(m, ids[..i + 1], now) == n[id := n[id].(status := Cancelled, updated := now)]
      && IdSet(ids[..i + 1]) == IdSet(ids[..i]) + {id}
  {
    assert ids[..i + 1][..i] == ids[..i];
    CancelAllIs(m, ids[..i], now);
    Prefix(ids, i);
    InIdSet(ids, i);
  }

  lemma {:induction false} CancelAllIs(m: Table, ids: seq<Id>, now: Time)
    ensures var n := CancelAll(m, ids, now);
      && n.Keys == m.Keys
      && forall id :: id in m ==>
           n[id] == (if id in IdSet(ids) && !Terminal(m[id].status)
                     then m[id].(status := Cancelled, updated := now) else m[id])
  {
    if ids != [] { CancelAllIs(m, ids[..|ids| - 1], now); }
  }
}
