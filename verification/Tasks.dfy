// The task records of agent-api/task.go: the status machine, pruning, and what
// each lock-held region of TaskStore does.
module Tasks {
  import opened Ids

  type Time = int

  datatype Status = Accepted | Running | NeedsInput | Done | Failed | Cancelled

  predicate Terminal(s: Status) {
    s == Done || s == Failed || s == Cancelled
  }

  predicate CanGo(s: Status, next: Status) {
    if Terminal(s) || s == next then false else
    match s
    case Accepted => next == Running || next == NeedsInput || next == Done || next == Failed || next == Cancelled
    case Running => next == NeedsInput || next == Done || next == Failed || next == Cancelled
    case NeedsInput => next == Running || next == Done || next == Failed || next == Cancelled
    case _ => false
  }

  /** The prompt is in and the session has not finished with it. */
  predicate Live(s: Status) {
    s == Running || s == NeedsInput
  }

  /** What a blocked session is asking; tool names the dialog. */
  datatype Question = Question(kind: Text, text: Text, options: Text, answerWith: Text, tool: Text)

  const NO_QUESTION := Question(EMPTY, EMPTY, EMPTY, EMPTY, EMPTY)

  datatype Task = Task(
    id: Id, conv: Text, actor: Text, osUser: Text, text: Text,
    status: Status, question: Question, result: Text, background: bool, error: Text,
    created: Time, updated: Time)

  type Table = map<Id, Task>

  datatype Store = Store(order: seq<Id>, byID: Table)

  ghost predicate WellFormed(s: Store) {
    && Distinct(s.order) && IdSet(s.order) == s.byID.Keys
    && forall id :: id in s.byID ==> s.byID[id].id == id
  }

  // ---------- changes of status ----------

  /** What Update's callers fill in along with the status. */
  datatype Fill = Nothing | Asking(question: Question) | Answer(result: Text, background: bool) | Reason(error: Text)

  function Filled(t: Task, f: Fill): Task {
    match f
    case Nothing => t
    case Asking(q) => t.(question := q)
    case Answer(result, background) => t.(result := result, background := background)
    case Reason(error) => t.(error := error)
  }

  predicate Takes(s: Store, id: Id, next: Status) {
    id in s.byID && CanGo(s.byID[id].status, next)
  }

  function Update(s: Store, id: Id, next: Status, fill: Fill, now: Time): Store {
    if !Takes(s, id, next) then s
    else s.(byID := s.byID[id := Filled(s.byID[id].(status := next, updated := now), fill)])
  }

  /** SetQuestion: the session still waits, on something read again. */
  function SetQuestion(s: Store, id: Id, q: Question): Store {
    if id in s.byID && s.byID[id].status == NeedsInput then s.(byID := s.byID[id := s.byID[id].(question := q)]) else s
  }

  // ---------- adding and pruning ----------

  /** The order after dropping the `over` oldest terminal tasks, and how many of
      them there were not enough of. */
  function Pruned(order: seq<Id>, m: Table, over: int): (kept: seq<Id>)
    requires forall id :: id in order ==> id in m
    ensures |kept| <= |order|
    ensures forall id :: id in kept ==> id in order
  {
    if order == [] then [] else
    assert order[0] in order;
    if over > 0 && Terminal(m[order[0]].status) then Pruned(order[1..], m, over - 1)
    else [order[0]] + Pruned(order[1..], m, over)
  }

  function Restrict(m: Table, kept: seq<Id>): Table {
    map id | id in m && id in kept :: m[id]
  }

  function Prune(s: Store, max: int): Store
    requires forall id :: id in s.order ==> id in s.byID
  {
    if max <= 0 || |s.byID| <= max then s else
    var kept := Pruned(s.order, s.byID, |s.byID| - max);
    Store(kept, Restrict(s.byID, kept))
  }

  function NewTask(t: Task, now: Time): Task {
    t.(status := Accepted, created := now, updated := now)
  }

  function Appended(s: Store, t: Task, now: Time): Store {
    Store(s.order + [t.id], s.byID[t.id := NewTask(t, now)])
  }

  /** Live tasks all stay, and what goes is terminal. */
  lemma {:induction false} PrunedTerminal(order: seq<Id>, m: Table, over: int, id: Id)
    requires (forall x :: x in order ==> x in m) && id in order && id !in Pruned(order, m, over)
    ensures Terminal(m[id].status)
  {
    assert order == [order[0]] + order[1..] && order[0] in order;
    if !(over > 0 && Terminal(m[order[0]].status)) {
      PrunedTerminal(order[1..], m, over, id);
    } else if id != order[0] {
      PrunedTerminal(order[1..], m, over - 1, id);
    }
  }

  /** a comes before b. */
  predicate Before(order: seq<Id>, a: Id, b: Id) {
    exists i, j :: 0 <= i < j < |order| && order[i] == a && order[j] == b
  }

  lemma BeforeMore(first: Id, rest: seq<Id>, a: Id, b: Id)
    ensures Before(rest, a, b) || (a == first && b in rest) ==> Before([first] + rest, a, b)
  {
    var order := [first] + rest;
    assert forall k :: 0 <= k < |rest| ==> order[k + 1] == rest[k];
    assert order[0] == first;
    if Before(rest, a, b) {
      var i, j :| 0 <= i < j < |rest| && rest[i] == a && rest[j] == b;
      assert order[i + 1] == a && order[j + 1] == b;
    } else if a == first && b in rest {
      var j :| 0 <= j < |rest| && rest[j] == b;
      assert order[0] == a && order[j + 1] == b;
    }
  }

  /** What stays, stays in order. */
  lemma {:induction false} PrunedInOrder(order: seq<Id>, m: Table, over: int, i: nat, j: nat)
    requires forall id :: id in order ==> id in m
    requires i < j < |Pruned(order, m, over)|
    ensures Before(order, Pruned(order, m, over)[i], Pruned(order, m, over)[j])
  {
    var rest, kept := order[1..], Pruned(order, m, over);
    assert order == [order[0]] + rest && order[0] in order;
    BeforeMore(order[0], rest, kept[i], kept[j]);
    if over > 0 && Terminal(m[order[0]].status) {
      PrunedInOrder(rest, m, over - 1, i, j);
    } else if i > 0 {
      PrunedInOrder(rest, m, over, i - 1, j - 1);
    }
  }

  lemma {:induction false} PrunedDistinct(order: seq<Id>, m: Table, over: int)
    requires Distinct(order) && forall id :: id in order ==> id in m
    ensures Distinct(Pruned(order, m, over))
    ensures over <= 0 ==> Pruned(order, m, over) == order
  {
    DistinctFromFront(order);
    if order != [] {
      assert order == [order[0]] + order[1..] && order[0] in order;
      var drop := over > 0 && Terminal(m[order[0]].status);
      PrunedDistinct(order[1..], m, if drop then over - 1 else over);
      if !drop { DistinctCons(order[0], Pruned(order[1..], m, over)); }
    }
  }

  /** At most `over` go, and fewer only if no terminal task is left. */
  lemma {:induction false} PrunedCount(order: seq<Id>, m: Table, over: int)
    requires over >= 0 && forall id :: id in order ==> id in m
    ensures var kept := Pruned(order, m, over);
      && |order| - |kept| <= over
      && (|order| - |kept| < over ==> forall id :: id in kept ==> !Terminal(m[id].status))
  {
    if order != [] {
      assert order == [order[0]] + order[1..] && order[0] in order;
      var drop := over > 0 && Terminal(m[order[0]].status);
      PrunedCount(order[1..], m, if drop then over - 1 else over);
    }
  }

  /** The oldest go first: a terminal task older than one that goes, goes too. */
  lemma {:induction false} OldestFirst(order: seq<Id>, m: Table, over: int, i: nat, j: nat)
    requires Distinct(order) && (forall id :: id in order ==> id in m)
    requires i < j < |order| && order[j] !in Pruned(order, m, over) && Terminal(m[order[i]].status)
    ensures order[i] !in Pruned(order, m, over)
  {
    DistinctFromFront(order);
    var rest := order[1..];
    assert order == [order[0]] + rest && order[0] in order && order[j] == rest[j - 1];
    var drop := over > 0 && Terminal(m[order[0]].status);
    if i > 0 {
      assert order[i] == rest[i - 1];
      OldestFirst(rest, m, if drop then over - 1 else over, i - 1, j - 1);
    } else if !drop {
      assert over <= 0;
      PrunedDistinct(order, m, over);
    }
  }

  lemma {:induction false} DistinctFromFront(ids: seq<Id>)
    requires Distinct(ids)
    ensures ids != [] ==> Distinct(ids[1..]) && ids[0] !in ids[1..]
  {
    if |ids| > 1 {
      var n := |ids| - 1;
      DistinctFromFront(ids[..n]);
      assert ids[..n][1..] == ids[1..][..n - 1] && ids[1..][n - 1] == ids[n];
      IdSetIs(ids[..n], ids[0]);
      assert ids[0] in ids[..n];
      IdSetIs(ids[1..][..n - 1], ids[n]);
      IdSetIs(ids[..n], ids[n]);
      assert ids[1..] == ids[1..][..n - 1] + [ids[n]];
      assert ids[..n] == [ids[0]] + ids[1..][..n - 1];
    }
  }

  lemma {:induction false} DistinctCons(id: Id, ids: seq<Id>)
    requires Distinct(ids) && id !in ids
    ensures Distinct([id] + ids)
  {
    if ids != [] {
      var n := |ids| - 1;
      DistinctCons(id, ids[..n]);
      assert ([id] + ids)[..n + 1] == [id] + ids[..n];
      IdSetIs([id] + ids[..n], ids[n]);
      IdSetIs(ids[..n], ids[n]);
      assert ids[n] in ids;
    }
  }

  // ---------- what every step keeps ----------

  /** One step of the store, for one id: a finished task is frozen until it is
      dropped, only finished tasks are dropped, and the clock of a task moves
      exactly when its status does. */
  ghost predicate Keeps(s: Store, n: Store, id: Id) {
    id in s.byID ==>
      if id !in n.byID then Terminal(s.byID[id].status)
      else
        var t, u := s.byID[id], n.byID[id];
        && (u == t || (!Terminal(t.status)
              && (CanGo(t.status, u.status)
                  || (u.status == t.status == NeedsInput && u == t.(question := u.question)))))
        && u.(status := t.status, question := t.question, result := t.result, background := t.background,
              error := t.error, updated := t.updated) == t
        && (u.status == t.status ==> u.updated == t.updated)
  }

  /** A task that has not ended may go to any other status but accepted. */
  predicate MayGo(s: Table, id: Id, next: Status) {
    && id in s
    && (s[id].status == Accepted || s[id].status == Running || s[id].status == NeedsInput)
    && next != Accepted && next != s[id].status
  }

  /** The status asked for, the stamp of the change, what was filled in, and the
      rest of the task as it was. */
  predicate Moved(t: Task, next: Status, fill: Fill, now: Time, u: Task) {
    && u.status == next && u.updated == now
    && u.question == (if fill.Asking? then fill.question else t.question)
    && u.result == (if fill.Answer? then fill.result else t.result)
    && u.background == (if fill.Answer? then fill.background else t.background)
    && u.error == (if fill.Reason? then fill.error else t.error)
    && u.(status := t.status, updated := t.updated, question := t.question, result := t.result,
          background := t.background, error := t.error) == t
  }

  ghost predicate OthersSame(s: Table, n: Table, id: Id) {
    n.Keys == s.Keys && forall x :: x in s && x != id ==> n[x] == s[x]
  }

  /** A change of status: of that task alone, and of it only when it may go there. */
  ghost predicate Updates(s: Table, n: Table, id: Id, next: Status, fill: Fill, now: Time) {
    && OthersSame(s, n, id)
    && (id in s ==> if MayGo(s, id, next) then Moved(s[id], next, fill, now, n[id]) else n[id] == s[id])
  }

  /** A question read again: nothing but that, and only while the task waits. */
  ghost predicate Requestions(s: Table, n: Table, id: Id, q: Question) {
    && OthersSame(s, n, id)
    && (id in s ==> n[id].question == (if s[id].status == NeedsInput then q else s[id].question))
    && (id in s ==> n[id].(question := s[id].question) == s[id])
  }

  /** A refused change changes nothing; one that takes moves that task alone, to
      the status asked for, along the machine, with the stamp of the change. */
  lemma UpdateKeeps(s: Store, id: Id, next: Status, fill: Fill, now: Time, other: Id)
    ensures var n := Update(s, id, next, fill, now);
      && Keeps(s, n, other) && n.order == s.order
      && (Takes(s, id, next) <==> MayGo(s.byID, id, next))
      && Updates(s.byID, n.byID, id, next, fill, now)
  {
  }

  lemma SetQuestionKeeps(s: Store, id: Id, q: Question, other: Id)
    ensures var n := SetQuestion(s, id, q);
      Keeps(s, n, other) && n.order == s.order && Requestions(s.byID, n.byID, id, q)
  {
  }

  lemma OrderIs(s: Store)
    requires WellFormed(s)
    ensures forall x :: x in s.order <==> x in s.byID
    ensures |s.order| == |s.byID|
  {
    forall x: Id ensures x in s.order <==> x in s.byID { IdSetIs(s.order, x); }
    DistinctCard(s.order);
    assert |s.byID| == |s.byID.Keys|;
  }

  lemma PruneWellFormed(s: Store, max: int)
    requires WellFormed(s)
    ensures forall x :: x in s.order ==> x in s.byID
    ensures WellFormed(Prune(s, max))
  {
    OrderIs(s);
    hide Distinct, IdSet, Pruned;
    if max > 0 && |s.byID| > max {
      PrunedDistinct(s.order, s.byID, |s.byID| - max);
      var n := Prune(s, max);
      forall x: Id ensures x in IdSet(n.order) <==> x in n.byID { IdSetIs(n.order, x); }
      assert IdSet(n.order) == n.byID.Keys;
    }
  }

  lemma PruneKeeps(s: Store, max: int, id: Id)
    requires WellFormed(s)
    ensures forall x :: x in s.order ==> x in s.byID
    ensures var n := Prune(s, max);
      && (id in n.byID ==> id in s.byID && n.byID[id] == s.byID[id])
      && (id in s.byID && id !in n.byID ==> Terminal(s.byID[id].status))
      && Keeps(s, n, id)
  {
    OrderIs(s);
    var n := Prune(s, max);
    if id in s.byID && id !in n.byID {
      PrunedTerminal(s.order, s.byID, |s.byID| - max, id);
    }
  }

  /** Add: the new task at the end, then the prune. */
  function Add(s: Store, t: Task, now: Time, max: int): Store
    requires WellFormed(s) && t.id !in s.byID
  {
    AppendedWellFormed(s, t, now);
    OrderIs(Appended(s, t, now));
    Prune(Appended(s, t, now), max)
  }

  lemma AppendedWellFormed(s: Store, t: Task, now: Time)
    requires WellFormed(s) && t.id !in s.byID
    ensures WellFormed(Appended(s, t, now))
  {
    Append(s.order, t.id);
    assert Appended(s, t, now).byID.Keys == s.byID.Keys + {t.id};
  }

  /** Accepted, made and touched now, and otherwise as given. */
  predicate Fresh(t: Task, now: Time, u: Task) {
    && u.status == Accepted && u.created == now && u.updated == now
    && u.(status := t.status, created := t.created, updated := t.updated) == t
  }

  lemma AddKeeps(s: Store, t: Task, now: Time, max: int, id: Id)
    requires WellFormed(s) && t.id !in s.byID
    ensures WellFormed(Add(s, t, now, max)) && Keeps(s, Add(s, t, now, max), id)
    ensures t.id in Add(s, t, now, max).byID && Fresh(t, now, Add(s, t, now, max).byID[t.id])
    ensures id in Add(s, t, now, max).byID ==> id in s.byID || id == t.id
  {
    AppendedWellFormed(s, t, now);
    PruneWellFormed(Appended(s, t, now), max);
    PruneKeeps(Appended(s, t, now), max, id);
    PruneKeeps(Appended(s, t, now), max, t.id);
  }

  /** What stays after an Add stays in order, and the new task is the newest. */
  lemma AddInOrder(s: Store, t: Task, now: Time, max: int, i: nat, j: nat)
    requires WellFormed(s) && t.id !in s.byID && i < j < |Add(s, t, now, max).order|
    ensures Before(s.order + [t.id], Add(s, t, now, max).order[i], Add(s, t, now, max).order[j])
  {
    hide Distinct, IdSet;
    var a := Appended(s, t, now);
    AppendedWellFormed(s, t, now);
    OrderIs(a);
    var n := Add(s, t, now, max);
    if n.order != a.order { PrunedInOrder(a.order, a.byID, |a.byID| - max, i, j); }
  }

  /** Once a prune is done the store fits, or every task it holds is unfinished. */
  lemma PruneFits(s: Store, max: int)
    requires WellFormed(s) && max > 0
    ensures (forall x :: x in s.order ==> x in s.byID)
    ensures var n := Prune(s, max);
      |n.order| <= max || forall id :: id in n.byID ==> !Terminal(n.byID[id].status)
  {
    OrderIs(s);
    if |s.byID| > max { PrunedCount(s.order, s.byID, |s.byID| - max); }
  }
}
