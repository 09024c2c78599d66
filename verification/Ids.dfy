// Ids, and the creation-order lists of them both stores keep.
module Ids {

  /** A text the stores keep and compare and never look inside (an id, a name, a
      task, an answer), numbered; EMPTY is the empty one. */
  type Text = nat

  const EMPTY: Text := 0

  /** The id of a task or a delegation. */
  type Id = Text

  function IdSet(ids: seq<Id>): set<Id> {
    if ids == [] then {} else IdSet(ids[..|ids| - 1]) + {ids[|ids| - 1]}
  }

  predicate Distinct(ids: seq<Id>) {
    ids == [] || (ids[|ids| - 1] !in IdSet(ids[..|ids| - 1]) && Distinct(ids[..|ids| - 1]))
  }

  lemma {:induction false} InIdSet(ids: seq<Id>, i: nat)
    requires i < |ids|
    ensures ids[i] in IdSet(ids)
  {
    if i < |ids| - 1 { InIdSet(ids[..|ids| - 1], i); }
  }

  lemma {:induction false} IdSetIs(ids: seq<Id>, id: Id)
    ensures id in IdSet(ids) <==> id in ids
  {
    if ids != [] {
      IdSetIs(ids[..|ids| - 1], id);
      assert ids == ids[..|ids| - 1] + [ids[|ids| - 1]];
    }
  }

  lemma {:induction false} Prefix(ids: seq<Id>, n: nat)
    requires n <= |ids|
    ensures IdSet(ids[..n]) <= IdSet(ids)
    ensures Distinct(ids) ==> Distinct(ids[..n])
    ensures Distinct(ids) && n < |ids| ==> ids[n] !in IdSet(ids[..n])
  {
    if n == |ids| {
      assert ids[..n] == ids;
    } else {
      var m := |ids| - 1;
      Prefix(ids[..m], n);
      assert ids[..m][..n] == ids[..n];
    }
  }

  lemma Append(ids: seq<Id>, id: Id)
    ensures IdSet(ids + [id]) == IdSet(ids) + {id}
    ensures Distinct(ids + [id]) <==> Distinct(ids) && id !in IdSet(ids)
  {
    assert (ids + [id])[..|ids|] == ids;
  }

  lemma {:induction false} DistinctCard(ids: seq<Id>)
    requires Distinct(ids)
    ensures |IdSet(ids)| == |ids|
  {
    if ids != [] { DistinctCard(ids[..|ids| - 1]); }
  }
}
