/** Job ids in ascending order, as Python's `sorted` returns them. */
module IdLists {
  /** The ids of a set, ascending. */
  ghost predicate Listed(ids: seq<int>, s: set<int>) {
    && (forall i, j :: 0 <= i < j < |ids| ==> ids[i] < ids[j])
    && (forall id :: id in s <==> id in ids)
  }

  function Insert(ids: seq<int>, id: int): (r: seq<int>)
    requires forall i, j :: 0 <= i < j < |ids| ==> ids[i] < ids[j]
    requires id !in ids
    ensures forall i, j :: 0 <= i < j < |r| ==> r[i] < r[j]
    ensures forall x :: x in r <==> x == id || x in ids
  {
    if ids == [] then [id]
    else if id < ids[0] then [id] + ids
    else
      var rest := Insert(ids[1..], id);
      assert forall k :: 0 <= k < |rest| ==> rest[k] in rest;
      [ids[0]] + rest
  }

  lemma {:induction false} Member<T>(s: set<T>) returns (x: T)
    requires s != {}
    ensures x in s
  {
    x :| x in s;
  }

  method SortedIds(s: set<int>) returns (ids: seq<int>)
    ensures Listed(ids, s)
  {
    ids := [];
    var rest := s;
    while rest != {}
      invariant rest <= s
      invariant Listed(ids, s - rest)
      decreases rest
    {
      ghost var witnessed := Member(rest);
      var id :| id in rest;
      ids := Insert(ids, id);
      rest := rest - {id};
    }
  }
}
