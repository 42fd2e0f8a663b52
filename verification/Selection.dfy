/** `ORDER BY timestamp ASC LIMIT n`, as both claim statements use it. */
module Selection {
  import opened Common

  predicate Distinct(ids: seq<Id>) {
    forall i, j :: 0 <= i < j < |ids| ==> ids[i] != ids[j]
  }

  function Members(ids: seq<Id>): set<Id> {
    set id | id in ids
  }

  /** `ids` are the first min(limit, |due|) keys of `due` in timestamp order, each once; ties may fall either way. */
  ghost predicate Earliest(due: map<Id, Time>, limit: nat, ids: seq<Id>) {
    && Distinct(ids)
    && (forall i :: 0 <= i < |ids| ==> ids[i] in due)
    && |ids| == Min(limit, |due|)
    && (forall i, id :: 0 <= i < |ids| && id in due && id !in ids ==> due[ids[i]] <= due[id])
  }

  /** When the limit is not reached, nothing is left behind. */
  lemma AllTaken(due: map<Id, Time>, ids: seq<Id>)
    requires Distinct(ids) && (forall i :: 0 <= i < |ids| ==> ids[i] in due) && |ids| == |due|
    ensures forall id :: id in due ==> id in ids
  {
    DistinctCount(ids);
    forall id | id in Members(ids) ensures id in due.Keys {
      var i :| 0 <= i < |ids| && ids[i] == id;
    }
    SameSize(Members(ids), due.Keys);
  }

  lemma {:induction false} SameSize(a: set<Id>, b: set<Id>)
    requires a <= b && |a| == |b|
    ensures a == b
  {
    if a != {} {
      var x :| x in a;
      SameSize(a - {x}, b - {x});
    }
  }

  method FindEarliest(due: map<Id, Time>) returns (best: Id)
    requires due != map[]
    ensures best in due && forall id :: id in due ==> due[best] <= due[id]
  {
    var todo := due.Keys;
    assert todo == {} ==> due == map[];
    best :| best in todo;
    todo := todo - {best};
    while todo != {}
      invariant best in due && todo <= due.Keys
      invariant forall id :: id in due && id !in todo ==> due[best] <= due[id]
      decreases todo
    {
      var id :| id in todo;
      if due[id] < due[best] { best := id; }
      todo := todo - {id};
    }
  }

  method TakeEarliest(due: map<Id, Time>, limit: nat) returns (ids: seq<Id>)
    ensures Earliest(due, limit, ids)
  {
    ids := [];
    var rest := due;
    while |ids| < limit && rest != map[]
      invariant Distinct(ids) && |ids| <= limit
      invariant |ids| + |rest| == |due|
      invariant forall i :: 0 <= i < |ids| ==> ids[i] in due && ids[i] !in rest
      invariant forall id :: id in due ==> id in ids || (id in rest && rest[id] == due[id])
      invariant forall id :: id in rest ==> id in due && rest[id] == due[id]
      invariant forall i, id :: 0 <= i < |ids| && id in rest ==> due[ids[i]] <= rest[id]
      decreases |rest|
    {
      var next := FindEarliest(rest);
      var smaller := rest - {next};
      assert rest.Keys == smaller.Keys + {next};
      assert |rest| == |rest.Keys| && |smaller| == |smaller.Keys|;
      ids := ids + [next];
      rest := smaller;
    }
    assert rest == map[] ==> |rest| == 0;
  }

  /** The rows an UPDATE ... RETURNING reports, in no particular order. */
  method Enumerate(s: set<Id>) returns (ids: seq<Id>)
    ensures Distinct(ids) && Members(ids) == s && forall id :: id in ids <==> id in s
  {
    ids := [];
    var todo := s;
    while todo != {}
      invariant Distinct(ids) && todo <= s
      invariant forall id :: id in ids <==> id in s && id !in todo
      decreases todo
    {
      var id :| id in todo;
      ids := ids + [id];
      todo := todo - {id};
    }
  }

  lemma {:induction false} DistinctCount(ids: seq<Id>)
    requires Distinct(ids)
    ensures |Members(ids)| == |ids|
  {
    if ids != [] {
      var init := ids[..|ids| - 1];
      DistinctCount(init);
      assert ids == init + [ids[|ids| - 1]];
      assert Members(ids) == Members(init) + {ids[|ids| - 1]};
    }
  }

  lemma {:induction false} SubsetSize(a: set<Id>, b: set<Id>)
    requires a <= b
    ensures |a| <= |b|
  {
    if a != {} {
      var x :| x in a;
      SubsetSize(a - {x}, b - {x});
    }
  }

  /** The same ids in some order. */
  predicate Reordered(ids: seq<Id>, order: seq<Id>) {
    Distinct(order) && Members(order) == Members(ids)
  }

  /** A claim does not say in which order it returns its rows. */
  lemma EarliestInAnyOrder(due: map<Id, Time>, limit: nat, ids: seq<Id>, order: seq<Id>)
    requires Earliest(due, limit, ids) && Reordered(ids, order)
    ensures Earliest(due, limit, order)
  {
    DistinctCount(ids);
    DistinctCount(order);
    forall id ensures id in order <==> id in ids {
      assert id in Members(order) <==> id in order;
      assert id in Members(ids) <==> id in ids;
    }
    forall i | 0 <= i < |order| ensures order[i] in due {
      assert order[i] in ids;
    }
    forall i, id | 0 <= i < |order| && id in due && id !in order ensures due[order[i]] <= due[id] {
      assert order[i] in ids;
    }
  }
}
