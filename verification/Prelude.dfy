/** Results, options and the two ORM look-ups (`first()` and `get()`) that every module uses. */
module Prelude {

  datatype Option<+T> = None | Some(value: T)

  datatype Result<+T, +E> = Ok(value: T) | Err(error: E) {
    predicate IsFailure() { Err? }

    function PropagateFailure<U>(): Result<U, E>
      requires Err?
    {
      Err(error)
    }

    function Extract(): T
      requires Ok?
    {
      value
    }
  }

  lemma {:induction false} HasLowest(ids: set<nat>)
    requires ids != {}
    ensures exists i :: i in ids && forall j :: j in ids ==> i <= j
  {
    var i :| i in ids;
    var rest := ids - {i};
    if rest != {} {
      HasLowest(rest);
      var k :| k in rest && forall j :: j in rest ==> k <= j;
      var lowest := if i < k then i else k;
      assert forall j :: j in ids ==> j == i || j in rest;
      assert lowest in ids && forall j :: j in ids ==> lowest <= j;
    } else {
      assert ids == {i};
    }
  }

  /** `first()` on a query without an ordering: the row with the lowest primary key. */
  function First(ids: set<nat>): (r: Option<nat>)
    ensures r.None? <==> ids == {}
    ensures r.Some? ==> r.value in ids && forall i :: i in ids ==> r.value <= i
  {
    if ids == {} then None
    else
      HasLowest(ids);
      var i :| i in ids && forall j :: j in ids ==> i <= j;
      Some(i)
  }

  datatype Lookup = Missing | Found(id: nat) | Many

  /** `get()`: DoesNotExist, the one row, or MultipleObjectsReturned. */
  function Get(ids: set<nat>): (r: Lookup)
    ensures r.Missing? <==> ids == {}
    ensures r.Found? ==> ids == {r.id}
    ensures r.Many? ==> exists i, j :: i in ids && j in ids && i != j
  {
    match First(ids)
    case None => Missing
    case Some(i) =>
      if ids == {i} then Found(i)
      else
        assert ids - {i} != {} by { assert ids == (ids - {i}) + {i}; }
        Many
  }
}
