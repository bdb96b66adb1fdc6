/** Shared datatypes, and finite sets of numbers in order. */
module Common {

  datatype Option<+T> = None | Some(value: T)

  datatype Result<+T, +E> = Ok(value: T) | Err(error: E)

  function Min(a: int, b: int): int {
    if a < b then a else b
  }

  // The members of a finite set in increasing order.
  function Sorted(ids: set<nat>): (r: seq<nat>)
    ensures forall id :: id in r <==> id in ids
    ensures forall i, j :: 0 <= i < j < |r| ==> r[i] < r[j]
  {
    if ids == {} then []
    else
      var least := Least(ids);
      [least] + Sorted(ids - {least})
  }

  function Least(ids: set<nat>): (least: nat)
    requires ids != {}
    ensures least in ids && forall id :: id in ids ==> least <= id
  {
    LeastExists(ids);
    var least :| least in ids && forall id :: id in ids ==> least <= id;
    least
  }

  lemma LeastExists(ids: set<nat>)
    requires ids != {}
    ensures exists least :: least in ids && forall id :: id in ids ==> least <= id
  {
    var x :| x in ids;
    LeastBelow(ids, x);
  }

  lemma {:induction false} LeastBelow(ids: set<nat>, x: nat)
    requires x in ids
    ensures exists least :: least in ids && forall id :: id in ids ==> least <= id
    decreases x
  {
    if y :| y in ids && y < x {
      LeastBelow(ids, y);
    }
  }
}
