/** The two loop shapes of the router: building a list with `append` (where an
    element may raise), and a `for ... break` search whose test may raise. */
module Scans {
  import opened Model

  /** Applies `f` to the elements in order and collects the results; the first
      element on which `f` raises ends the loop with that exception. */
  function Traverse<A, B>(xs: seq<A>, f: A -> Result<B, Error>): (r: Result<seq<B>, Error>)
    ensures r.Ok? <==> forall i :: 0 <= i < |xs| ==> f(xs[i]).Ok?
    ensures r.Ok? ==> |r.value| == |xs| && forall i :: 0 <= i < |xs| ==> r.value[i] == f(xs[i]).value
    ensures r.Err? ==> exists k :: 0 <= k < |xs| && f(xs[k]) == Err(r.error) && forall j :: 0 <= j < k ==> f(xs[j]).Ok?
    decreases |xs|
  {
    if xs == [] then Ok([])
    else match f(xs[0])
      case Err(e) => Err(e)
      case Ok(y) =>
        match Traverse(xs[1..], f)
        case Err(e) =>
          assert forall j :: 1 <= j < |xs| ==> xs[1..][j - 1] == xs[j];
          Err(e)
        case Ok(ys) => Ok([y] + ys)
  }

  /** The loop that builds a list by appending `f` of each element. */
  method Collect<A, B>(xs: seq<A>, f: A -> Result<B, Error>) returns (r: Result<seq<B>, Error>)
    ensures r == Traverse(xs, f)
  {
    var acc: seq<B> := [];
    var i := 0;
    while i < |xs|
      invariant 0 <= i <= |xs|
      invariant |acc| == i
      invariant forall j :: 0 <= j < i ==> f(xs[j]).Ok? && acc[j] == f(xs[j]).value
    {
      var y := f(xs[i]);
      if y.Err? {
        return Err(y.error);
      }
      acc := acc + [y.value];
      i := i + 1;
    }
    assert acc == Traverse(xs, f).value;
    return Ok(acc);
  }

  /** The position of the first element `test` accepts. A test that raises on
      an element before that ends the search with the exception; no element
      accepted gives None. */
  function FirstHit<A>(xs: seq<A>, test: A -> Result<bool, Error>): (r: Result<Option<nat>, Error>)
    ensures r.Ok? && r.value.Some? ==>
      r.value.value < |xs| && test(xs[r.value.value]) == Ok(true) &&
        forall j :: 0 <= j < r.value.value ==> test(xs[j]) == Ok(false)
    ensures r == Ok(None) <==> forall j :: 0 <= j < |xs| ==> test(xs[j]) == Ok(false)
    ensures r.Err? ==>
      exists k :: 0 <= k < |xs| && test(xs[k]) == Err(r.error) &&
        forall j :: 0 <= j < k ==> test(xs[j]) == Ok(false)
    decreases |xs|
  {
    if xs == [] then Ok(None)
    else match test(xs[0])
      case Err(e) => Err(e)
      case Ok(true) => Ok(Some(0))
      case Ok(false) =>
        assert forall j :: 1 <= j < |xs| ==> xs[1..][j - 1] == xs[j];
        match FirstHit(xs[1..], test)
        case Err(e) => Err(e)
        case Ok(None) => Ok(None)
        case Ok(Some(k)) => Ok(Some(k + 1))
  }

  /** The `for x in xs: if test(x): found = x; break` loop. */
  method FindFirst<A>(xs: seq<A>, test: A -> Result<bool, Error>) returns (r: Result<Option<nat>, Error>)
    ensures r == FirstHit(xs, test)
  {
    var i := 0;
    while i < |xs|
      invariant 0 <= i <= |xs|
      invariant forall j :: 0 <= j < i ==> test(xs[j]) == Ok(false)
    {
      var t := test(xs[i]);
      if t.Err? {
        return Err(t.error);
      }
      if t.value {
        return Ok(Some(i));
      }
      i := i + 1;
    }
    return Ok(None);
  }
}
