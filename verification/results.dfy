/** Optional values and fallible results used across the model. */
module Results {

  /** A value that may be absent, such as an optional JSON field. */
  datatype Option<+T> = None | Some(value: T)

  /** The outcome of an operation that can fail where the script raises. */
  datatype Result<+T, +E> = Ok(value: T) | Err(error: E)

  /** The values of a sequence of outcomes, or the first failure among them. */
  function AllOk<T, E>(rs: seq<Result<T, E>>): (r: Result<seq<T>, E>)
    ensures r.Ok? <==> forall i :: 0 <= i < |rs| ==> rs[i].Ok?
    ensures r.Ok? ==> |r.value| == |rs| && forall i :: 0 <= i < |rs| ==> r.value[i] == rs[i].value
    ensures r.Err? ==> exists i :: 0 <= i < |rs| && rs[i] == Err(r.error)
  {
    if |rs| == 0 then Ok([])
    else
      var tail := AllOk(rs[1..]);
      assert forall i :: 1 <= i < |rs| ==> rs[1..][i - 1] == rs[i];
      if rs[0].Err? then Err(rs[0].error)
      else if tail.Err? then Err(tail.error)
      else Ok([rs[0].value] + tail.value)
  }
}
