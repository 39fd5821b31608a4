/** Optional values, results, and JavaScript's nullish-coalescing chain. */
module Wrappers {

  /** A field that may be null or undefined in the source. */
  datatype Option<+T> = None | Some(value: T) {
    function GetOr(default: T): T {
      match this
      case Some(v) => v
      case None => default
    }
  }

  /** A value or the error a call raised. */
  datatype Result<+R, +E> = Success(value: R) | Failure(error: E)

  /** The chain `p0 ?? p1 ?? ... ?? default`: the first probe that is
      neither null nor undefined wins, even when it holds a falsy value. */
  function Coalesce<T>(probes: seq<Option<T>>, default: T): (r: T)
    ensures (forall i :: 0 <= i < |probes| ==> probes[i].None?) ==> r == default
    ensures forall i :: (0 <= i < |probes| && probes[i].Some? &&
                         (forall j :: 0 <= j < i ==> probes[j].None?)) ==> r == probes[i].value
  {
    if |probes| == 0 then default
    else if probes[0].Some? then probes[0].value
    else
      var rest := Coalesce(probes[1..], default);
      assert forall i :: 1 <= i < |probes| ==> probes[i] == probes[1..][i - 1];
      rest
  }
}
