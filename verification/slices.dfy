/**
 * myslice/first_order.go: `Map` applies a function to every element of a
 * slice, building a new slice in a loop.
 *
 * The input is a `seq`, so it cannot be modified by the call; `fnc` is a
 * pure function.
 */
module Slices {

  /**
   * Map: the result has one element per input element, the i-th being
   * `fnc` of the i-th input element; an empty input gives an empty result.
   */
  method Map<T, R>(slice: seq<T>, fnc: T -> R) returns (ret: seq<R>)
    ensures |ret| == |slice|
    ensures forall i :: 0 <= i < |slice| ==> ret[i] == fnc(slice[i])
  {
    ret := [];
    var k := 0;
    while k < |slice|
      invariant 0 <= k <= |slice| && |ret| == k
      invariant forall i :: 0 <= i < k ==> ret[i] == fnc(slice[i])
    {
      ret := ret + [fnc(slice[k])];
      k := k + 1;
    }
  }
}
