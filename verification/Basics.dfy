/** What every module needs: optional values, Go's unsigned 64-bit range and
    times, and one fact about finite sets. */
module Basics {

  datatype Option<+T> = None | Some(value: T)

  const U64_SIZE: int := 0x1_0000_0000_0000_0000

  type U64 = x: int | 0 <= x < U64_SIZE

  type Time = int

  const ZERO_TIME: Time := 0

  lemma SubsetSmaller<T>(a: set<T>, b: set<T>)
    requires a <= b
    ensures |a| <= |b|
    ensures |a| == |b| ==> a == b
  {
    assert b == a + (b - a);
    assert |b| == |a| + |b - a|;
  }
}
