/** Basic types shared by the whole model: optional values, results,
    Go's 64-bit signed integers and the sum of a sequence of numbers. */
module Prelude {

  datatype Option<T> = None | Some(value: T)

  datatype Result<T, E> = Ok(value: T) | Err(error: E)

  const MinInt64: int := -0x8000_0000_0000_0000
  const MaxInt64: int := 0x7FFF_FFFF_FFFF_FFFF

  /** Go's `int64` (also `time.Duration`). */
  newtype int64 = x: int | -0x8000_0000_0000_0000 <= x <= 0x7FFF_FFFF_FFFF_FFFF

  /** `x++` on an int64: two's-complement wrap-around at the top of the range. */
  function Inc64(x: int64): (r: int64)
    ensures x as int < MaxInt64 ==> r as int == x as int + 1
    ensures x as int == MaxInt64 ==> r as int == MinInt64
  {
    if x as int == MaxInt64 then MinInt64 as int64 else x + 1
  }

  /** The sum of the values, added from the front (the model's float64 is a real). */
  function Sum(vs: seq<real>): (r: real)
  {
    if vs == [] then 0.0 else vs[0] + Sum(vs[1..])
  }

  lemma {:induction false} SumAppend(a: seq<real>, b: seq<real>)
    ensures Sum(a + b) == Sum(a) + Sum(b)
  {
    if a == [] {
      assert a + b == b;
    } else {
      assert (a + b)[1..] == a[1..] + b;
      SumAppend(a[1..], b);
    }
  }

  function Abs(x: int): (r: nat)
    ensures r == x || r == -x
  {
    if x < 0 then -x else x
  }

  /** A non-empty set has a member (lets a loop pick the next key of a map). */
  lemma NonEmptyHasMember<T>(s: set<T>) returns (x: T)
    requires s != {}
    ensures x in s
  {
    var y :| y in s;
    x := y;
  }
}
