/** Small shared vocabulary: optional values, results, and Go's int64. */
module Common {

  datatype Option<T> = None | Some(value: T)

  datatype Result<T, E> = Ok(value: T) | Err(error: E)

  const Int64Min: int := -0x8000_0000_0000_0000
  const Int64Max: int := 0x7FFF_FFFF_FFFF_FFFF
  const Int64Span: int := 0x1_0000_0000_0000_0000

  /** Go's `int64`; also Go's `int`, which is 64 bits wide on the platforms the panel targets. */
  newtype int64 = x: int | -0x8000_0000_0000_0000 <= x < 0x8000_0000_0000_0000

  /** The two's-complement value an unbounded integer wraps to in an int64. */
  function ToInt64(v: int): (r: int64)
    ensures (r as int - v) % Int64Span == 0
    ensures Int64Min <= v <= Int64Max ==> r as int == v
  {
    ((v - Int64Min) % Int64Span + Int64Min) as int64
  }

  /** Go's `x++` (and `atomic.AddInt64(&x, 1)`) on an int64: wraps at the top. */
  function Inc64(x: int64): (r: int64)
    ensures r == ToInt64(x as int + 1)
  {
    if x as int == Int64Max then Int64Min as int64 else x + 1
  }

  /** Counting in int64 from zero: after n increments the counter holds n wrapped to 64 bits. */
  lemma Inc64OfWrapped(n: int)
    ensures Inc64(ToInt64(n)) == ToInt64(n + 1)
  {
    var q := (n - Int64Min) % Int64Span;
    var k := (n - Int64Min) / Int64Span;
    assert n - Int64Min == k * Int64Span + q;
    if q == Int64Span - 1 {
      assert n + 1 - Int64Min == (k + 1) * Int64Span;
      assert (n + 1 - Int64Min) % Int64Span == 0;
    } else {
      assert n + 1 - Int64Min == k * Int64Span + (q + 1);
      assert (n + 1 - Int64Min) % Int64Span == q + 1;
    }
  }
}
