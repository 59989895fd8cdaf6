/** Python's `for i in range(0, len(xs), size): xs[i:i+size]`, the chunking
    that `AsyncApiClient.split_and_send` and `process_in_batches` share. */
module Batching {
  import opened Wrappers
  import opened Json

  function Min(a: int, b: int): int {
    if a <= b then a else b
  }

  /** ⌈n / d⌉ */
  function CeilDiv(n: nat, d: nat): nat
    requires d > 0
  {
    (n + d - 1) / d
  }

  /** Consecutive slices of `size` items; the last one may be shorter. */
  function Chunks<T>(xs: seq<T>, size: nat): (r: seq<seq<T>>)
    requires size > 0
    decreases |xs|
  {
    if |xs| == 0 then []
    else
      var n := Min(size, |xs|);
      [xs[..n]] + Chunks(xs[n..], size)
  }

  function Flatten<T>(xss: seq<seq<T>>): seq<T> {
    if |xss| == 0 then [] else xss[0] + Flatten(xss[1..])
  }

  lemma {:induction false} FlattenAppend<T>(a: seq<seq<T>>, b: seq<seq<T>>)
    ensures Flatten(a + b) == Flatten(a) + Flatten(b)
    decreases |a|
  {
    if |a| == 0 {
      assert a + b == b;
    } else {
      assert (a + b)[1..] == a[1..] + b;
      FlattenAppend(a[1..], b);
    }
  }

  /** Concatenating the chunks gives back the input. */
  lemma {:induction false} ChunksFlatten<T>(xs: seq<T>, size: nat)
    requires size > 0
    ensures Flatten(Chunks(xs, size)) == xs
    decreases |xs|
  {
    if |xs| > 0 {
      var n := Min(size, |xs|);
      var r := Chunks(xs, size);
      assert r[0] == xs[..n];
      assert r[1..] == Chunks(xs[n..], size);
      ChunksFlatten(xs[n..], size);
      assert xs[..n] + xs[n..] == xs;
    }
  }

  lemma DivUnique(n: int, d: int, q: int, r: int)
    requires d > 0 && 0 <= r < d && n == q * d + r
    ensures n / d == q
  {
    var q', r' := n / d, n % d;
    assert (q - q') * d == r' - r;
    if q > q' {
      assert (q - q') * d >= d by { MulAtLeast(q - q', d); }
    } else if q < q' {
      assert (q' - q) * d >= d by { MulAtLeast(q' - q, d); }
    }
  }

  lemma MulAtLeast(k: int, d: int)
    requires k >= 1 && d > 0
    ensures k * d >= d
  {
  }

  /** One more full chunk adds one to the chunk count. */
  lemma CeilDivStep(m: nat, size: nat)
    requires size > 0
    ensures CeilDiv(m + size, size) == CeilDiv(m, size) + 1
  {
    var a := m + size - 1;
    var q, r := a / size, a % size;
    assert a + size == (q + 1) * size + r;
    DivUnique(a + size, size, q + 1, r);
  }

  /** There are ⌈n/size⌉ chunks. */
  lemma {:induction false} ChunksCount<T>(xs: seq<T>, size: nat)
    requires size > 0
    ensures |Chunks(xs, size)| == CeilDiv(|xs|, size)
    decreases |xs|
  {
    if |xs| > 0 {
      var n := Min(size, |xs|);
      ChunksCount(xs[n..], size);
      if |xs| <= size {
        DivUnique(|xs| + size - 1, size, 1, |xs| - 1);
        DivUnique(size - 1, size, 0, size - 1);
      } else {
        CeilDivStep(|xs| - size, size);
      }
    }
  }

  lemma MulStep(i: nat, size: nat)
    requires i > 0
    ensures i * size == (i - 1) * size + size
  {
  }

  /** Chunk i is exactly the slice `xs[i*size : i*size+size]`. */
  lemma {:induction false} ChunkAt<T>(xs: seq<T>, size: nat, i: nat)
    requires size > 0
    requires i < |Chunks(xs, size)|
    ensures i * size < |xs|
    ensures Chunks(xs, size)[i] == xs[i * size .. Min(i * size + size, |xs|)]
    decreases |xs|
  {
    var n := Min(size, |xs|);
    var rest := xs[n..];
    assert Chunks(xs, size) == [xs[..n]] + Chunks(rest, size);
    if i > 0 {
      assert Chunks(xs, size)[i] == Chunks(rest, size)[i - 1];
      assert n == size;
      ChunkAt(rest, size, i - 1);
      MulStep(i, size);
      ShiftSlice(xs, size, (i - 1) * size, i * size);
    }
  }

  /** A slice of `xs[size..]` is the slice of `xs` shifted by `size`. */
  lemma ShiftSlice<T>(xs: seq<T>, size: nat, a: nat, lo: nat)
    requires 0 < size <= |xs|
    requires a < |xs| - size && lo == a + size
    ensures lo < |xs|
    ensures xs[size..][a .. Min(a + size, |xs| - size)] == xs[lo .. Min(lo + size, |xs|)]
  {
  }

  /** Every chunk is non-empty and holds at most `size` items. */
  lemma ChunkSizes<T>(xs: seq<T>, size: nat, i: nat)
    requires size > 0
    requires i < |Chunks(xs, size)|
    ensures 0 < |Chunks(xs, size)[i]| <= size
    ensures i + 1 < |Chunks(xs, size)| ==> |Chunks(xs, size)[i]| == size
  {
    ChunkAt(xs, size, i);
    if i + 1 < |Chunks(xs, size)| {
      ChunkAt(xs, size, i + 1);
    }
  }

  /** The chunks of `range(0, len(xs), size)`: a zero step raises ValueError
      and a negative step gives no chunk at all. */
  function RangeChunks<T>(xs: seq<T>, size: int): (r: Result<seq<seq<T>>, PyError>)
    ensures r.Err? <==> size == 0
    ensures size < 0 ==> r == Ok([])
    ensures size > 0 ==> r.Ok? && Flatten(r.value) == xs && |r.value| == CeilDiv(|xs|, size)
  {
    if size == 0 then Err(PyError("ValueError", "range() arg 3 must not be zero"))
    else if size < 0 then Ok([])
    else
      ChunksFlatten(xs, size);
      ChunksCount(xs, size);
      Ok(Chunks(xs, size))
  }
}
