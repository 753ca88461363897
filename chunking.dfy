/** The contract of lodash `chunk(array, size)`, used to cut a batch into bulk calls. */
module Chunking {

  /** Consecutive slices of `size` elements in order, the last one possibly shorter;
      no slices at all for an empty array or a size of 0. */
  function Chunk<T>(s: seq<T>, size: nat): seq<seq<T>>
    decreases |s|
  {
    if size == 0 || |s| == 0 then []
    else if |s| <= size then [s]
    else [s[..size]] + Chunk(s[size..], size)
  }

  function Flatten<T>(ss: seq<seq<T>>): seq<T> {
    if ss == [] then [] else ss[0] + Flatten(ss[1..])
  }

  lemma {:induction false} FlattenAppend<T>(a: seq<seq<T>>, b: seq<seq<T>>)
    ensures Flatten(a + b) == Flatten(a) + Flatten(b)
  {
    if a != [] {
      assert (a + b)[1..] == a[1..] + b;
      FlattenAppend(a[1..], b);
      calc {
        Flatten(a + b);
        a[0] + Flatten(a[1..] + b);
        a[0] + (Flatten(a[1..]) + Flatten(b));
        (a[0] + Flatten(a[1..])) + Flatten(b);
      }
    } else {
      assert a + b == b;
    }
  }

  /** Concatenating the chunks gives back the input. */
  lemma {:induction false} ChunkFlatten<T>(s: seq<T>, size: nat)
    requires size > 0
    ensures Flatten(Chunk(s, size)) == s
    decreases |s|
  {
    if |s| > size {
      ChunkFlatten(s[size..], size);
      assert s == s[..size] + s[size..];
    }
  }

  /** Every chunk is non-empty and holds at most `size` elements; all but the last hold
      exactly `size`. */
  lemma {:induction false} ChunkShape<T>(s: seq<T>, size: nat)
    requires size > 0
    ensures forall k :: 0 <= k < |Chunk(s, size)| ==> 0 < |Chunk(s, size)[k]| <= size
    ensures forall k :: 0 <= k < |Chunk(s, size)| - 1 ==> |Chunk(s, size)[k]| == size
    decreases |s|
  {
    if |s| > size {
      ChunkShape(s[size..], size);
    }
  }

  /** The number of chunks is the ceiling of |s| / size. */
  lemma {:induction false} ChunkCount<T>(s: seq<T>, size: nat)
    requires size > 0
    ensures |s| <= |Chunk(s, size)| * size < |s| + size
    decreases |s|
  {
    if |s| > size {
      var c := |Chunk(s[size..], size)|;
      ChunkCount(s[size..], size);
      assert (c + 1) * size == c * size + size;
    }
  }

  /** Euclidean division is unique: x = q * d + r with 0 <= r < d gives x / d == q. */
  lemma DivUnique(x: int, d: nat, q: int, r: int)
    requires d > 0 && 0 <= r < d && x == q * d + r
    ensures x / d == q && x % d == r
  {
    var q', r' := x / d, x % d;
    assert x == q' * d + r';
    if q' > q {
      MulGap(q', q, d);
      assert false;
    } else if q' < q {
      MulGap(q, q', d);
      assert false;
    }
  }

  /** A larger factor adds at least one more multiple of d. */
  lemma MulGap(a: int, b: int, d: nat)
    requires a > b
    ensures a * d >= b * d + d
  {
    var t: nat := a - b - 1;
    assert a * d == b * d + t * d + d;
    assert t * d >= 0;
  }

  /** In closed form: ceil(N / size) chunks. */
  lemma ChunkCountCeil<T>(s: seq<T>, size: nat)
    requires size > 0
    ensures |Chunk(s, size)| == (|s| + size - 1) / size
  {
    var c := |Chunk(s, size)|;
    ChunkCount(s, size);
    DivUnique(|s| + size - 1, size, c, |s| + size - 1 - c * size);
  }

  lemma MulStep(k: nat, size: nat)
    requires k > 0
    ensures (k - 1) * size + size == k * size
  {
  }

  /** Element i of chunk k is element k * size + i of the input. */
  lemma {:induction false} ChunkAt<T>(s: seq<T>, size: nat, k: nat, i: nat)
    requires size > 0
    requires k < |Chunk(s, size)| && i < |Chunk(s, size)[k]|
    ensures k * size + i < |s| && Chunk(s, size)[k][i] == s[k * size + i]
    decreases |s|
  {
    if k > 0 {
      var rest := s[size..];
      assert Chunk(s, size)[k] == Chunk(rest, size)[k - 1];
      ChunkAt(rest, size, k - 1, i);
      MulStep(k, size);
      assert rest[(k - 1) * size + i] == s[k * size + i];
    }
  }

  /** Skipping one chunk's worth of elements: (x + d) / d == x / d + 1, same remainder. */
  lemma DivShift(x: nat, d: nat)
    requires d > 0
    ensures (x + d) / d == x / d + 1 && (x + d) % d == x % d
  {
    var q, r := x / d, x % d;
    assert x + d == (q + 1) * d + r;
    DivUnique(x + d, d, q + 1, r);
  }

  /** Conversely, input element p sits in chunk p / size at position p % size. */
  lemma {:induction false} ChunkOf<T>(s: seq<T>, size: nat, p: nat)
    requires size > 0 && p < |s|
    ensures p / size < |Chunk(s, size)| && p % size < |Chunk(s, size)[p / size]|
    ensures Chunk(s, size)[p / size][p % size] == s[p]
    decreases |s|
  {
    if p < size {
      DivUnique(p, size, 0, p);
    } else {
      var rest := s[size..];
      ChunkOf(rest, size, p - size);
      DivShift(p - size, size);
      assert Chunk(s, size) == [s[..size]] + Chunk(rest, size);
      assert rest[p - size] == s[p];
    }
  }

  lemma {:induction false} LastChunkSize<T>(s: seq<T>, size: nat)
    requires size > 0 && |s| > 0
    ensures |Chunk(s, size)| > 0
    ensures |Chunk(s, size)[|Chunk(s, size)| - 1]| == |s| - (|Chunk(s, size)| - 1) * size
    decreases |s|
  {
    if |s| > size {
      var rest := Chunk(s[size..], size);
      LastChunkSize(s[size..], size);
      var c := |rest|;
      assert Chunk(s, size) == [s[..size]] + rest;
      assert Chunk(s, size)[c] == rest[c - 1];
      assert (c - 1) * size + size == c * size;
    }
  }
}
