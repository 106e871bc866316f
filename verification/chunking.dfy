/** Cutting a sequence into consecutive slices of a fixed size, as
    `[xs[i:i + size] for i in range(0, len(xs), size)]` does: the Notion
    service's 100-block chunks and the history API's pages are both such
    slices. */
module Chunking {

  function Min(a: int, b: int): int {
    if a <= b then a else b
  }

  /** `len(range(0, n, size))`: one slice per started run of `size` items. */
  function NumSlices(n: nat, size: nat): (k: nat)
    requires size > 0
    ensures k == 0 <==> n == 0
  {
    if n == 0 then 0 else if n <= size then 1 else 1 + NumSlices(n - size, size)
  }

  /** The slice count is the ceiling of `n / size`, as Python computes it
      with `(n + size - 1) // size`. */
  lemma NumSlicesCeil(n: nat, size: nat)
    requires size > 0
    ensures NumSlices(n, size) == (n + size - 1) / size
    ensures NumSlices(n, size) * size >= n
    ensures NumSlices(n, size) == 0 || (NumSlices(n, size) - 1) * size < n
  {
    NumSlicesDiv(n, size);
    NumSlicesCover(n, size);
  }

  /** The slice count as a floor division. */
  lemma {:induction false} NumSlicesDiv(n: nat, size: nat)
    requires size > 0
    ensures NumSlices(n, size) == (n + size - 1) / size
    decreases n
  {
    if n == 0 {
      assert (size - 1) / size == 0;
    } else if n <= size {
      DivUnique(n + size - 1, size, 1, n - 1);
    } else {
      NumSlicesDiv(n - size, size);
      DivShift(n - 1, size);
    }
  }

  /** The slices cover `n` items, and one slice fewer would not. */
  lemma {:induction false} NumSlicesCover(n: nat, size: nat)
    requires size > 0
    ensures NumSlices(n, size) * size >= n
    ensures NumSlices(n, size) == 0 || (NumSlices(n, size) - 1) * size < n
    decreases n
  {
    if n > size {
      var k' := NumSlices(n - size, size);
      NumSlicesCover(n - size, size);
      MulSucc(k', size);
      MulSucc(k' - 1, size);
    }
  }

  /** `(k + 1) * size` as a sum. */
  lemma MulSucc(k: int, size: int)
    ensures (k + 1) * size == k * size + size
  {
  }

  /** The slices `xs[i:i + size]` for `i` in `range(0, len(xs), size)`, in order. */
  function Slices<T>(xs: seq<T>, size: nat): (r: seq<seq<T>>)
    requires size > 0
    ensures |r| == NumSlices(|xs|, size)
    decreases |xs|
  {
    if |xs| == 0 then []
    else
      var m := Min(size, |xs|);
      [xs[..m]] + Slices(xs[m..], size)
  }

  /** Concatenating the slices in order. */
  function Flatten<T>(cs: seq<seq<T>>): seq<T> {
    if |cs| == 0 then [] else cs[0] + Flatten(cs[1..])
  }

  /** Slices are non-empty, hold at most `size` items, and only the last
      may hold fewer than `size`. */
  predicate WellChunked<T>(cs: seq<seq<T>>, size: nat) {
    forall k :: 0 <= k < |cs| ==>
      && 1 <= |cs[k]| <= size
      && (k < |cs| - 1 ==> |cs[k]| == size)
  }

  lemma DivShift(a: nat, size: nat)
    requires size > 0
    ensures (a + size) / size == a / size + 1
  {
    var q, r := a / size, a % size;
    assert a + size == (q + 1) * size + r;
    DivUnique(a + size, size, q + 1, r);
  }

  /** The quotient is determined by any division with a small remainder. */
  lemma DivUnique(n: nat, d: nat, q: nat, r: nat)
    requires d > 0 && r < d && n == q * d + r
    ensures n / d == q
  {
    var q', r' := n / d, n % d;
    assert (q - q') * d == r' - r;
    if q > q' {
      MulAtLeast(q - q', d);
    } else if q < q' {
      MulAtLeast(q' - q, d);
    }
  }

  lemma MulAtLeast(x: int, d: int)
    requires x >= 1 && d > 0
    ensures x * d >= d
  {
    assert x * d == (x - 1) * d + d;
  }

  /** Concatenating the slices gives back the sequence. */
  lemma {:induction false} FlattenSlices<T>(xs: seq<T>, size: nat)
    requires size > 0
    ensures Flatten(Slices(xs, size)) == xs
    decreases |xs|
  {
    if |xs| > 0 {
      var m := Min(size, |xs|);
      FlattenSlices(xs[m..], size);
      var s := Slices(xs, size);
      assert s[1..] == Slices(xs[m..], size);
      assert xs[..m] + xs[m..] == xs;
    }
  }

  /** The slices have the chunk shape. */
  lemma {:induction false} SlicesWellChunked<T>(xs: seq<T>, size: nat)
    requires size > 0
    ensures WellChunked(Slices(xs, size), size)
    decreases |xs|
  {
    if |xs| > 0 {
      var m := Min(size, |xs|);
      SlicesWellChunked(xs[m..], size);
      var s, t := Slices(xs, size), Slices(xs[m..], size);
      forall k | 0 <= k < |s|
        ensures 1 <= |s[k]| <= size && (k < |s| - 1 ==> |s[k]| == size)
      {
        if k > 0 {
          assert s[k] == t[k - 1];
        } else if |s| > 1 {
          assert |t| > 0;
        }
      }
    }
  }

  /** Slice `k` holds the items from `k * size`, as Python's
      `xs[k * size:k * size + size]`. */
  lemma SliceAt<T>(xs: seq<T>, size: nat, k: nat)
    requires size > 0 && k < NumSlices(|xs|, size)
    ensures k * size < |xs|
    ensures Slices(xs, size)[k] == xs[k * size .. Min(k * size + size, |xs|)]
  {
    StrideProduct(k, size);
    SliceFrom(xs, size, k);
  }

  /** `k * size`, counted up one stride at a time. */
  function Stride(k: nat, size: nat): nat {
    if k == 0 then 0 else Stride(k - 1, size) + size
  }

  lemma {:induction false} StrideProduct(k: nat, size: nat)
    ensures Stride(k, size) == k * size
  {
    if k > 0 {
      StrideProduct(k - 1, size);
      MulSucc(k - 1, size);
    }
  }

  /** `SliceAt` with the start counted by `Stride`, so that the induction
      stays linear. */
  lemma {:induction false} SliceFrom<T>(xs: seq<T>, size: nat, k: nat)
    requires size > 0 && k < NumSlices(|xs|, size)
    ensures Stride(k, size) < |xs|
    ensures Slices(xs, size)[k] == xs[Stride(k, size) .. Min(Stride(k, size) + size, |xs|)]
    decreases k
  {
    if k > 0 {
      NumSlicesMore(|xs|, size);
      SliceFrom(xs[size..], size, k - 1);
      SliceStep(xs, size, k);
    } else {
      var m := Min(size, |xs|);
      SlicesHead(xs, size);
      assert Stride(k, size) == 0 && Min(Stride(k, size) + size, |xs|) == m;
      assert xs[0..m] == xs[..m];
    }
  }

  /** The inductive step of `SliceFrom`: slice `k` of `xs` is slice `k - 1`
      of what follows the first slice. */
  lemma SliceStep<T>(xs: seq<T>, size: nat, k: nat)
    requires size > 0 && 0 < k && size < |xs| && k - 1 < NumSlices(|xs| - size, size)
    requires var i := Stride(k - 1, size);
      i < |xs| - size && Slices(xs[size..], size)[k - 1] == xs[size..][i .. Min(i + size, |xs| - size)]
    ensures Stride(k, size) < |xs|
    ensures Slices(xs, size)[k] == xs[Stride(k, size) .. Min(Stride(k, size) + size, |xs|)]
  {
    var rest := xs[size..];
    var i := Stride(k - 1, size);
    assert Slices(xs, size)[k] == rest[i..Min(i + size, |rest|)] by {
      SlicesHead(xs, size);
      assert Min(size, |xs|) == size;
      assert Slices(xs, size)[k] == Slices(xs, size)[1..][k - 1];
    }
    var j := Stride(k, size);
    DropSlice(xs, size, i, Min(i + size, |rest|), j, Min(j + size, |xs|));
  }

  /** One step of `Slices`: the first slice, then the slices of the rest. */
  lemma SlicesHead<T>(xs: seq<T>, size: nat)
    requires size > 0 && |xs| > 0
    ensures Slices(xs, size)[0] == xs[..Min(size, |xs|)]
    ensures Slices(xs, size)[1..] == Slices(xs[Min(size, |xs|)..], size)
  {
  }

  /** More than one slice means more than `size` items. */
  lemma NumSlicesMore(n: nat, size: nat)
    requires size > 0 && NumSlices(n, size) > 1
    ensures n > size && NumSlices(n, size) == 1 + NumSlices(n - size, size)
  {
  }

  /** Slicing after dropping `d` items is slicing `d` further along. */
  lemma DropSlice<T>(xs: seq<T>, d: nat, a: nat, b: nat, a': nat, b': nat)
    requires d <= |xs| && a <= b <= |xs| - d && a' == a + d && b' == b + d
    ensures xs[d..][a..b] == xs[a'..b']
  {
  }

  /** The slices are the only well-chunked cut of a sequence: any list of
      chunks of that shape whose concatenation is `xs` is `Slices(xs, size)`. */
  lemma {:induction false} SlicesUnique<T>(cs: seq<seq<T>>, xs: seq<T>, size: nat)
    requires size > 0
    requires WellChunked(cs, size) && Flatten(cs) == xs
    ensures cs == Slices(xs, size)
    decreases |cs|
  {
    if |cs| > 0 {
      var c := cs[0];
      FlattenLength(cs[1..]);
      assert xs == c + Flatten(cs[1..]);
      assert xs[..|c|] == c;
      if |cs| == 1 {
        assert Flatten(cs[1..]) == [];
        assert |xs| == |c| <= size;
        assert Slices(xs[|xs|..], size) == [];
        assert cs == [c];
      } else {
        assert |c| == size;
        assert |Flatten(cs[1..])| > 0 by {
          assert |cs[1..][0]| >= 1;
        }
        assert Min(size, |xs|) == size;
        assert xs[size..] == Flatten(cs[1..]);
        assert WellChunked(cs[1..], size) by {
          forall k | 0 <= k < |cs[1..]|
            ensures 1 <= |cs[1..][k]| <= size && (k < |cs[1..]| - 1 ==> |cs[1..][k]| == size)
          {
            assert cs[1..][k] == cs[k + 1];
          }
        }
        SlicesUnique(cs[1..], xs[size..], size);
        assert cs == [c] + cs[1..];
      }
    }
  }

  /** A prefix one item longer. */
  lemma TakeNext<T>(xs: seq<T>, i: nat)
    requires i < |xs|
    ensures xs[..i + 1] == xs[..i] + [xs[i]]
  {
  }

  /** Appending a chunk appends its items. */
  lemma {:induction false} FlattenAppend<T>(cs: seq<seq<T>>, c: seq<T>)
    ensures Flatten(cs + [c]) == Flatten(cs) + c
  {
    if |cs| > 0 {
      FlattenAppend(cs[1..], c);
      assert (cs + [c])[1..] == cs[1..] + [c];
    } else {
      assert cs + [c] == [c];
    }
  }

  lemma {:induction false} FlattenLength<T>(cs: seq<seq<T>>)
    ensures |Flatten(cs)| >= (if |cs| > 0 then |cs[0]| else 0)
  {
  }
}
