/**
 * The nested generator `batch(iterable, n)` of `to_embeddings`: the slices
 * `iterable[ndx : min(ndx + n, length)]` for `ndx` in `range(0, length, n)`.
 */
module Chunking {
  import opened Wrappers

  function Min(a: int, b: int): int {
    if a <= b then a else b
  }

  /** The slices of `s` that `batch(s, n)` yields for a positive `n`, in order. */
  function Chunks<T>(s: seq<T>, n: nat): (r: seq<seq<T>>)
    requires n >= 1
    ensures |r| == 0 <==> |s| == 0
    ensures |r| <= |s|
    decreases |s|
  {
    if |s| == 0 then []
    else
      var m := Min(n, |s|);
      [s[..m]] + Chunks(s[m..], n)
  }

  /** The concatenation of a sequence of sequences, in order. */
  function Flatten<T>(ss: seq<seq<T>>): seq<T>
  {
    if |ss| == 0 then [] else ss[0] + Flatten(ss[1..])
  }

  /** Concatenating the slices gives back the input: nothing dropped, repeated or reordered. */
  lemma {:induction false} FlattenChunks<T>(s: seq<T>, n: nat)
    requires n >= 1
    ensures Flatten(Chunks(s, n)) == s
    decreases |s|
  {
    if |s| > 0 {
      var m := Min(n, |s|);
      var cs := Chunks(s, n);
      assert cs == [s[..m]] + Chunks(s[m..], n);
      assert cs[0] == s[..m] && cs[1..] == Chunks(s[m..], n);
      FlattenChunks(s[m..], n);
      assert Flatten(cs) == s[..m] + s[m..];
      assert s[..m] + s[m..] == s;
    }
  }

  /** Every slice is non-empty and holds at most `n` items; all but the last hold exactly `n`. */
  lemma {:induction false} ChunkSizes<T>(s: seq<T>, n: nat)
    requires n >= 1
    ensures forall j | 0 <= j < |Chunks(s, n)| :: 1 <= |Chunks(s, n)[j]| <= n
    ensures forall j | 0 <= j < |Chunks(s, n)| - 1 :: |Chunks(s, n)[j]| == n
    decreases |s|
  {
    if |s| > 0 {
      var m := Min(n, |s|);
      ChunkSizes(s[m..], n);
      var c := Chunks(s, n);
      forall j | 0 <= j < |c|
        ensures 1 <= |c[j]| <= n && (j < |c| - 1 ==> |c[j]| == n)
      {
        if j > 0 {
          assert c[j] == Chunks(s[m..], n)[j - 1];
        } else if |c| > 1 {
          assert |s[m..]| > 0;
        }
      }
    }
  }

  /**
   * There are ceil(|s| / n) slices: no slices for an empty input, and
   * otherwise the fewest slices of `n` items that can hold `|s|` items.
   */
  lemma {:induction false} ChunkCount<T>(s: seq<T>, n: nat)
    requires n >= 1
    ensures |Chunks(s, n)| == 0 <==> |s| == 0
    ensures (|Chunks(s, n)| - 1) * n < |s| <= |Chunks(s, n)| * n || |s| == 0
    decreases |s|
  {
    if |s| > n {
      ChunkCount(s[n..], n);
      var c := |Chunks(s[n..], n)|;
      assert |Chunks(s, n)| == c + 1;
      assert (c + 1) * n == c * n + n;
      assert c * n == (c - 1) * n + n;
    }
  }

  /** A positive multiple of `n` is at least `n`. */
  lemma PositiveMultiple(x: int, n: int)
    requires n >= 1
    ensures x >= 1 ==> x * n >= n
  {
    if x >= 1 {
      assert x * n == (x - 1) * n + n;
      assert (x - 1) * n >= 0;
    }
  }

  /** Multiples of `n` are ordered as their factors. */
  lemma FactorOrder(a: int, b: int, n: int)
    requires n >= 1 && a * n < b * n + n
    ensures a <= b
  {
    PositiveMultiple(a - b, n);
    assert (a - b) * n == a * n - b * n;
  }

  /** The quotient is the one multiple of `n` that brackets `x`. */
  lemma DivisionBracket(x: int, n: int, q: int)
    requires n >= 1 && q * n <= x < q * n + n
    ensures x / n == q
  {
    var d := x / n;
    assert d * n <= x < d * n + n;
    FactorOrder(d, q, n);
    FactorOrder(q, d, n);
  }

  /** The slice count as the ceiling division `(|s| + n - 1) / n`. */
  lemma CeilingCount<T>(s: seq<T>, n: nat)
    requires n >= 1
    ensures |Chunks(s, n)| == (|s| + n - 1) / n
  {
    ChunkCount(s, n);
    var q := |Chunks(s, n)|;
    if q > 0 {
      assert (q - 1) * n == q * n - n;
      DivisionBracket(|s| + n - 1, n, q);
    } else {
      DivisionBracket(n - 1, n, 0);
    }
  }

  lemma NextMultiple(j: int, n: int)
    ensures (j - 1) * n + n == j * n
  {
  }

  /** A slice of a suffix is a slice of the whole, shifted by where the suffix starts. */
  lemma SliceOfSuffix<T>(s: seq<T>, m: nat, a: nat, b: nat)
    requires m <= |s| && a <= b <= |s| - m
    ensures s[m..][a..b] == s[m + a .. m + b]
  {
    forall k | 0 <= k < b - a
      ensures s[m..][a..b][k] == s[m + a .. m + b][k]
    {
      assert s[m..][a + k] == s[m + a + k];
    }
  }

  /** Slice `j` is the one the generator yields at `ndx = j * n`: `s[j*n .. min(j*n + n, |s|)]`. */
  lemma {:induction false} ChunkAt<T>(s: seq<T>, n: nat, j: nat)
    requires n >= 1 && j < |Chunks(s, n)|
    ensures j * n < |s|
    ensures Chunks(s, n)[j] == s[j * n .. Min(j * n + n, |s|)]
    decreases |s|
  {
    var m := Min(n, |s|);
    var c := Chunks(s, n);
    assert c == [s[..m]] + Chunks(s[m..], n);
    if j == 0 {
      assert j * n == 0;
    } else {
      var rest := s[m..];
      assert c[j] == Chunks(rest, n)[j - 1];
      ChunkAt(rest, n, j - 1);
      var a := (j - 1) * n;
      assert m == n;
      NextMultiple(j, n);
      var b := Min(a + n, |rest|);
      assert Chunks(rest, n)[j - 1] == rest[a..b];
      assert 0 <= a <= b <= |rest| && n + b <= |s|;
      SliceOfSuffix(s, n, a, b);
      assert n + b == Min(j * n + n, |s|);
    }
  }

  datatype BatchError = ZeroStep  // `range()` refuses a step of zero

  /**
   * `batch(iterable, n)`, lines 51-54, collected into a sequence: a zero `n`
   * makes `range` raise, a negative `n` yields nothing (the range counts down
   * from 0 and never reaches `length`), and a positive `n` yields the chunks.
   */
  method Batch<T>(s: seq<T>, n: int) returns (r: Result<seq<seq<T>>, BatchError>)
    ensures n == 0 ==> r == Err(ZeroStep)
    ensures n < 0 ==> r == Ok([])
    ensures n > 0 ==> r == Ok(Chunks(s, n))
  {
    if n == 0 {
      return Err(ZeroStep);
    }
    if n < 0 {
      return Ok([]);
    }
    var length := |s|;
    var slices: seq<seq<T>> := [];
    var ndx := 0;
    while ndx < length
      invariant 0 <= ndx
      invariant slices + Chunks(s[Min(ndx, length)..], n) == Chunks(s, n)
      decreases length - ndx
    {
      var next := Min(ndx + n, length);
      var rest := s[ndx..];
      assert rest[..Min(n, |rest|)] == s[ndx..next];
      assert rest[Min(n, |rest|)..] == s[Min(next, length)..];
      slices := slices + [s[ndx..next]];
      ndx := ndx + n;
    }
    assert s[Min(ndx, length)..] == [];
    assert Chunks(s[Min(ndx, length)..], n) == [];
    assert slices + [] == slices;
    assert slices == Chunks(s, n);
    return Ok(slices);
  }
}
