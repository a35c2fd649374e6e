/**
 * List operations the two statement scrapers share: slicing with negative indices (JavaScript's
 * `Array.prototype.slice` and Python's `l[a:b]` agree on it), filtering, and cutting a list into
 * rows, either keeping the short last row (the JavaScript `for` loop) or dropping it (Python's
 * `zip(*[iter(l)] * k)`).
 */
module ListOps {
  import opened Numerics

  /** An index as slicing resolves it: negative counts from the end, and both ends are clamped. */
  function ResolveIndex(index: int, length: nat): (r: nat)
    ensures r <= length
    ensures 0 <= index <= length ==> r == index
    ensures index < 0 && length + index >= 0 ==> r == length + index
  {
    if index < 0 then Max(length + index, 0) else Min(index, length)
  }

  /** `s.slice(start, end)` in JavaScript, `s[start:end]` in Python. */
  function Slice<T>(s: seq<T>, start: int, end: int): (r: seq<T>)
    ensures |r| <= |s|
  {
    var from, to := ResolveIndex(start, |s|), ResolveIndex(end, |s|);
    if from < to then s[from..to] else []
  }

  /** `slice(13, -5)`: nothing for 18 items or fewer, else what lies between the first 13 and the last 5. */
  lemma SliceMiddle<T>(s: seq<T>)
    ensures |s| <= 18 ==> Slice(s, 13, -5) == []
    ensures |s| > 18 ==> Slice(s, 13, -5) == s[13..|s| - 5]
  {
  }

  /** The elements of `s` that satisfy `p`, in order. */
  function Filter<T>(s: seq<T>, p: T -> bool): (r: seq<T>)
    ensures |r| <= |s|
    ensures forall i :: 0 <= i < |r| ==> p(r[i]) && r[i] in s
    ensures forall i :: 0 <= i < |s| && p(s[i]) ==> s[i] in r
  {
    if |s| == 0 then []
    else if p(s[0]) then [s[0]] + Filter(s[1..], p)
    else Filter(s[1..], p)
  }

  /** Filtering keeps the relative order: it distributes over concatenation. */
  lemma {:induction false} FilterAppend<T>(a: seq<T>, b: seq<T>, p: T -> bool)
    ensures Filter(a + b, p) == Filter(a, p) + Filter(b, p)
  {
    if |a| > 0 {
      assert (a + b)[1..] == a[1..] + b;
      FilterAppend(a[1..], b, p);
      assert (a + b)[0] == a[0];
    } else {
      assert a + b == b;
    }
  }

  /** Filtering a list with one more item at the end adds that item when it satisfies the predicate. */
  lemma FilterSnoc<T>(a: seq<T>, x: T, p: T -> bool)
    ensures Filter(a + [x], p) == Filter(a, p) + (if p(x) then [x] else [])
  {
    FilterAppend(a, [x], p);
    assert [x][1..] == [];
  }

  function Flatten<T>(rows: seq<seq<T>>): seq<T> {
    if |rows| == 0 then [] else rows[0] + Flatten(rows[1..])
  }

  lemma {:induction false} FlattenAppend<T>(a: seq<seq<T>>, b: seq<seq<T>>)
    ensures Flatten(a + b) == Flatten(a) + Flatten(b)
  {
    if |a| > 0 {
      assert (a + b)[1..] == a[1..] + b;
      FlattenAppend(a[1..], b);
      calc {
        Flatten(a + b);
        a[0] + Flatten(a[1..] + b);
        a[0] + (Flatten(a[1..]) + Flatten(b));
      }
    } else {
      assert a + b == b;
    }
  }

  lemma MultiplyMonotone(a: int, b: int, k: nat)
    requires a <= b
    ensures a * k <= b * k
  {
    assert b * k - a * k == (b - a) * k;
  }

  /** `q` is the quotient of n by k when q·k ≤ n < (q + 1)·k. */
  lemma DivisionByBounds(n: nat, k: nat, q: nat)
    requires k > 0 && q * k <= n < q * k + k
    ensures n / k == q
  {
    var d := n / k;
    assert d * k <= n < d * k + k;
    assert (q + 1) * k == q * k + k && (d + 1) * k == d * k + k;
    if d > q {
      MultiplyMonotone(q + 1, d, k);
    } else if d < q {
      MultiplyMonotone(d + 1, q, k);
    }
  }

  /**
   * The rows of the JavaScript loop `for (i = 0; i < n; i += k) rows.push(list.slice(i, i + k))`:
   * consecutive pieces of k, the last one possibly shorter.
   */
  function Chunks<T>(s: seq<T>, k: nat): (rows: seq<seq<T>>)
    requires k > 0
    ensures forall i :: 0 <= i < |rows| - 1 ==> |rows[i]| == k
    ensures |rows| > 0 ==> 1 <= |rows[|rows| - 1]| <= k
    ensures |rows| == 0 <==> |s| == 0
    decreases |s|
  {
    if |s| == 0 then [] else [s[..Min(k, |s|)]] + Chunks(s[Min(k, |s|)..], k)
  }

  /** Chunking loses nothing: the rows together give back the list. */
  lemma {:induction false} ChunksFlatten<T>(s: seq<T>, k: nat)
    requires k > 0
    ensures Flatten(Chunks(s, k)) == s
    decreases |s|
  {
    if |s| > 0 {
      var m := Min(k, |s|);
      ChunksFlatten(s[m..], k);
      assert s[..m] + s[m..] == s;
      assert Flatten(Chunks(s, k)) == s[..m] + Flatten(Chunks(s[m..], k));
    }
  }

  lemma {:induction false} ChunksBounds<T>(s: seq<T>, k: nat)
    requires k > 0
    ensures |Chunks(s, k)| * k - k < |s| <= |Chunks(s, k)| * k
    decreases |s|
  {
    if |s| > 0 {
      var m := Min(k, |s|);
      ChunksBounds(s[m..], k);
      var r := |Chunks(s[m..], k)|;
      assert |Chunks(s, k)| == 1 + r;
      assert (1 + r) * k == k + r * k;
      if |s| <= k {
        assert r == 0;
      }
    }
  }

  /** There are ⌈n/k⌉ rows. */
  lemma ChunksCount<T>(s: seq<T>, k: nat)
    requires k > 0
    ensures |Chunks(s, k)| == (|s| + k - 1) / k
  {
    ChunksBounds(s, k);
    DivisionByBounds(|s| + k - 1, k, |Chunks(s, k)|);
  }

  /**
   * Python's `zip(*[iter(l)] * k)`: the k-tuples of consecutive items; an incomplete tail is
   * dropped.
   */
  function Groups<T>(s: seq<T>, k: nat): (groups: seq<seq<T>>)
    requires k > 0
    ensures forall i :: 0 <= i < |groups| ==> |groups[i]| == k
    ensures |groups| == 0 <==> |s| < k
    decreases |s|
  {
    if |s| < k then [] else [s[..k]] + Groups(s[k..], k)
  }

  /** With g groups, g·k ≤ n < g·k + k. */
  lemma {:induction false} GroupsBounds<T>(s: seq<T>, k: nat)
    requires k > 0
    ensures |Groups(s, k)| * k <= |s| < |Groups(s, k)| * k + k
    decreases |s|
  {
    if |s| >= k {
      GroupsBounds(s[k..], k);
      var g := |Groups(s[k..], k)|;
      assert |Groups(s, k)| == g + 1;
      assert (g + 1) * k == k + g * k;
    }
  }

  /** Together the groups are the first k·g items: only the incomplete tail is dropped. */
  lemma {:induction false} GroupsFlatten<T>(s: seq<T>, k: nat)
    requires k > 0
    ensures |Groups(s, k)| * k <= |s|
    ensures Flatten(Groups(s, k)) == s[..|Groups(s, k)| * k]
    decreases |s|
  {
    GroupsBounds(s, k);
    if |s| >= k {
      GroupsFlatten(s[k..], k);
      var n := |Groups(s[k..], k)| * k;
      assert |Groups(s, k)| * k == k + n by {
        assert |Groups(s, k)| == |Groups(s[k..], k)| + 1;
      }
      assert Flatten(Groups(s, k)) == s[..k] + Flatten(Groups(s[k..], k));
      assert s[..k] + s[k..][..n] == s[..k + n];
    }
  }

  /** There are ⌊n/k⌋ groups. */
  lemma GroupsCount<T>(s: seq<T>, k: nat)
    requires k > 0
    ensures |Groups(s, k)| == |s| / k
  {
    GroupsBounds(s, k);
    DivisionByBounds(|s|, k, |Groups(s, k)|);
  }

  /** The Python grouping is the JavaScript chunking without its incomplete last row. */
  lemma {:induction false} GroupsArePrefixOfChunks<T>(s: seq<T>, k: nat)
    requires k > 0
    ensures |Groups(s, k)| <= |Chunks(s, k)|
    ensures Groups(s, k) == Chunks(s, k)[..|Groups(s, k)|]
    ensures |s| % k == 0 ==> Groups(s, k) == Chunks(s, k)
    decreases |s|
  {
    if |s| >= k {
      GroupsArePrefixOfChunks(s[k..], k);
      assert Min(k, |s|) == k;
      assert Chunks(s, k) == [s[..k]] + Chunks(s[k..], k);
      assert Groups(s, k) == [s[..k]] + Groups(s[k..], k);
      if |s| % k == 0 {
        ModuloStep(|s|, k);
      }
    } else if |s| % k == 0 {
      assert |s| == 0;
    }
  }

  lemma ModuloStep(n: nat, k: nat)
    requires k > 0 && n >= k
    ensures (n - k) % k == n % k
  {
    var q, r := n / k, n % k;
    assert n == q * k + r;
    assert n - k == (q - 1) * k + r;
    assert q >= 1 by {
      if q <= 0 {
        MultiplyMonotone(q, 0, k);
      }
    }
    DivisionByBounds(n - k, k, q - 1);
  }
}
