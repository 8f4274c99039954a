// Sequence helpers the admin pages share: JavaScript's `filter`, the
// `slice(-n)` that keeps the newest entries, and the bounded append of a
// log buffer.
module Sequences {
  /** `s.filter(keep)`. */
  function Filter<T>(s: seq<T>, keep: T -> bool): (r: seq<T>)
    ensures |r| <= |s|
    ensures forall i | 0 <= i < |r| :: keep(r[i])
    ensures forall x | x in r :: x in s
  {
    if s == [] then []
    else (if keep(s[0]) then [s[0]] else []) + Filter(s[1..], keep)
  }

  /** Filtering works piece by piece, so it keeps the order of what it keeps. */
  lemma {:induction false} FilterConcat<T>(s: seq<T>, t: seq<T>, keep: T -> bool)
    ensures Filter(s + t, keep) == Filter(s, keep) + Filter(t, keep)
  {
    if s == [] {
      assert s + t == t;
    } else {
      assert (s + t)[0] == s[0] && (s + t)[1..] == s[1..] + t;
      FilterConcat(s[1..], t, keep);
    }
  }

  /** Every element kept by the filter is in it, as often as in the input, and no other element is. */
  lemma {:induction false} FilterKeepsAll<T>(s: seq<T>, keep: T -> bool, x: T)
    ensures multiset(Filter(s, keep))[x] == if keep(x) then multiset(s)[x] else 0
    ensures !keep(x) ==> x !in Filter(s, keep)
  {
    if s != [] {
      var h, tail := s[0], s[1..];
      FilterKeepsAll(tail, keep, x);
      assert s == [h] + tail;
      assert Filter(s, keep) == (if keep(h) then [h] else []) + Filter(tail, keep);
    }
  }

  /** A filter and its complement split the input: together they hold each element exactly as often as it. */
  lemma {:induction false} FilterPartition<T>(s: seq<T>, keep: T -> bool, drop: T -> bool)
    requires forall x :: drop(x) == !keep(x)
    ensures multiset(Filter(s, keep)) + multiset(Filter(s, drop)) == multiset(s)
  {
    if s != [] {
      var h, tail := s[0], s[1..];
      var a, b := Filter(tail, keep), Filter(tail, drop);
      FilterPartition(tail, keep, drop);
      assert s == [h] + tail;
      assert drop(h) == !keep(h);
      if keep(h) {
        assert Filter(s, keep) == [h] + a && Filter(s, drop) == b;
      } else {
        assert Filter(s, keep) == a && Filter(s, drop) == [h] + b;
      }
    }
  }

  /** A filter that keeps everything returns its input. */
  lemma {:induction false} FilterKeepsEverything<T>(s: seq<T>, keep: T -> bool)
    requires forall i | 0 <= i < |s| :: keep(s[i])
    ensures Filter(s, keep) == s
  {
    if s != [] {
      FilterKeepsEverything(s[1..], keep);
    }
  }

  /**
   * `s.slice(-n)`: the last `n` elements, or all of them when there are fewer.
   * For `n == 0` this gives the empty sequence, whereas `slice(-0)` is
   * `slice(0)`, the whole array; the callers use `n` of 49 and 50 only.
   */
  function LastN<T>(s: seq<T>, n: nat): (r: seq<T>)
    ensures |r| == if |s| < n then |s| else n
    ensures forall i :: 0 <= i < |r| ==> r[i] == s[|s| - |r| + i]
  {
    if |s| <= n then s else s[|s| - n..]
  }

  /** Keeping the last `n` of the last `m >= n` is keeping the last `n`. */
  lemma LastNOfLastN<T>(s: seq<T>, m: nat, n: nat)
    requires n <= m
    ensures LastN(LastN(s, m), n) == LastN(s, n)
  {
  }

  /** `[...logs.slice(-(cap - 1)), entry]`: the newest entry at the end, after at most `cap - 1` of the old ones (the source's cap is 50; for a cap of 1 the source would keep every old entry). */
  function AppendBounded<T>(logs: seq<T>, entry: T, cap: nat): (r: seq<T>)
    requires cap > 0
    ensures 0 < |r| <= cap
    ensures r[|r| - 1] == entry
  {
    LastN(logs, cap - 1) + [entry]
  }

  /** A buffer holding the last `cap` entries of a history still holds the last `cap` after a bounded append: no entry is lost but the oldest. */
  lemma AppendBoundedKeepsNewest<T>(history: seq<T>, entry: T, cap: nat)
    requires cap > 0
    ensures AppendBounded(LastN(history, cap), entry, cap) == LastN(history + [entry], cap)
  {
    LastNOfLastN(history, cap, cap - 1);
    var h := history + [entry];
    if |h| <= cap {
      assert LastN(h, cap) == h && LastN(history, cap - 1) == history;
    } else {
      assert h[|h| - cap..] == history[|history| - (cap - 1)..] + [entry];
    }
  }
}
