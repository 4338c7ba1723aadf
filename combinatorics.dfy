/**
 * Index tuples and the combination generator that stands in for
 * `itertools.combinations`: all ways of choosing `k` entries of a list,
 * keeping their order, listed in ascending lexicographic order of positions.
 */
module Combinatorics {

  /** A strictly increasing index tuple: every entry is below the next one. */
  predicate Increasing(g: seq<nat>)
  {
    |g| <= 1 || (g[0] < g[1] && Increasing(g[1..]))
  }

  /** Any two entries of an increasing tuple are in order. */
  lemma {:induction false} IncreasingPairs(g: seq<nat>)
    requires Increasing(g)
    ensures forall a, b :: 0 <= a < b < |g| ==> g[a] < g[b]
    decreases |g|
  {
    if |g| > 1 {
      var tail := g[1..];
      IncreasingPairs(tail);
      forall a, b | 0 <= a < b < |g| ensures g[a] < g[b] {
        assert g[b] == tail[b - 1];
        if a > 0 {
          assert g[a] == tail[a - 1];
        } else if b > 1 {
          assert g[1] == tail[0];
        }
      }
    }
  }

  /** A tuple whose entries are pairwise in order is increasing. */
  lemma {:induction false} PairsIncreasing(g: seq<nat>)
    requires forall a, b :: 0 <= a < b < |g| ==> g[a] < g[b]
    ensures Increasing(g)
    decreases |g|
  {
    if |g| > 1 {
      var tail := g[1..];
      assert forall a, b :: 0 <= a < b < |tail| ==> tail[a] == g[a + 1] && tail[b] == g[b + 1];
      PairsIncreasing(tail);
    }
  }

  /** Appending an entry above the last one keeps a tuple increasing. */
  lemma IncreasingAppend(g: seq<nat>, x: nat)
    requires Increasing(g) && forall j :: 0 <= j < |g| ==> g[j] < x
    ensures Increasing(g + [x])
  {
    IncreasingPairs(g);
    PairsIncreasing(g + [x]);
  }

  /** Every entry of `g` occurs in `xs`. */
  predicate DrawnFrom(g: seq<nat>, xs: seq<nat>)
  {
    forall j :: 0 <= j < |g| ==> g[j] in xs
  }

  /** `xs` strictly precedes `ys` in lexicographic order. */
  predicate LexLess(xs: seq<nat>, ys: seq<nat>)
  {
    exists d :: 0 <= d <= |xs| && d <= |ys| && xs[..d] == ys[..d] &&
      (d == |xs| ==> d < |ys|) && (d < |xs| ==> d < |ys| && xs[d] < ys[d])
  }

  /** A list of tuples that is strictly ascending in lexicographic order. */
  predicate LexSorted(cs: seq<seq<nat>>)
  {
    forall a, b :: 0 <= a < b < |cs| ==> LexLess(cs[a], cs[b])
  }

  /** Puts `x` in front of every tuple of `cs`. */
  function Prefixed(x: nat, cs: seq<seq<nat>>): (r: seq<seq<nat>>)
    ensures |r| == |cs|
    ensures forall i :: 0 <= i < |r| ==> r[i] == [x] + cs[i]
  {
    seq(|cs|, i requires 0 <= i < |cs| => [x] + cs[i])
  }

  /** A tuple of `cs` comes out of `Prefixed` with `x` in front. */
  lemma PrefixedHas(x: nat, cs: seq<seq<nat>>, t: seq<nat>)
    requires t in cs
    ensures [x] + t in Prefixed(x, cs)
  {
    var i :| 0 <= i < |cs| && cs[i] == t;
    assert Prefixed(x, cs)[i] == [x] + t;
  }

  /**
   * The `k`-element combinations of `xs`: first every combination that
   * takes `xs[0]`, then every one that skips it.
   */
  function Combinations(xs: seq<nat>, k: nat): (r: seq<seq<nat>>)
    ensures k == 0 ==> r == [[]]
    ensures |xs| < k ==> r == []
    ensures forall i :: 0 <= i < |r| ==> |r[i]| == k && DrawnFrom(r[i], xs)
    decreases |xs|
  {
    if k == 0 then [[]]
    else if xs == [] then []
    else
      var taking := Combinations(xs[1..], k - 1);
      var skipping := Combinations(xs[1..], k);
      var r := Prefixed(xs[0], taking) + skipping;
      assert forall i :: 0 <= i < |r| ==> DrawnFrom(r[i], xs) by {
        forall i | 0 <= i < |r| ensures DrawnFrom(r[i], xs) {
          var c := r[i];
          forall j | 0 <= j < |c| ensures c[j] in xs {
            if i < |taking| {
              assert c == [xs[0]] + taking[i];
              if j > 0 {
                assert c[j] == taking[i][j - 1];
                assert c[j] in xs[1..];
              }
            } else {
              assert c == skipping[i - |taking|];
              assert c[j] in xs[1..];
            }
          }
        }
      }
      r
  }

  /** The members of an increasing list that come after its head. */
  lemma AfterHead(xs: seq<nat>, e: nat)
    requires Increasing(xs) && xs != []
    requires e in xs && e != xs[0]
    ensures e in xs[1..] && xs[0] < e
  {
    IncreasingPairs(xs);
    var m :| 0 <= m < |xs| && xs[m] == e;
    assert xs[1..][m - 1] == e;
  }

  /** Combinations of an increasing list are increasing. */
  lemma {:induction false} CombinationsIncreasing(xs: seq<nat>, k: nat)
    requires Increasing(xs)
    ensures forall i :: 0 <= i < |Combinations(xs, k)| ==> Increasing(Combinations(xs, k)[i])
    decreases |xs|
  {
    if k > 0 && xs != [] {
      var rest := xs[1..];
      var taking := Combinations(rest, k - 1);
      CombinationsIncreasing(rest, k - 1);
      CombinationsIncreasing(rest, k);
      forall i | 0 <= i < |taking| ensures Increasing([xs[0]] + taking[i]) {
        var c := taking[i];
        assert ([xs[0]] + c)[1..] == c;
        if c != [] {
          assert c[0] in xs && c[0] != xs[0] by {
            assert c[0] in rest;
            var m :| 0 <= m < |rest| && rest[m] == c[0];
            assert xs[m + 1] == c[0];
            IncreasingPairs(xs);
          }
          AfterHead(xs, c[0]);
        }
      }
    }
  }

  /**
   * Completeness: every increasing tuple drawn from an increasing list is
   * produced, among the combinations of its own length.
   */
  lemma {:induction false} CombinationsComplete(xs: seq<nat>, c: seq<nat>)
    requires Increasing(xs) && Increasing(c) && DrawnFrom(c, xs)
    ensures |c| <= |xs| && c in Combinations(xs, |c|)
    decreases |xs|
  {
    if c != [] {
      assert c[0] in xs;
      IncreasingPairs(c);
      var rest := xs[1..];
      if c[0] == xs[0] {
        var tail := c[1..];
        forall j | 0 <= j < |tail| ensures tail[j] in rest {
          assert tail[j] == c[j + 1] && c[0] < c[j + 1];
          AfterHead(xs, tail[j]);
        }
        CombinationsComplete(rest, tail);
        PrefixedHas(xs[0], Combinations(rest, |c| - 1), tail);
        assert [xs[0]] + tail == c;
      } else {
        AfterHead(xs, c[0]);
        forall j | 0 <= j < |c| ensures c[j] in rest {
          if j > 0 {
            assert c[0] < c[j];
          }
          AfterHead(xs, c[j]);
        }
        CombinationsComplete(rest, c);
      }
    }
  }

  /**
   * The generator's order: the combinations of an increasing list come out
   * strictly ascending in lexicographic order (so each appears once).
   */
  lemma {:induction false} CombinationsSorted(xs: seq<nat>, k: nat)
    requires Increasing(xs)
    ensures LexSorted(Combinations(xs, k))
    decreases |xs|
  {
    if k > 0 && xs != [] {
      var rest := xs[1..];
      var taking := Combinations(rest, k - 1);
      var skipping := Combinations(rest, k);
      var pre := Prefixed(xs[0], taking);
      CombinationsSorted(rest, k - 1);
      CombinationsSorted(rest, k);
      var all := pre + skipping;
      forall a, b | 0 <= a < b < |all| ensures LexLess(all[a], all[b]) {
        if b < |pre| {
          PrefixKeepsOrder(xs[0], taking[a], taking[b]);
        } else if a < |pre| {
          var s := skipping[b - |pre|];
          assert s[0] in rest;
          HeadBelowRest(xs, s[0]);
          HeadDecides(all[a], s);
        } else {
          assert all[a] == skipping[a - |pre|] && all[b] == skipping[b - |pre|];
        }
      }
    }
  }

  /** The head of an increasing tuple is below everything after it. */
  lemma HeadBelowRest(xs: seq<nat>, e: nat)
    requires Increasing(xs) && xs != [] && e in xs[1..]
    ensures xs[0] < e
  {
    IncreasingPairs(xs);
    var m :| 0 <= m < |xs[1..]| && xs[1..][m] == e;
    assert xs[m + 1] == e;
  }

  /** Tuples with different first entries are ordered by them. */
  lemma HeadDecides(u: seq<nat>, v: seq<nat>)
    requires u != [] && v != [] && u[0] < v[0]
    ensures LexLess(u, v)
  {
    assert u[..0] == v[..0];
  }

  /** Putting the same head in front of two tuples keeps their order. */
  lemma PrefixKeepsOrder(x: nat, u: seq<nat>, v: seq<nat>)
    requires LexLess(u, v)
    ensures LexLess([x] + u, [x] + v)
  {
    var d :| 0 <= d <= |u| && d <= |v| && u[..d] == v[..d] &&
      (d == |u| ==> d < |v|) && (d < |u| ==> d < |v| && u[d] < v[d]);
    assert ([x] + u)[..d + 1] == [x] + u[..d];
    assert ([x] + v)[..d + 1] == [x] + v[..d];
  }
}
