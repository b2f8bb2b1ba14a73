/**
 * The design history kept after each successful generation: the new design is
 * put in front, later entries with the same image URL are dropped, and the list
 * is cut to ten entries.
 */
module History {
  import opened Base
  import opened Types

  const MaxHistory := 10

  /** `a.findIndex(t => t.imageUrl === url)`: the first position with that URL, or -1. */
  function FindIndex(a: seq<Design>, url: Option<string>): (r: int)
    ensures -1 <= r < |a|
    ensures r >= 0 ==> a[r].imageUrl == url
    ensures forall j | 0 <= j < |a| && (r == -1 || j < r) :: a[j].imageUrl != url
  {
    if a == [] then -1
    else if a[0].imageUrl == url then 0
    else
      var k := FindIndex(a[1..], url);
      if k == -1 then -1 else k + 1
  }

  /** The position of the first entry sharing the URL of `a[i]`; at most `i`. */
  function FirstOf(a: seq<Design>, i: nat): (r: nat)
    requires i < |a|
    ensures r <= i && a[r].imageUrl == a[i].imageUrl
  {
    FindIndex(a, a[i].imageUrl)
  }

  /**
   * `a.filter((v, i, a) => a.findIndex(t => t.imageUrl === v.imageUrl) === i)`
   * applied to the first `n` positions.
   */
  function FilterFirst(a: seq<Design>, n: nat): seq<Design>
    requires n <= |a|
  {
    if n == 0 then []
    else
      var p := FilterFirst(a, n - 1);
      if FindIndex(a, a[n - 1].imageUrl) == n - 1 then p + [a[n - 1]] else p
  }

  /** Every entry the filter keeps is the first entry with its URL, at a position below `n`. */
  lemma {:induction false} FilterFirstSound(a: seq<Design>, n: nat)
    requires n <= |a|
    ensures forall k | 0 <= k < |FilterFirst(a, n)| ::
      0 <= FindIndex(a, FilterFirst(a, n)[k].imageUrl) < n && a[FindIndex(a, FilterFirst(a, n)[k].imageUrl)] == FilterFirst(a, n)[k]
  {
    if n > 0 {
      FilterFirstSound(a, n - 1);
      var p := FilterFirst(a, n - 1);
      if FindIndex(a, a[n - 1].imageUrl) == n - 1 {
        var r := p + [a[n - 1]];
        assert FilterFirst(a, n) == r;
        forall k | 0 <= k < |r|
          ensures 0 <= FindIndex(a, r[k].imageUrl) < n && a[FindIndex(a, r[k].imageUrl)] == r[k]
        {
          if k < |p| {
            assert r[k] == p[k];
            assert 0 <= FindIndex(a, p[k].imageUrl) < n - 1;
          } else {
            assert r[k] == a[n - 1];
          }
        }
      } else {
        assert FilterFirst(a, n) == p;
      }
    }
  }

  /** Kept entries appear in increasing position of their first occurrence. */
  lemma {:induction false} FilterFirstOrdered(a: seq<Design>, n: nat)
    requires n <= |a|
    ensures forall k1, k2 | 0 <= k1 < k2 < |FilterFirst(a, n)| ::
      FindIndex(a, FilterFirst(a, n)[k1].imageUrl) < FindIndex(a, FilterFirst(a, n)[k2].imageUrl)
  {
    if n > 0 {
      FilterFirstOrdered(a, n - 1);
      FilterFirstSound(a, n - 1);
      var p := FilterFirst(a, n - 1);
      if FindIndex(a, a[n - 1].imageUrl) == n - 1 {
        var r := p + [a[n - 1]];
        assert FilterFirst(a, n) == r;
        forall k1, k2 | 0 <= k1 < k2 < |r|
          ensures FindIndex(a, r[k1].imageUrl) < FindIndex(a, r[k2].imageUrl)
        {
          assert r[k1] == p[k1];
          if k2 < |p| { assert r[k2] == p[k2]; } else { assert r[k2] == a[n - 1]; }
        }
      }
    }
  }

  /** Every position below `n` that is the first with its URL is kept. */
  lemma {:induction false} FilterFirstComplete(a: seq<Design>, n: nat)
    requires n <= |a|
    ensures forall i | 0 <= i < n && FirstOf(a, i) == i :: a[i] in FilterFirst(a, n)
  {
    if n > 0 {
      FilterFirstComplete(a, n - 1);
      var p := FilterFirst(a, n - 1);
      if FindIndex(a, a[n - 1].imageUrl) == n - 1 {
        assert FilterFirst(a, n) == p + [a[n - 1]];
      }
    }
  }

  /** The de-duplicated list. */
  function Dedup(a: seq<Design>): seq<Design> {
    FilterFirst(a, |a|)
  }

  /** Distinct entries have distinct image URLs. */
  predicate UniqueUrls(h: seq<Design>) {
    forall i, j | 0 <= i < j < |h| :: h[i].imageUrl != h[j].imageUrl
  }

  /** The history after generating `d` on top of `prev`. */
  function Update(d: Design, prev: seq<Design>): seq<Design> {
    Take(Dedup([d] + prev), MaxHistory)
  }

  /** Kept entries are in increasing source position, so no URL is kept twice. */
  lemma DedupUnique(a: seq<Design>)
    ensures UniqueUrls(Dedup(a))
  {
    FilterFirstOrdered(a, |a|);
    var r := Dedup(a);
    forall i, j | 0 <= i < j < |r| ensures r[i].imageUrl != r[j].imageUrl {
      assert FindIndex(a, r[i].imageUrl) < FindIndex(a, r[j].imageUrl);
    }
  }

  /** The first entry of a non-empty list is always kept, and kept first. */
  lemma {:induction false} DedupHead(a: seq<Design>)
    requires |a| > 0
    ensures |Dedup(a)| > 0 && Dedup(a)[0] == a[0]
  {
    var r := Dedup(a);
    FilterFirstComplete(a, |a|);
    FilterFirstSound(a, |a|);
    FilterFirstOrdered(a, |a|);
    assert FirstOf(a, 0) == 0;
    assert a[0] in r;
    var k :| 0 <= k < |r| && r[k] == a[0];
    assert FindIndex(a, r[k].imageUrl) == 0;
  }

  /**
   * After a generation, the new design heads the history, the history holds at
   * most ten entries with pairwise distinct image URLs, no later entry shares
   * the new design's URL, and every entry comes from `[d] + prev`.
   */
  lemma {:induction false} UpdateSpec(d: Design, prev: seq<Design>)
    ensures var h := Update(d, prev);
      && |h| >= 1 && h[0] == d
      && |h| <= MaxHistory
      && UniqueUrls(h)
      && (forall k | 1 <= k < |h| :: h[k].imageUrl != d.imageUrl)
      && (forall k | 0 <= k < |h| :: h[k] in [d] + prev)
  {
    var a := [d] + prev;
    var r := Dedup(a);
    FilterFirstSound(a, |a|);
    DedupHead(a);
    DedupUnique(a);
    var h := Update(d, prev);
    assert h == r[..|h|];
    forall k | 0 <= k < |h| ensures h[k] in a {
      assert h[k] == r[k] == a[FindIndex(a, r[k].imageUrl)];
    }
    forall i, j | 0 <= i < j < |h| ensures h[i].imageUrl != h[j].imageUrl {
      assert h[i] == r[i] && h[j] == r[j];
    }
    forall k | 1 <= k < |h| ensures h[k].imageUrl != d.imageUrl {
      assert h[k] == r[k] && h[0] == r[0];
    }
  }

  /**
   * Survivors keep their relative order from `[d] + prev`: the source positions
   * of the history entries strictly increase.
   */
  lemma {:induction false} UpdateKeepsOrder(d: Design, prev: seq<Design>)
    ensures var a, h := [d] + prev, Update(d, prev);
      forall k1, k2 | 0 <= k1 < k2 < |h| ::
        0 <= FindIndex(a, h[k1].imageUrl) < FindIndex(a, h[k2].imageUrl)
  {
    var a := [d] + prev;
    var r := Dedup(a);
    FilterFirstSound(a, |a|);
    FilterFirstOrdered(a, |a|);
    var h := Update(d, prev);
    assert h == r[..|h|];
    forall k1, k2 | 0 <= k1 < k2 < |h|
      ensures 0 <= FindIndex(a, h[k1].imageUrl) < FindIndex(a, h[k2].imageUrl)
    {
      assert h[k1] == r[k1] && h[k2] == r[k2];
    }
  }

  /**
   * When fewer than ten distinct URLs are in play nothing is cut: every URL of
   * `[d] + prev` is represented in the new history.
   */
  lemma {:induction false} UpdateKeepsAllWhenShort(d: Design, prev: seq<Design>)
    requires |Dedup([d] + prev)| <= MaxHistory
    ensures var a, h := [d] + prev, Update(d, prev);
      forall i | 0 <= i < |a| :: exists k | 0 <= k < |h| :: h[k].imageUrl == a[i].imageUrl
  {
    var a := [d] + prev;
    var h := Update(d, prev);
    assert h == Dedup(a);
    FilterFirstComplete(a, |a|);
    forall i | 0 <= i < |a| ensures exists k | 0 <= k < |h| :: h[k].imageUrl == a[i].imageUrl {
      var f := FirstOf(a, i);
      assert FirstOf(a, f) == f;
      assert a[f] in h;
    }
  }

  /** On a list with unique URLs, every entry is the first with its URL. */
  lemma FindIndexUnique(a: seq<Design>, i: nat)
    requires i < |a| && UniqueUrls(a)
    ensures FindIndex(a, a[i].imageUrl) == i
  {
  }

  /** A position that is the first with its URL is appended. */
  lemma FilterFirstKeeps(a: seq<Design>, n: nat)
    requires 0 < n <= |a| && FindIndex(a, a[n - 1].imageUrl) == n - 1
    ensures FilterFirst(a, n) == FilterFirst(a, n - 1) + [a[n - 1]]
  {}

  lemma TakeOneMore<T>(a: seq<T>, n: nat)
    requires 0 < n <= |a|
    ensures a[..n] == a[..n - 1] + [a[n - 1]]
  {}

  /** On a list whose URLs are already unique the filter keeps everything. */
  lemma {:induction false} FilterFirstUnique(a: seq<Design>, n: nat)
    requires n <= |a| && UniqueUrls(a)
    ensures FilterFirst(a, n) == a[..n]
  {
    if n > 0 {
      FilterFirstUnique(a, n - 1);
      FindIndexUnique(a, n - 1);
      FilterFirstKeeps(a, n);
      TakeOneMore(a, n);
    }
  }

  /**
   * A design with a fresh URL on top of a duplicate-free history is simply
   * prepended, and the oldest entry falls off once there are more than ten.
   */
  lemma {:induction false} UpdateFresh(d: Design, prev: seq<Design>)
    requires UniqueUrls(prev)
    requires forall k | 0 <= k < |prev| :: prev[k].imageUrl != d.imageUrl
    ensures Update(d, prev) == Take([d] + prev, MaxHistory)
  {
    var a := [d] + prev;
    assert UniqueUrls(a) by {
      forall i, j | 0 <= i < j < |a| ensures a[i].imageUrl != a[j].imageUrl {
        assert a[j] == prev[j - 1];
        if i > 0 { assert a[i] == prev[i - 1]; }
      }
    }
    FilterFirstUnique(a, |a|);
    assert a[..|a|] == a;
  }
}
