/** The best sustained completion rate: a two-pointer sweep over time-ordered samples. */
module WindowRate {

  /** Elapsed nanoseconds and the number of completed workflows. */
  datatype Sample = Sample(t: nat, completed: nat)

  predicate Nondecreasing(s: seq<Sample>) {
    forall i, j :: 0 <= i <= j < |s| ==> s[i].t <= s[j].t && s[i].completed <= s[j].completed
  }

  function Seconds(nanos: nat): real {
    nanos as real / 1_000_000_000.0
  }

  function Span(s: seq<Sample>, l: nat, r: nat): int
    requires l < |s| && r < |s|
  {
    s[r].t - s[l].t
  }

  /** Completions per second between two samples. */
  function Rate(s: seq<Sample>, l: nat, r: nat): real
    requires Nondecreasing(s) && l <= r < |s| && Span(s, l, r) > 0
  {
    (s[r].completed - s[l].completed) as real / Seconds(Span(s, l, r))
  }

  /** The required width: the target, or the whole run if that is shorter. */
  function Window(s: seq<Sample>, target: nat): nat
    requires Nondecreasing(s) && s != []
  {
    var total: nat := Span(s, 0, |s| - 1);
    if total < target then total else target
  }

  /** A window wide enough to count. */
  ghost predicate Wide(s: seq<Sample>, w: nat, l: nat, r: nat) {
    l <= r < |s| && Span(s, l, r) >= w
  }

  /** Among the wide windows ending at `r`, the one that starts last. */
  ghost predicate Narrowest(s: seq<Sample>, w: nat, l: nat, r: nat) {
    Wide(s, w, l, r) && forall k :: l < k <= r ==> !Wide(s, w, k, r)
  }

  /** The largest rate of a narrowest window ending before `n`, or zero if there is none. */
  ghost predicate Best(s: seq<Sample>, w: nat, n: nat, best: real)
    requires Nondecreasing(s) && w > 0
  {
    && best >= 0.0
    && (forall l: nat, r: nat :: r < n && Narrowest(s, w, l, r) ==> Rate(s, l, r) <= best)
    && (best == 0.0 || exists l: nat, r: nat :: r < n && Narrowest(s, w, l, r) && Rate(s, l, r) == best)
  }

  lemma RateNonNegative(s: seq<Sample>, l: nat, r: nat)
    requires Nondecreasing(s) && l <= r < |s| && Span(s, l, r) > 0
    ensures Rate(s, l, r) >= 0.0
  {
  }

  method BestWindowRate(s: seq<Sample>, target: nat) returns (best: real)
    requires Nondecreasing(s)
    ensures s == [] ==> best == 0.0
    ensures |s| == 1 ==> best == if s[0].t == 0 then 0.0 else s[0].completed as real / Seconds(s[0].t)
    ensures |s| >= 2 && Window(s, target) == 0 ==> best == 0.0
    ensures |s| >= 2 && Window(s, target) > 0 ==> Best(s, Window(s, target), |s|, best)
  {
    if |s| < 2 {
      return if |s| == 1 && s[0].t != 0 then s[0].completed as real / Seconds(s[0].t) else 0.0;
    }
    var w := Window(s, target);
    if w == 0 {
      return 0.0;
    }
    best := 0.0;
    var left := 0;
    for right := 0 to |s|
      invariant 0 <= left < |s| && (right > 0 ==> left < right)
      invariant left > 0 ==> right > 0 && Span(s, left, right - 1) >= w
      invariant Best(s, w, right, best)
    {
      while left < right && Span(s, left + 1, right) >= w
        invariant 0 <= left <= right
        invariant left > 0 ==> Span(s, left, right) >= w
      {
        left := left + 1;
      }
      OnlyNarrowest(s, w, left, right);
      if Span(s, left, right) >= w {
        RateNonNegative(s, left, right);
        var rate := Rate(s, left, right);
        BestStep(s, w, right, best, left);
        if rate > best {
          best := rate;
        }
      }
    }
  }

  /** Where the inner loop stops, it has found the narrowest window, if any window is wide enough. */
  lemma OnlyNarrowest(s: seq<Sample>, w: nat, left: nat, right: nat)
    requires Nondecreasing(s) && w > 0 && left <= right < |s|
    requires left > 0 ==> Span(s, left, right) >= w
    requires left < right ==> Span(s, left + 1, right) < w
    ensures forall l: nat :: Narrowest(s, w, l, right) <==> l == left && Span(s, left, right) >= w
  {
    forall k | left < k <= right ensures !Wide(s, w, k, right) {
      assert s[left + 1].t <= s[k].t;
    }
    assert left > 0 ==> Wide(s, w, left, right);
  }

  lemma BestStep(s: seq<Sample>, w: nat, n: nat, best: real, left: nat)
    requires Nondecreasing(s) && w > 0 && n < |s| && Best(s, w, n, best)
    requires Narrowest(s, w, left, n) && forall l: nat :: Narrowest(s, w, l, n) ==> l == left
    requires Rate(s, left, n) >= 0.0
    ensures Best(s, w, n + 1, if Rate(s, left, n) > best then Rate(s, left, n) else best)
  {
    hide Rate;
    var best' := if Rate(s, left, n) > best then Rate(s, left, n) else best;
    if best' != 0.0 && best' == best {
      var l: nat, r: nat :| r < n && Narrowest(s, w, l, r) && Rate(s, l, r) == best;
      assert r < n + 1;
    }
  }

  // ----- the maximum over all wide windows -----

  /** What the documentation claims: no wide window at all has a higher rate. */
  ghost predicate Maximal(s: seq<Sample>, w: nat, best: real)
    requires Nondecreasing(s) && w > 0
  {
    forall l: nat, r: nat :: Wide(s, w, l, r) ==> Rate(s, l, r) <= best
  }

  /** A narrowest window `n..r`, stretched to the left over a time shorter than the required width. */
  ghost predicate Stretched(s: seq<Sample>, w: nat, l: nat, n: nat, r: nat) {
    l < n && Narrowest(s, w, n, r) && Span(s, l, n) < w
  }

  /** Some narrowest window is as fast as `l..r`. */
  ghost predicate Matched(s: seq<Sample>, w: nat, l: nat, r: nat)
    requires Nondecreasing(s) && w > 0 && Wide(s, w, l, r)
  {
    exists l': nat, r': nat :: Narrowest(s, w, l', r') && Rate(s, l, r) <= Rate(s, l', r')
  }

  /** Stretching a narrowest window never makes it faster than every narrowest window. */
  ghost predicate StretchesMatched(s: seq<Sample>, w: nat)
    requires Nondecreasing(s) && w > 0
  {
    forall l: nat, n: nat, r: nat :: Stretched(s, w, l, n, r) ==> Wide(s, w, l, r) && Matched(s, w, l, r)
  }

  lemma RateAtMost(s: seq<Sample>, l: nat, r: nat, b: real)
    requires Nondecreasing(s) && l <= r < |s| && Span(s, l, r) > 0
    ensures Rate(s, l, r) <= b <==> (s[r].completed - s[l].completed) as real <= b * Seconds(Span(s, l, r))
  {
    var n, t := (s[r].completed - s[l].completed) as real, Seconds(Span(s, l, r));
    assert t > 0.0 && Rate(s, l, r) * t == n;
    if Rate(s, l, r) <= b {
      assert (b - Rate(s, l, r)) * t >= 0.0;
    } else {
      assert (Rate(s, l, r) - b) * t > 0.0;
    }
  }

  /** A window cut in two is no faster than the faster part. */
  lemma Mediant(s: seq<Sample>, l: nat, n: nat, r: nat, b: real)
    requires Nondecreasing(s) && l <= n <= r < |s| && Span(s, l, n) > 0 && Span(s, n, r) > 0
    requires Rate(s, l, n) <= b && Rate(s, n, r) <= b
    ensures Rate(s, l, r) <= b
  {
    RateAtMost(s, l, n, b);
    RateAtMost(s, n, r, b);
    RateAtMost(s, l, r, b);
    assert Seconds(Span(s, l, r)) == Seconds(Span(s, l, n)) + Seconds(Span(s, n, r));
  }

  /** Every wide window contains a narrowest one with the same end. */
  lemma {:induction false} NarrowestWithin(s: seq<Sample>, w: nat, l: nat, r: nat) returns (n: nat)
    requires Nondecreasing(s) && w > 0 && Wide(s, w, l, r)
    ensures l <= n && Narrowest(s, w, n, r)
    decreases r - l
  {
    if k :| l < k <= r && Wide(s, w, k, r) {
      n := NarrowestWithin(s, w, k, r);
    } else {
      n := l;
    }
  }

  lemma {:induction false} WideAtMost(s: seq<Sample>, w: nat, best: real, l: nat, r: nat)
    requires Nondecreasing(s) && w > 0 && Best(s, w, |s|, best) && StretchesMatched(s, w) && Wide(s, w, l, r)
    ensures Rate(s, l, r) <= best
    decreases r - l
  {
    hide Rate;
    var n := NarrowestWithin(s, w, l, r);
    if l < n {
      assert Stretched(s, w, l, n, r) <==> Span(s, l, n) < w;
      if Span(s, l, n) < w {
        var l': nat, r': nat :| Narrowest(s, w, l', r') && Rate(s, l, r) <= Rate(s, l', r');
      } else {
        WideAtMost(s, w, best, l, n);
        Mediant(s, l, n, r, best);
      }
    }
  }

  /**
   The documented maximum holds exactly when every stretched narrowest window is matched by a narrowest
   one. Wider windows need not be looked at: they fall apart into windows that are.
   */
  lemma MaximumExact(s: seq<Sample>, w: nat, best: real)
    requires Nondecreasing(s) && w > 0 && Best(s, w, |s|, best)
    ensures Maximal(s, w, best) <==> StretchesMatched(s, w)
  {
    if StretchesMatched(s, w) {
      forall l: nat, r: nat | Wide(s, w, l, r) ensures Rate(s, l, r) <= best {
        WideAtMost(s, w, best, l, r);
      }
    }
    if Maximal(s, w, best) {
      forall l: nat, n: nat, r: nat | Stretched(s, w, l, n, r) ensures Wide(s, w, l, r) && Matched(s, w, l, r) {
        StretchMatched(s, w, best, l, n, r);
      }
    }
  }

  lemma StretchMatched(s: seq<Sample>, w: nat, best: real, l: nat, n: nat, r: nat)
    requires Nondecreasing(s) && w > 0 && Best(s, w, |s|, best) && Maximal(s, w, best) && Stretched(s, w, l, n, r)
    ensures Wide(s, w, l, r) && Matched(s, w, l, r)
  {
    assert s[l].t <= s[n].t;
    assert Wide(s, w, l, r) && Rate(s, l, r) <= best;
    RateNonNegative(s, n, r);
    hide Rate;
    if best == 0.0 {
      assert Rate(s, l, r) <= Rate(s, n, r);
    } else {
      var l': nat, r': nat :| r' < |s| && Narrowest(s, w, l', r') && Rate(s, l', r') == best;
      assert Rate(s, l, r) <= Rate(s, l', r');
    }
  }

  /** In particular it holds when neighbouring samples are at least the required width apart. */
  lemma SparseSamplesAreMaximal(s: seq<Sample>, w: nat, best: real)
    requires Nondecreasing(s) && w > 0 && Best(s, w, |s|, best)
    requires forall i, j :: 0 <= i < j < |s| && j == i + 1 ==> s[j].t - s[i].t >= w
    ensures Maximal(s, w, best)
  {
    forall l: nat, n: nat | l < n < |s| ensures Span(s, l, n) >= w {
      var i := n - 1;
      assert s[n].t - s[i].t >= w && s[l].t <= s[i].t;
    }
    assert StretchesMatched(s, w);
    MaximumExact(s, w, best);
  }

  /** The maximum over all wide windows can be larger: here the sweep finds 0. */
  lemma WiderWindowCanBeFaster()
    ensures
      var s := [Sample(0, 0), Sample(1, 9), Sample(3, 9)];
      Nondecreasing(s) && Window(s, 2) == 2 && Best(s, 2, 3, 0.0) && !Maximal(s, 2, 0.0) && !StretchesMatched(s, 2)
  {
    var s := [Sample(0, 0), Sample(1, 9), Sample(3, 9)];
    forall l: nat, r: nat | r < 3 && Narrowest(s, 2, l, r) ensures Rate(s, l, r) <= 0.0 {
      assert r == 2 && Wide(s, 2, 1, 2);
      assert l == 1;
    }
    assert Wide(s, 2, 0, 2) && Rate(s, 0, 2) > 0.0;
    MaximumExact(s, 2, 0.0);
  }

  // ----- runs that are not longer than the target -----

  /** The last sample taken at the start time. */
  ghost predicate LastAtStart(s: seq<Sample>, k: nat) {
    k < |s| && s[k].t == s[0].t && (k + 1 < |s| ==> s[k + 1].t > s[0].t)
  }

  /** The result for a run within the target is the rate from the last sample at the start time. */
  lemma ShortRunRate(s: seq<Sample>, k: nat, best: real)
    requires Nondecreasing(s) && |s| >= 2 && Span(s, 0, |s| - 1) > 0 && LastAtStart(s, k)
    requires Best(s, Span(s, 0, |s| - 1), |s|, best)
    ensures best == Rate(s, k, |s| - 1)
  {
    var last, w: nat := |s| - 1, Span(s, 0, |s| - 1);
    WholeRunWindows(s, k, w);
    forall l: nat, r: nat | Narrowest(s, w, l, r) ensures Rate(s, l, r) <= Rate(s, k, last) {
      RateAtMost(s, k, r, Rate(s, k, last));
      RateAtMost(s, k, last, Rate(s, k, last));
    }
    RateNonNegative(s, k, last);
    hide Rate;
    assert Rate(s, k, last) <= best;
  }

  /** Windows as wide as the run start at its first and end at its last moment. */
  lemma WholeRunWindows(s: seq<Sample>, k: nat, w: nat)
    requires Nondecreasing(s) && |s| >= 2 && w == Span(s, 0, |s| - 1) > 0 && LastAtStart(s, k)
    ensures Narrowest(s, w, k, |s| - 1)
    ensures forall l: nat, r: nat :: Narrowest(s, w, l, r) ==> l == k && s[r].t == s[|s| - 1].t
  {
    var last := |s| - 1;
    forall i | k < i < |s| ensures s[i].t > s[0].t {
      assert s[k + 1].t <= s[i].t;
    }
    forall l: nat, r: nat | Narrowest(s, w, l, r) ensures l == k && s[r].t == s[last].t {
      assert s[0].t <= s[l].t && s[r].t <= s[last].t;
      assert l <= k && Wide(s, w, k, r);
    }
  }

  /**
   The documented whole-run rate holds exactly when nothing completed between the first and the last
   sample at the start time.
   */
  lemma WholeRunExact(s: seq<Sample>, k: nat, best: real)
    requires Nondecreasing(s) && |s| >= 2 && Span(s, 0, |s| - 1) > 0 && LastAtStart(s, k)
    requires Best(s, Span(s, 0, |s| - 1), |s|, best)
    ensures best == Rate(s, 0, |s| - 1) <==> s[k].completed == s[0].completed
  {
    ShortRunRate(s, k, best);
    var last := |s| - 1;
    RateAtMost(s, 0, last, best);
    RateAtMost(s, k, last, Rate(s, 0, last));
    RateAtMost(s, k, last, best);
    RateAtMost(s, 0, last, Rate(s, 0, last));
  }

  /** So a short run need not yield the whole-run rate. */
  lemma WholeRunCanBeMissed()
    ensures
      var s := [Sample(0, 0), Sample(0, 5), Sample(10, 5)];
      Nondecreasing(s) && Window(s, 100) == 10 && Best(s, 10, 3, 0.0) && Rate(s, 0, 2) > 0.0
  {
    var s := [Sample(0, 0), Sample(0, 5), Sample(10, 5)];
    forall l: nat, r: nat | r < 3 && Narrowest(s, 10, l, r) ensures Rate(s, l, r) <= 0.0 {
      assert r == 2 && Wide(s, 10, 1, 2);
      assert l == 1;
    }
  }
}
