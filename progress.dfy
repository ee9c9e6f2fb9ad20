/**
 * `calculateProgress` of src/lib/store.js: completion percentages of a
 * site's timeline and checklist and their 70/30 weighted overall value,
 * each rounded once with `Math.round`. A percentage whose total is zero is
 * NaN in the code (a division of zero by zero); here it is `None`.
 */
module Progress {
  import opened Wrappers
  import opened Domain
  import opened Seed

  /** `Math.round(p / q)` for an exact fraction: the integer nearest to p/q, halves rounded up. */
  function Round(p: int, q: int): (r: int)
    requires q > 0
    ensures q * (2 * r - 1) <= 2 * p < q * (2 * r + 1)
  {
    (2 * p + q) / (2 * q)
  }

  /** A fraction between 0 and `hi` rounds to an integer between 0 and `hi`. */
  lemma RoundWithin(p: int, q: int, hi: nat)
    requires q > 0 && 0 <= p <= hi * q
    ensures 0 <= Round(p, q) <= hi
  {
    var r := Round(p, q);
    if r > hi {
      MulMono(2 * hi + 1, 2 * r - 1, q);
    }
  }

  lemma MulMono(a: int, b: int, m: nat)
    requires a <= b
    ensures a * m <= b * m
  {
  }

  /** The integer bounds of `Round` read as real numbers: `r` is within one half of p/q. */
  lemma RoundAsReal(p: int, q: int, r: int)
    requires q > 0 && q * (2 * r - 1) <= 2 * p < q * (2 * r + 1)
    ensures r as real - 0.5 <= p as real / q as real < r as real + 0.5
  {
    var P, Q, R := p as real, q as real, r as real;
    CastProduct(q, 2 * r - 1);
    CastProduct(q, 2 * r + 1);
    HalfShift(Q, R, -0.5);
    HalfShift(Q, R, 0.5);
    DivLower(R - 0.5, P, Q);
    DivUpper(R + 0.5, P, Q);
  }

  lemma CastProduct(a: int, b: int)
    ensures (a * b) as real == a as real * b as real
  {
  }

  lemma HalfShift(m: real, x: real, d: real)
    ensures (x + d) * m == (m * (2.0 * x + 2.0 * d)) / 2.0
  {
  }

  lemma DivTimes(b: real, m: real)
    requires m != 0.0
    ensures (b / m) * m == b
  {
  }

  lemma DivLower(a: real, b: real, m: real)
    requires m > 0.0 && a * m <= b
    ensures a <= b / m
  {
    DivTimes(b, m);
    CancelPositive(a, b / m, m);
  }

  lemma DivUpper(a: real, b: real, m: real)
    requires m > 0.0 && b < a * m
    ensures b / m < a
  {
    DivTimes(b, m);
    CancelPositiveStrict(b / m, a, m);
  }

  lemma CancelPositive(a: real, b: real, m: real)
    requires m > 0.0 && a * m <= b * m
    ensures a <= b
  {
  }

  lemma CancelPositiveStrict(a: real, b: real, m: real)
    requires m > 0.0 && a * m < b * m
    ensures a < b
  {
  }

  /** The result object; `None` in a percentage stands for NaN and in `total` for an absent key. */
  datatype ProgressResult = ProgressResult(
    timeline: Option<int>, checklist: Option<int>, overall: Option<int>,
    working: nat, completed: nat, total: Option<nat>)

  /** The result for a site id that is not found: zeros, and no `total` key. */
  const Zero := ProgressResult(Some(0), Some(0), Some(0), 0, 0, None)

  function CountStatus(t: seq<TimelineItem>, status: string): (n: nat)
    ensures n <= |t|
  {
    if t == [] then 0 else (if t[0].status == Some(status) then 1 else 0) + CountStatus(t[1..], status)
  }

  function CountChecked(c: seq<ChecklistItem>): (n: nat)
    ensures n <= |c|
  {
    if c == [] then 0 else (if c[0].checked then 1 else 0) + CountChecked(c[1..])
  }

  /** Setting `checked` of one item moves the checked count by exactly that item's change. */
  lemma {:induction false} CountCheckedUpdate(c: seq<ChecklistItem>, k: nat, v: bool)
    requires k < |c|
    ensures CountChecked(c[k := c[k].(checked := v)]) + (if c[k].checked then 1 else 0)
      == CountChecked(c) + (if v then 1 else 0)
    decreases |c|
  {
    var c' := c[k := c[k].(checked := v)];
    if k == 0 {
      assert c'[1..] == c[1..];
    } else {
      assert c'[1..] == c[1..][k - 1 := c[1..][k - 1].(checked := v)];
      CountCheckedUpdate(c[1..], k - 1, v);
    }
  }

  /** `(part / whole) * 100` rounded, or NaN when `whole` is zero. */
  function Percent(part: nat, whole: nat): Option<int> {
    if whole == 0 then None else Some(Round(100 * part, whole))
  }

  /** The progress of one site: `calculateProgress` once the site has been found. */
  function SiteProgress(site: Site): ProgressResult {
    var t := |site.timeline|;
    var c := CountStatus(site.timeline, "completed");
    var w := CountStatus(site.timeline, "working");
    var n := |site.checklist|;
    var k := CountChecked(site.checklist);
    ProgressResult(
      Percent(c, t), Percent(k, n),
      // 0.7 * (100c/t) + 0.3 * (100k/n) == (70cn + 30kt) / (tn)
      if t == 0 || n == 0 then None else Some(Round(70 * (c * n) + 30 * (k * t), t * n)),
      w, c, Some(t))
  }

  /** An item cannot be both completed and working, so the two counts together never exceed the total. */
  lemma {:induction false} CompletedPlusWorking(t: seq<TimelineItem>)
    ensures CountStatus(t, "completed") + CountStatus(t, "working") <= |t|
  {
    if t != [] {
      CompletedPlusWorking(t[1..]);
    }
  }

  /** Timeline percentage: NaN exactly for an empty timeline, otherwise within [0, 100]. */
  lemma TimelineBounds(site: Site)
    ensures SiteProgress(site).timeline.Some? <==> |site.timeline| > 0
    ensures SiteProgress(site).timeline.Some? ==> 0 <= SiteProgress(site).timeline.value <= 100
  {
    if |site.timeline| > 0 {
      RoundWithin(100 * CountStatus(site.timeline, "completed"), |site.timeline|, 100);
    }
  }

  /** Checklist percentage: NaN exactly for an empty checklist, otherwise within [0, 100]. */
  lemma ChecklistBounds(site: Site)
    ensures SiteProgress(site).checklist.Some? <==> |site.checklist| > 0
    ensures SiteProgress(site).checklist.Some? ==> 0 <= SiteProgress(site).checklist.value <= 100
  {
    if |site.checklist| > 0 {
      RoundWithin(100 * CountChecked(site.checklist), |site.checklist|, 100);
    }
  }

  /** Overall percentage: NaN when either list is empty, otherwise within [0, 100]; the counts fit the total. */
  lemma OverallBounds(site: Site)
    ensures SiteProgress(site).overall.Some? <==> |site.timeline| > 0 && |site.checklist| > 0
    ensures SiteProgress(site).overall.Some? ==> 0 <= SiteProgress(site).overall.value <= 100
    ensures SiteProgress(site).total == Some(|site.timeline|)
    ensures SiteProgress(site).completed + SiteProgress(site).working <= |site.timeline|
  {
    var t := |site.timeline|;
    var c := CountStatus(site.timeline, "completed");
    var n := |site.checklist|;
    var k := CountChecked(site.checklist);
    CompletedPlusWorking(site.timeline);
    if t > 0 && n > 0 {
      WeightedWithin(c, t, k, n);
      RoundWithin(70 * (c * n) + 30 * (k * t), t * n, 100);
    }
  }

  /** The numerator of the weighted sum lies between 0 and 100 times its denominator. */
  lemma WeightedWithin(c: nat, t: nat, k: nat, n: nat)
    requires c <= t && k <= n
    ensures 0 <= 70 * (c * n) + 30 * (k * t) <= 100 * (t * n)
  {
    MulMono(c, t, n);
    MulMono(k, n, t);
    assert n * t == t * n;
  }

  /**
   * `overall` is the unrounded `0.7 * timeline + 0.3 * checklist` rounded
   * once: it lies within one half of that exact value (and is not the
   * weighted sum of the already rounded components).
   */
  lemma OverallRoundsExactWeightedSum(site: Site)
    requires |site.timeline| > 0 && |site.checklist| > 0
    ensures var p := SiteProgress(site);
      var exact := 0.7 * (100.0 * CountStatus(site.timeline, "completed") as real / |site.timeline| as real)
                 + 0.3 * (100.0 * CountChecked(site.checklist) as real / |site.checklist| as real);
      p.overall.Some? && p.overall.value as real - 0.5 <= exact < p.overall.value as real + 0.5
  {
    var t := |site.timeline|;
    var c := CountStatus(site.timeline, "completed");
    var n := |site.checklist|;
    var k := CountChecked(site.checklist);
    var num := 70 * (c * n) + 30 * (k * t);
    WeightedSumAsFraction(c, t, k, n);
    RoundAsReal(num, t * n, Round(num, t * n));
  }

  /** 0.7 * (100c/t) + 0.3 * (100k/n) == (70cn + 30kt) / (tn). */
  lemma WeightedSumAsFraction(c: nat, t: nat, k: nat, n: nat)
    requires t > 0 && n > 0
    ensures 0.7 * (100.0 * c as real / t as real) + 0.3 * (100.0 * k as real / n as real)
            == (70 * (c * n) + 30 * (k * t)) as real / (t * n) as real
  {
    var tr, nr := t as real, n as real;
    assert (t * n) as real == tr * nr;
    assert (70 * (c * n) + 30 * (k * t)) as real == 70.0 * c as real * nr + 30.0 * k as real * tr;
    assert 100.0 * c as real / tr == (100.0 * c as real * nr) / (tr * nr);
    assert 100.0 * k as real / nr == (100.0 * k as real * tr) / (tr * nr);
  }

  /** Every item meeting a condition makes the count equal the length. */
  lemma {:induction false} AllCompletedCount(t: seq<TimelineItem>)
    ensures CountStatus(t, "completed") == |t| <==> forall i :: 0 <= i < |t| ==> t[i].status == Some("completed")
  {
    if t != [] {
      AllCompletedCount(t[1..]);
      assert forall i :: 1 <= i < |t| ==> t[i] == t[1..][i - 1];
    }
  }

  lemma {:induction false} AllCheckedCount(c: seq<ChecklistItem>)
    ensures CountChecked(c) == |c| <==> forall i :: 0 <= i < |c| ==> c[i].checked
  {
    if c != [] {
      AllCheckedCount(c[1..]);
      assert forall i :: 1 <= i < |c| ==> c[i] == c[1..][i - 1];
    }
  }

  /**
   * On a timeline of fewer than 200 items the percentage reads 100 exactly
   * when every item is completed; from 200 items on, one unfinished item
   * rounds away (199 of 200 is 99.5, shown as 100).
   */
  lemma TimelineFullIff(site: Site)
    requires 0 < |site.timeline| < 200
    ensures SiteProgress(site).timeline == Some(100) <==>
      forall i :: 0 <= i < |site.timeline| ==> site.timeline[i].status == Some("completed")
  {
    var t := |site.timeline|;
    var c := CountStatus(site.timeline, "completed");
    AllCompletedCount(site.timeline);
    PercentFullIff(c, t);
    assert SiteProgress(site).timeline == Percent(c, t);
  }

  /** Below 200 parts, a share reads 100 exactly when it is the whole. */
  lemma PercentFullIff(part: nat, whole: nat)
    requires 0 < whole < 200 && part <= whole
    ensures Percent(part, whole) == Some(100) <==> part == whole
  {
    var r := Round(100 * part, whole);
    if part < whole {
      assert whole * (2 * r - 1) <= 200 * part;
      assert 200 * part <= 200 * whole - 200 < 199 * whole;
      assert (2 * r - 1) * whole < 199 * whole;
      MulCancelStrict(2 * r - 1, 199, whole);
    } else {
      RoundExact(100, whole);
    }
  }

  lemma MulCancelStrict(a: int, b: int, m: int)
    requires m > 0 && a * m < b * m
    ensures a < b
  {
    if a >= b {
      MulMono(b, a, m);
    }
  }

  /** The 200-item threshold is tight: 199 of 200 completed items already show 100. */
  lemma RoundingHidesLastItem()
    ensures Percent(199, 200) == Some(100) && Percent(198, 199) == Some(99)
  {
  }

  /** A site whose every step is completed and every checklist item checked is at 100% on all three figures. */
  lemma FullSiteProgress(site: Site)
    requires |site.timeline| > 0 && |site.checklist| > 0
    requires forall i :: 0 <= i < |site.timeline| ==> site.timeline[i].status == Some("completed")
    requires forall i :: 0 <= i < |site.checklist| ==> site.checklist[i].checked
    ensures var p := SiteProgress(site);
      p.timeline == Some(100) && p.checklist == Some(100) && p.overall == Some(100)
  {
    var t, n := |site.timeline|, |site.checklist|;
    AllCompletedCount(site.timeline);
    AllCheckedCount(site.checklist);
    assert Round(100 * t, t) == 100 by { RoundExact(100, t); }
    assert Round(100 * n, n) == 100 by { RoundExact(100, n); }
    assert 70 * (t * n) + 30 * (n * t) == 100 * (t * n);
    RoundExact(100, t * n);
  }

  /** Rounding an exact multiple gives the multiplier back. */
  lemma RoundExact(k: int, q: int)
    requires q > 0
    ensures Round(k * q, q) == k
  {
    var r := Round(k * q, q);
    if r > k {
      MulMono(2 * k + 1, 2 * r - 1, q);
    } else if r < k {
      MulMono(2 * r + 1, 2 * k - 1, q);
    }
  }

  /** The all-completed seed site `icheon-public-sewer` is at 100% timeline, checklist and overall. */
  lemma CompletedSeedSiteIsFull()
    ensures var p := SiteProgress(IcheonSite());
      p.timeline == Some(100) && p.checklist == Some(100) && p.overall == Some(100)
  {
    var s := IcheonSite();
    assert |s.timeline| == 67 && |s.checklist| == 19;
    FullSiteProgress(s);
  }

  /** A worked case: 5 of 20 tasks completed and 10 of 19 items checked give 25, 53 and 33. */
  lemma WorkedExample(site: Site)
    requires |site.timeline| == 20 && CountStatus(site.timeline, "completed") == 5
    requires |site.checklist| == 19 && CountChecked(site.checklist) == 10
    ensures SiteProgress(site).timeline == Some(25)
    ensures SiteProgress(site).checklist == Some(53)
    ensures SiteProgress(site).overall == Some(33)
  {
  }

  /**
   * Rounding once differs from rounding the components first: at 1 of 8
   * tasks and 7 of 8 items the components round to 13 and 88, whose
   * weighted sum 35.5 would round to 36, but `overall` is 35.
   */
  lemma RoundedOnceNotCompounded(site: Site)
    requires |site.timeline| == 8 && CountStatus(site.timeline, "completed") == 1
    requires |site.checklist| == 8 && CountChecked(site.checklist) == 7
    ensures SiteProgress(site).timeline == Some(13) && SiteProgress(site).checklist == Some(88)
    ensures SiteProgress(site).overall == Some(35)
    ensures Round(7 * 13 + 3 * 88, 10) == 36
  {
  }

  /** A checklist checked like the canonical one has, from index `k` on, the count the closed form gives. */
  lemma {:induction false} SeedShapedChecks(c: seq<ChecklistItem>, k: nat)
    requires |c| == ChecklistSize && k <= ChecklistSize
    requires forall i :: 0 <= i < ChecklistSize ==> c[i].checked == (i + 1 != 5 && i + 1 != 7)
    ensures CountChecked(c[k..]) == if k >= 7 then 19 - k else if k >= 5 then 18 - k else 17 - k
    decreases ChecklistSize - k
  {
    if k < ChecklistSize {
      SeedShapedChecks(c, k + 1);
      assert c[k..][1..] == c[k + 1..];
    }
  }

  /** The canonical checklist has 17 of its 19 items checked (all but ids 5 and 7). */
  lemma InitialChecklistCount()
    ensures CountChecked(InitialChecklist()) == 17
  {
    InitialChecklistDefaults();
    SeedShapedChecks(InitialChecklist(), 0);
    assert InitialChecklist()[0..] == InitialChecklist();
  }
}
