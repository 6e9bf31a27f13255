/**
 * The insight aggregator of the mood-tracker view: summary statistics over
 * the read-only mood history, which is ordered oldest first.
 * Every member is pure; nothing here changes state.
 */
module MoodTracker {

  /** One recorded observation. `date` is an opaque ISO timestamp. */
  datatype MoodEntry = MoodEntry(date: string, mood: string, energy: int)

  datatype Trend = Improving | Declining | Stable

  /** The five labels of the check-in scale, best first. */
  const MoodScale: seq<string> := ["excellent", "good", "neutral", "low", "struggling"]

  function Min(a: int, b: int): int { if a <= b then a else b }

  function Max(a: int, b: int): int { if a <= b then b else a }

  // ---------------------------------------------------------------------------
  // JavaScript's Array.prototype.slice
  // ---------------------------------------------------------------------------

  /** Normalises a `slice` index: a negative index counts back from the end,
      and the result is clamped to 0..n. */
  function SliceIndex(k: int, n: nat): (r: nat)
    ensures r <= n
    ensures k < 0 ==> r == Max(n + k, 0)
    ensures k >= 0 ==> r == Min(k, n)
  {
    if k < 0 then (if n + k < 0 then 0 else n + k)
    else if k < n then k else n
  }

  /** `s.slice(start, end)`: empty when the normalised start is not before the
      normalised end. */
  function JsSlice<T>(s: seq<T>, start: int, end: int): (r: seq<T>)
    ensures |r| == Max(SliceIndex(end, |s|) - SliceIndex(start, |s|), 0)
    ensures forall i :: 0 <= i < |r| ==> r[i] == s[SliceIndex(start, |s|) + i]
  {
    var a := SliceIndex(start, |s|);
    var b := SliceIndex(end, |s|);
    if a < b then s[a..b] else []
  }

  /** `moodHistory.slice(-3)` */
  function Recent(h: seq<MoodEntry>): seq<MoodEntry> { JsSlice(h, -3, |h|) }

  /** `moodHistory.slice(-6, -3)` */
  function Older(h: seq<MoodEntry>): seq<MoodEntry> { JsSlice(h, -6, -3) }

  /** The recent window is the last min(3, n) entries; the older window is the
      entries at positions max(n-6, 0) up to n-3; the two are adjacent, so they
      are disjoint and together they form the last min(6, n) entries. */
  lemma Windows(h: seq<MoodEntry>)
    ensures Recent(h) == h[|h| - Min(3, |h|)..]
    ensures Older(h) == h[Max(|h| - 6, 0)..Max(|h| - 3, 0)]
    ensures |h| >= 3 ==> Older(h) + Recent(h) == h[Max(|h| - 6, 0)..]
  {
    if |h| >= 3 {
      var a := Max(|h| - 6, 0);
      assert h[a..] == h[a..|h| - 3] + h[|h| - 3..];
    }
  }

  // ---------------------------------------------------------------------------
  // Average energy
  // ---------------------------------------------------------------------------

  /** `moodHistory.reduce((sum, entry) => sum + entry.energy, 0)` */
  function EnergySum(h: seq<MoodEntry>): int
  {
    if h == [] then 0 else EnergySum(h[..|h| - 1]) + h[|h| - 1].energy
  }

  /** The average energy as an integer number of tenths: the source shows
      `Math.round(total / length * 10) / 10`, and 0 for an empty history.
      Math.round rounds half up, so the result r is the integer with
      r - 1/2 <= 10 * total / length < r + 1/2. */
  function AverageEnergyTenths(h: seq<MoodEntry>): (r: int)
    ensures |h| == 0 ==> r == 0
    ensures |h| > 0 ==> 2 * |h| * r - |h| <= 20 * EnergySum(h) < 2 * |h| * r + |h|
  {
    if |h| == 0 then 0 else (20 * EnergySum(h) + |h|) / (2 * |h|)
  }

  ghost predicate EnergiesInRange(h: seq<MoodEntry>)
  {
    forall i :: 0 <= i < |h| ==> 1 <= h[i].energy <= 10
  }

  lemma {:induction false} EnergySumBounds(h: seq<MoodEntry>)
    requires EnergiesInRange(h)
    ensures |h| <= EnergySum(h) <= 10 * |h|
  {
    if h != [] {
      EnergySumBounds(h[..|h| - 1]);
    }
  }

  /** When every energy is in 1..10 (the check-in slider's range), the average
      shown lies in [1.0, 10.0]. */
  lemma AverageEnergyInRange(h: seq<MoodEntry>)
    requires |h| > 0 && EnergiesInRange(h)
    ensures 10 <= AverageEnergyTenths(h) <= 100
  {
    EnergySumBounds(h);
    RoundedMeanBounds(|h|, EnergySum(h), AverageEnergyTenths(h));
  }

  /** A total between n and 10·n, rounded to tenths of its mean over n,
      gives between 10 and 100 tenths. */
  lemma RoundedMeanBounds(n: int, total: int, r: int)
    requires n > 0 && n <= total <= 10 * n
    requires 2 * n * r - n <= 20 * total < 2 * n * r + n
    ensures 10 <= r <= 100
  {
    assert 19 * n < (2 * r) * n;
    MulCancel(19, 2 * r, n);
    assert (2 * r) * n <= 201 * n;
    MulCancel(2 * r, 202, n);
  }

  /** Dividing both sides of a strict comparison by a positive factor. */
  lemma MulCancel(a: int, b: int, c: int)
    requires c > 0 && a * c < b * c
    ensures a < b
  {
  }

  /** Energies 2, 8 and 5 average to 5.0. */
  lemma AverageEnergyExample()
    ensures AverageEnergyTenths([MoodEntry("", "good", 2), MoodEntry("", "low", 8), MoodEntry("", "neutral", 5)]) == 50
  {
    var a, b, c := MoodEntry("", "good", 2), MoodEntry("", "low", 8), MoodEntry("", "neutral", 5);
    assert [a][..0] == [];
    assert [a, b][..1] == [a];
    assert [a, b, c][..2] == [a, b];
    assert EnergySum([a]) == 2;
    assert EnergySum([a, b]) == 10;
  }

  // ---------------------------------------------------------------------------
  // Mood trend
  // ---------------------------------------------------------------------------

  /** The ordinal of a mood label, `moodValues[mood] || 3`: the scale runs from
      excellent = 5 down to struggling = 1 and any other label counts as 3. */
  function MoodValue(mood: string): (v: int)
    ensures 1 <= v <= 5
    ensures forall i :: 0 <= i < |MoodScale| ==> (mood == MoodScale[i] ==> v == 5 - i)
    ensures mood !in MoodScale ==> v == 3
  {
    match mood
    case "excellent" => 5
    case "good" => 4
    case "neutral" => 3
    case "low" => 2
    case "struggling" => 1
    case _ => 3
  }

  function OrdinalSum(s: seq<MoodEntry>): int
  {
    if s == [] then 0 else OrdinalSum(s[..|s| - 1]) + MoodValue(s[|s| - 1].mood)
  }

  /** The arithmetic mean of the ordinals of a non-empty window. */
  ghost function Mean(s: seq<MoodEntry>): real
    requires |s| > 0
  {
    (OrdinalSum(s) as real) / (|s| as real)
  }

  /** Multiplying both sides by a positive factor keeps a strict comparison. */
  lemma ScaleLess(x: real, y: real, k: real)
    requires k > 0.0
    ensures x < y <==> x * k < y * k
  {
  }

  /** R/r > O/o + 3/10 exactly when 10·R·o > 10·O·r + 3·r·o. */
  lemma CrossMultiplyAbove(rSum: int, r: int, oSum: int, o: int)
    requires r > 0 && o > 0
    ensures (rSum as real) / (r as real) > (oSum as real) / (o as real) + 0.3
        <==> 10 * rSum * o > 10 * oSum * r + 3 * r * o
  {
    var R, rr, O, oo := rSum as real, r as real, oSum as real, o as real;
    var x, y, k := R / rr, O / oo, 10.0 * rr * oo;
    assert x * rr == R;
    assert y * oo == O;
    assert x * k == 10.0 * (x * rr) * oo;
    assert (y + 0.3) * k == 10.0 * (y * oo) * rr + 3.0 * rr * oo;
    ScaleLess(y + 0.3, x, k);
    assert (10 * rSum * o) as real == 10.0 * R * oo;
    assert (10 * oSum * r + 3 * r * o) as real == 10.0 * O * rr + 3.0 * rr * oo;
  }

  /** R/r < O/o - 3/10 exactly when 10·R·o < 10·O·r - 3·r·o. */
  lemma CrossMultiplyBelow(rSum: int, r: int, oSum: int, o: int)
    requires r > 0 && o > 0
    ensures (rSum as real) / (r as real) < (oSum as real) / (o as real) - 0.3
        <==> 10 * rSum * o < 10 * oSum * r - 3 * r * o
  {
    var R, rr, O, oo := rSum as real, r as real, oSum as real, o as real;
    var x, y, k := R / rr, O / oo, 10.0 * rr * oo;
    assert x * rr == R;
    assert y * oo == O;
    assert x * k == 10.0 * (x * rr) * oo;
    assert (y - 0.3) * k == 10.0 * (y * oo) * rr - 3.0 * rr * oo;
    ScaleLess(x, y - 0.3, k);
    assert (10 * rSum * o) as real == 10.0 * R * oo;
    assert (10 * oSum * r - 3 * r * o) as real == 10.0 * O * rr - 3.0 * rr * oo;
  }

  /** Compares two means R/r and O/o against the 0.3 threshold without
      division, by cross-multiplying. */
  function Compare(rSum: int, r: int, oSum: int, o: int): (t: Trend)
    requires r > 0 && o > 0
    ensures t == Improving <==> (rSum as real) / (r as real) > (oSum as real) / (o as real) + 0.3
    ensures t == Declining <==> (rSum as real) / (r as real) < (oSum as real) / (o as real) - 0.3
  {
    CrossMultiplyAbove(rSum, r, oSum, o);
    CrossMultiplyBelow(rSum, r, oSum, o);
    if 10 * rSum * o > 10 * oSum * r + 3 * r * o then Improving
    else if 10 * rSum * o < 10 * oSum * r - 3 * r * o then Declining
    else Stable
  }

  /** `getMoodTrend`: "improving" when the mean ordinal of the last three
      entries exceeds the mean of the three before them by more than 0.3,
      "declining" when it falls short by more than 0.3, and "stable"
      otherwise; always "stable" when fewer than 4 entries exist, because the
      older window is then empty. */
  function MoodTrend(h: seq<MoodEntry>): (t: Trend)
    ensures |h| < 4 ==> t == Stable
    ensures |h| >= 4 ==> |Recent(h)| == 3 && 0 < |Older(h)| <= 3
    ensures |h| >= 4 ==> (t == Improving <==> Mean(Recent(h)) > Mean(Older(h)) + 0.3)
    ensures |h| >= 4 ==> (t == Declining <==> Mean(Recent(h)) < Mean(Older(h)) - 0.3)
    ensures |h| >= 4 ==>
      (t == Stable <==> Mean(Older(h)) - 0.3 <= Mean(Recent(h)) <= Mean(Older(h)) + 0.3)
  {
    if |h| < 2 then Stable
    else
      var recent, older := Recent(h), Older(h);
      if |recent| == 0 || |older| == 0 then Stable
      else Compare(OrdinalSum(recent), |recent|, OrdinalSum(older), |older|)
  }

  /** The trend reads only the last six entries: entries recorded before them
      never change it. */
  lemma TrendIgnoresOlderEntries(p: seq<MoodEntry>, h: seq<MoodEntry>)
    requires |h| >= 6
    ensures MoodTrend(p + h) == MoodTrend(h)
  {
    var ph := p + h;
    Windows(ph);
    Windows(h);
    assert ph[|ph| - 3..] == h[|h| - 3..];
    assert ph[|ph| - 6..|ph| - 3] == h[|h| - 6..|h| - 3];
  }

  lemma OrdinalSumOfThree(a: MoodEntry, b: MoodEntry, c: MoodEntry)
    ensures OrdinalSum([a, b, c]) == MoodValue(a.mood) + MoodValue(b.mood) + MoodValue(c.mood)
  {
    assert [a][..0] == [];
    assert [a, b][..1] == [a];
    assert [a, b, c][..2] == [a, b];
    assert OrdinalSum([a]) == MoodValue(a.mood);
    assert OrdinalSum([a, b]) == MoodValue(a.mood) + MoodValue(b.mood);
  }

  /** Three excellent days followed by three struggling days: the recent mean
      is 1, the older mean is 5, so the trend is declining. */
  lemma DecliningExample()
    ensures MoodTrend([MoodEntry("", "excellent", 5), MoodEntry("", "excellent", 5),
                       MoodEntry("", "excellent", 5), MoodEntry("", "struggling", 5),
                       MoodEntry("", "struggling", 5), MoodEntry("", "struggling", 5)]) == Declining
  {
    var e, s := MoodEntry("", "excellent", 5), MoodEntry("", "struggling", 5);
    var h := [e, e, e, s, s, s];
    Windows(h);
    assert Recent(h) == h[3..] == [s, s, s];
    assert Older(h) == h[0..3] == [e, e, e];
    OrdinalSumOfThree(s, s, s);
    OrdinalSumOfThree(e, e, e);
  }

  // ---------------------------------------------------------------------------
  // Recent history listing
  // ---------------------------------------------------------------------------

  function Reverse<T>(s: seq<T>): (r: seq<T>)
    ensures |r| == |s|
    ensures forall i :: 0 <= i < |s| ==> r[i] == s[|s| - 1 - i]
  {
    if s == [] then [] else [s[|s| - 1]] + Reverse(s[..|s| - 1])
  }

  /** `moodHistory.slice(-7).reverse()`: at most seven entries, newest first. */
  function RecentHistory(h: seq<MoodEntry>): (v: seq<MoodEntry>)
    ensures |v| == Min(7, |h|)
    ensures forall i :: 0 <= i < |v| ==> v[i] == h[|h| - 1 - i]
  {
    Reverse(JsSlice(h, -7, |h|))
  }
}
