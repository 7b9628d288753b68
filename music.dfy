/** The beat-map builder of the archived music backend (backend/_archive/music.py): every
    detected onset becomes zero, one or two beat entries depending on its strength, and the
    entries' x and y are then min-max normalized in place. The audio analysis itself (STFT,
    onsets, RMS energy, percentiles) is given: each onset arrives as a Feature, and the two
    percentile thresholds are parameters. */
module Music {
  import opened Geometry

  /** Python's round(v): the nearest integer, ties to the even one. It is written without
      case analysis: floor(v + 1/2), less one exactly when v + 1/2 is an odd integer, for
      floor(a) + floor(1 - a) is 1 when a is an integer and 0 otherwise, and here
      a = (v + 3/2) / 2. RoundHalfEvenNearest states what this computes. */
  function RoundHalfEven(v: real): int
  {
    (v + 0.5).Floor - ((v + 1.5) / 2.0).Floor - ((0.5 - v) / 2.0).Floor
  }

  lemma FloorPair(a: real)
    ensures a.Floor + (1.0 - a).Floor == if a == a.Floor as real then 1 else 0
  {
    var f := a.Floor;
    if a == f as real {
      assert (1.0 - a) == (1 - f) as real;
    } else {
      assert -f as real < 1.0 - a < (1 - f) as real;
      assert (1.0 - a).Floor == -f;
    }
  }

  /** round(v) is an integer nearest to v, and on a tie it is even. */
  lemma RoundHalfEvenNearest(v: real)
    ensures v - 0.5 <= RoundHalfEven(v) as real <= v + 0.5
    ensures RoundHalfEven(v) as real == v - 0.5 || RoundHalfEven(v) as real == v + 0.5 ==> RoundHalfEven(v) % 2 == 0
  {
    var y := v + 0.5;
    var f := y.Floor;
    var a := (v + 1.5) / 2.0;
    FloorPair(a);
    assert 1.0 - a == (0.5 - v) / 2.0;
    if a == a.Floor as real {
      assert y == 2.0 * a - 1.0;
      assert f == 2 * a.Floor - 1;
      assert RoundHalfEven(v) == f - 1;
    } else {
      assert RoundHalfEven(v) == f;
      var h := (f + 1) / 2;
      if f as real == y {
        assert f % 2 != 0 ==> a == h as real;
      }
    }
  }

  lemma RoundHalfEvenInt(k: int)
    ensures RoundHalfEven(k as real) == k
  {
    RoundHalfEvenNearest(k as real);
  }

  /** Rounding never reverses an order. */
  lemma RoundHalfEvenMonotone(u: real, v: real)
    requires u <= v
    ensures RoundHalfEven(u) <= RoundHalfEven(v)
  {
    RoundHalfEvenNearest(u);
    RoundHalfEvenNearest(v);
  }

  /** round(v, 2): v rounded to a multiple of 0.01, ties to an even number of hundredths. */
  function Round2(v: real): real
  {
    RoundHalfEven(v * 100.0) as real / 100.0
  }

  /** round(v, 2) is at most half a hundredth away from v. */
  lemma Round2Close(v: real)
    ensures -0.005 <= Round2(v) - v <= 0.005
  {
    RoundHalfEvenNearest(v * 100.0);
  }

  /** A value that is already a multiple of 0.01 is kept by round(v, 2). */
  lemma Round2Idempotent(v: real)
    ensures Round2(Round2(v)) == Round2(v)
  {
    var n := RoundHalfEven(v * 100.0);
    assert Round2(v) * 100.0 == n as real;
    RoundHalfEvenInt(n);
  }

  /** round(v, 2) keeps the unit interval and its two ends. */
  lemma Round2Unit(v: real)
    requires 0.0 <= v <= 1.0
    ensures 0.0 <= Round2(v) <= 1.0
    ensures v == 0.0 ==> Round2(v) == 0.0
    ensures v == 1.0 ==> Round2(v) == 1.0
  {
    RoundHalfEvenMonotone(0.0, v * 100.0);
    RoundHalfEvenMonotone(v * 100.0, 100.0);
    RoundHalfEvenInt(0);
    RoundHalfEvenInt(100);
  }

  lemma Round2Monotone(u: real, v: real)
    requires u <= v
    ensures Round2(u) <= Round2(v)
  {
    RoundHalfEvenMonotone(u * 100.0, v * 100.0);
  }

  /** The default window_size of moving_average_energy. */
  const DefaultWindowSize: nat := 4

  /** The index window of moving_average_energy: max(0, beat - w) up to min(n, beat + w + 1). */
  function Window(beat: nat, n: nat, windowSize: nat): (r: (int, int))
    ensures 0 <= r.0 && r.1 <= n
    ensures r.1 - r.0 <= 2 * windowSize + 1
    ensures 0 <= beat < n ==> r.0 <= beat < r.1
  {
    (if 0 >= beat - windowSize then 0 else beat - windowSize,
     if n <= beat + windowSize + 1 then n else beat + windowSize + 1)
  }

  function Sum(xs: seq<real>): real
  {
    if xs == [] then 0.0 else Sum(xs[..|xs| - 1]) + xs[|xs| - 1]
  }

  /** The energies of the beats in positions [start, end) of beats; an empty window gives []. */
  function WindowEnergies(rmse: seq<real>, beats: seq<nat>, start: int, end: int): (r: seq<real>)
    requires 0 <= start && end <= |beats|
    requires forall j :: 0 <= j < |beats| ==> beats[j] < |rmse|
    ensures |r| == if start < end then end - start else 0
    ensures forall j :: 0 <= j < |r| ==> r[j] == rmse[beats[start + j]]
    decreases end - start
  {
    if start >= end then [] else [rmse[beats[start]]] + WindowEnergies(rmse, beats, start + 1, end)
  }

  /** moving_average_energy: the mean RMS energy over the beats around position beat;
      None where numpy's mean of an empty slice is NaN. */
  function MovingAverageEnergy(rmse: seq<real>, beat: nat, beats: seq<nat>, windowSize: nat): (r: Option<real>)
    requires forall j :: 0 <= j < |beats| ==> beats[j] < |rmse|
    ensures var w := Window(beat, |beats|, windowSize);
      var es := WindowEnergies(rmse, beats, w.0, w.1);
      && (r.None? <==> es == [])
      && (r.Some? ==> MinOf(es) <= r.value <= MaxOf(es))
    ensures beat < |beats| ==> r.Some?
  {
    var (start, end) := Window(beat, |beats|, windowSize);
    var es := WindowEnergies(rmse, beats, start, end);
    if |es| == 0 then None else Some(Mean(es))
  }

  datatype Option<T> = None | Some(value: T)

  /** A sum of values in [lo, hi] lies between |xs| times lo and |xs| times hi. */
  lemma {:induction false} SumBetween(xs: seq<real>, lo: real, hi: real)
    requires forall k :: 0 <= k < |xs| ==> lo <= xs[k] <= hi
    ensures |xs| as real * lo <= Sum(xs)
    ensures Sum(xs) <= |xs| as real * hi
  {
    if xs != [] {
      var init := xs[..|xs| - 1];
      assert forall k :: 0 <= k < |init| ==> init[k] == xs[k];
      SumBetween(init, lo, hi);
      assert Sum(xs) == Sum(init) + xs[|xs| - 1];
      assert |xs| as real * lo == |init| as real * lo + lo;
      assert |xs| as real * hi == |init| as real * hi + hi;
    }
  }

  /** A total of n values, each in [lo, hi], divided by n lies in [lo, hi]. */
  lemma MeanBetween(total: real, n: real, lo: real, hi: real)
    requires n > 0.0 && n * lo <= total <= n * hi
    ensures lo <= total / n <= hi
  {
    var mean := total / n;
    assert mean * n == total;
    if mean < lo {
      MulLess(mean, lo, n);
    }
    if mean > hi {
      MulLess(hi, mean, n);
    }
  }

  /** numpy's mean of a non-empty list: it lies between the smallest and the largest value,
      so a list of equal values averages to that value. */
  function Mean(xs: seq<real>): (m: real)
    requires xs != []
    ensures MinOf(xs) <= m <= MaxOf(xs)
  {
    SumBetween(xs, MinOf(xs), MaxOf(xs));
    MeanBetween(Sum(xs), |xs| as real, MinOf(xs), MaxOf(xs));
    Sum(xs) / (|xs| as real)
  }

  /** What the analysis yields for one onset: its time, its RMS energy, the frequency bin of
      its loudest STFT component and its onset strength. */
  datatype Feature = Feature(time: real, rms: real, peakBin: nat, energy: real)

  /** A beat-map entry: a dictionary with these keys. */
  datatype EntryState = EntryState(time: real, x: real, y: Number, z: int, energy: real,
                                   avgEnergy: real, kind: int, points: int)

  /** The dictionary appended to the beat map; normalization updates it in place. */
  class Entry {
    var time: real
    var x: real
    var y: Number
    var z: int
    var energy: real
    var avgEnergy: real
    var kind: int
    var points: int

    function State(): EntryState
      reads this
    {
      EntryState(time, x, y, z, energy, avgEnergy, kind, points)
    }

    constructor (s: EntryState)
      ensures State() == s
    {
      time, x, y, z := s.time, s.x, s.y, s.z;
      energy, avgEnergy, kind, points := s.energy, s.avgEnergy, s.kind, s.points;
    }
  }

  ghost predicate Distinct(es: seq<Entry>)
  {
    forall i, j :: 0 <= i < j < |es| ==> es[i] != es[j]
  }

  function States(es: seq<Entry>): (r: seq<EntryState>)
    reads set e | e in es
    ensures |r| == |es| && forall k :: 0 <= k < |es| ==> r[k] == es[k].State()
  {
    if es == [] then [] else [es[0].State()] + States(es[1..])
  }

  /** The entry of a given type for an onset: time and x rounded to hundredths, y the peak
      bin, z 0, and the onset strength as both energy and average energy. */
  function MakeEntry(f: Feature, kind: int, points: int): EntryState
  {
    EntryState(Round2(f.time), Round2(f.rms), Num(f.peakBin as real), 0, f.energy, f.energy, kind, points)
  }

  /** The entries of onset i of n, given whether the previous low-energy onset was kept:
      an extra climax entry (150 points) above the high threshold except at the last onset,
      then a regular entry (100 points) above the low threshold, else a low entry (50 points)
      when the previous low onset was not kept. */
  function Group(f: Feature, i: nat, n: nat, noSkip: bool, low: real, high: real): seq<EntryState>
  {
    (if f.energy > high && i < n - 1 then [MakeEntry(f, 2, 150)] else [])
    + (if f.energy > low then [MakeEntry(f, 1, 100)]
       else if noSkip then [MakeEntry(f, 0, 50)]
       else [])
  }

  /** The beat map after the climax check of onset i of n. */
  function AddClimax(es: seq<EntryState>, f: Feature, i: nat, n: nat, high: real): seq<EntryState>
  {
    if f.energy > high && i < n - 1 then es + [MakeEntry(f, 2, 150)] else es
  }

  /** The beat map after the regular-or-low check of an onset. */
  function AddRegular(es: seq<EntryState>, f: Feature, noSkip: bool, low: real): seq<EntryState>
  {
    if f.energy > low then es + [MakeEntry(f, 1, 100)]
    else if noSkip then es + [MakeEntry(f, 0, 50)]
    else es
  }

  /** The no_skip flag after an onset: set by a high onset or a skipped low one, cleared by a kept low one. */
  function NoSkipAfter(f: Feature, noSkip: bool, low: real): bool
  {
    if f.energy > low then true else !noSkip
  }

  /** The no_skip flag before onset i; it starts set. */
  function NoSkipBefore(fs: seq<Feature>, i: nat, low: real): bool
    requires i <= |fs|
  {
    if i == 0 then true else NoSkipAfter(fs[i - 1], NoSkipBefore(fs, i - 1, low), low)
  }

  /** The entries of onset i. */
  function GroupAt(fs: seq<Feature>, i: nat, low: real, high: real): seq<EntryState>
    requires i < |fs|
  {
    Group(fs[i], i, |fs|, NoSkipBefore(fs, i, low), low, high)
  }

  /** The beat map after the first k onsets: their groups in onset order. */
  function BeatMapUpTo(fs: seq<Feature>, k: nat, low: real, high: real): seq<EntryState>
    requires k <= |fs|
  {
    if k == 0 then []
    else AddRegular(AddClimax(BeatMapUpTo(fs, k - 1, low, high), fs[k - 1], k - 1, |fs|, high),
                    fs[k - 1], NoSkipBefore(fs, k - 1, low), low)
  }

  /** Each onset appends its group. */
  lemma BeatMapStep(fs: seq<Feature>, k: nat, low: real, high: real)
    requires 0 < k <= |fs|
    ensures BeatMapUpTo(fs, k, low, high) == BeatMapUpTo(fs, k - 1, low, high) + GroupAt(fs, k - 1, low, high)
  {
    var f := fs[k - 1];
    var b := BeatMapUpTo(fs, k - 1, low, high);
    var climax := if f.energy > high && k - 1 < |fs| - 1 then [MakeEntry(f, 2, 150)] else [];
    var rest := if f.energy > low then [MakeEntry(f, 1, 100)]
                else if NoSkipBefore(fs, k - 1, low) then [MakeEntry(f, 0, 50)] else [];
    assert AddClimax(b, f, k - 1, |fs|, high) == b + climax;
    assert AddRegular(b + climax, f, NoSkipBefore(fs, k - 1, low), low) == (b + climax) + rest;
    assert GroupAt(fs, k - 1, low, high) == climax + rest;
  }

  function BeatMap(fs: seq<Feature>, low: real, high: real): seq<EntryState>
  {
    BeatMapUpTo(fs, |fs|, low, high)
  }

  /** The climax entry appears exactly above the high threshold at an onset that is not the last. */
  lemma GroupClimax(fs: seq<Feature>, i: nat, low: real, high: real)
    requires i < |fs|
    ensures (exists e :: e in GroupAt(fs, i, low, high) && e.kind == 2) <==> fs[i].energy > high && i < |fs| - 1
  {
    if fs[i].energy > high && i < |fs| - 1 {
      assert GroupAt(fs, i, low, high)[0].kind == 2;
    }
  }

  /** The regular entry appears exactly above the low threshold, and then the flag is set. */
  lemma GroupRegular(fs: seq<Feature>, i: nat, low: real, high: real)
    requires i < |fs|
    ensures (exists e :: e in GroupAt(fs, i, low, high) && e.kind == 1) <==> fs[i].energy > low
    ensures fs[i].energy > low ==> NoSkipBefore(fs, i + 1, low)
  {
    var g := GroupAt(fs, i, low, high);
    if fs[i].energy > low {
      assert g[|g| - 1].kind == 1;
    }
  }

  /** A low entry appears exactly for a low onset while the flag is set, and clears the flag. */
  lemma GroupLow(fs: seq<Feature>, i: nat, low: real, high: real)
    requires i < |fs|
    ensures (exists e :: e in GroupAt(fs, i, low, high) && e.kind == 0) <==> fs[i].energy <= low && NoSkipBefore(fs, i, low)
    ensures fs[i].energy <= low ==> NoSkipBefore(fs, i + 1, low) == !NoSkipBefore(fs, i, low)
  {
    var g := GroupAt(fs, i, low, high);
    if fs[i].energy <= low && NoSkipBefore(fs, i, low) {
      assert g[|g| - 1].kind == 0;
    }
  }

  /** Of two consecutive low-energy onsets exactly one has a low entry. */
  lemma LowOnsetsAlternate(fs: seq<Feature>, i: nat, low: real, high: real)
    requires i + 1 < |fs| && fs[i].energy <= low && fs[i + 1].energy <= low
    ensures (exists e :: e in GroupAt(fs, i, low, high) && e.kind == 0)
        != (exists e :: e in GroupAt(fs, i + 1, low, high) && e.kind == 0)
  {
    GroupLow(fs, i, low, high);
    GroupLow(fs, i + 1, low, high);
  }

  /** With the thresholds in order, two consecutive low-energy onsets have one entry between them. */
  lemma LowOnsetsOneEntry(fs: seq<Feature>, i: nat, low: real, high: real)
    requires low <= high
    requires i + 1 < |fs| && fs[i].energy <= low && fs[i + 1].energy <= low
    ensures |GroupAt(fs, i, low, high)| + |GroupAt(fs, i + 1, low, high)| == 1
  {
  }

  /** Every group has at most two entries, each with z 0 and one of the three types and their points. */
  lemma GroupShape(fs: seq<Feature>, i: nat, low: real, high: real)
    requires i < |fs|
    ensures |GroupAt(fs, i, low, high)| <= 2
    ensures forall e :: e in GroupAt(fs, i, low, high) ==>
      && e == MakeEntry(fs[i], e.kind, e.points)
      && ((e.kind == 2 && e.points == 150) || (e.kind == 1 && e.points == 100) || (e.kind == 0 && e.points == 50))
  {
    var f := fs[i];
    var climax := if f.energy > high && i < |fs| - 1 then [MakeEntry(f, 2, 150)] else [];
    var rest := if f.energy > low then [MakeEntry(f, 1, 100)]
                else if NoSkipBefore(fs, i, low) then [MakeEntry(f, 0, 50)] else [];
    assert GroupAt(fs, i, low, high) == climax + rest;
  }

  /** The beat map has at most two entries per onset, all with z 0, each made from one onset. */
  lemma {:induction false} BeatMapShape(fs: seq<Feature>, k: nat, low: real, high: real)
    requires k <= |fs|
    ensures |BeatMapUpTo(fs, k, low, high)| <= 2 * k
    ensures forall e :: e in BeatMapUpTo(fs, k, low, high) ==>
      e.z == 0 && exists i :: 0 <= i < k && e == MakeEntry(fs[i], e.kind, e.points)
    ensures NumericY(BeatMapUpTo(fs, k, low, high))
  {
    if k > 0 {
      BeatMapShape(fs, k - 1, low, high);
      GroupShape(fs, k - 1, low, high);
      BeatMapStep(fs, k, low, high);
      var prefix, g := BeatMapUpTo(fs, k - 1, low, high), GroupAt(fs, k - 1, low, high);
      forall e | e in BeatMapUpTo(fs, k, low, high)
        ensures e.z == 0 && exists i :: 0 <= i < k && e == MakeEntry(fs[i], e.kind, e.points)
      {
        if e in prefix {
          var i :| 0 <= i < k - 1 && e == MakeEntry(fs[i], e.kind, e.points);
        } else {
          assert e in g;
        }
      }
    }
  }

  /** With onset times in increasing order, entry times never decrease. */
  lemma {:induction false} BeatMapTimesOrdered(fs: seq<Feature>, k: nat, low: real, high: real)
    requires k <= |fs|
    requires forall i, j :: 0 <= i < j < |fs| ==> fs[i].time <= fs[j].time
    ensures forall a, b :: 0 <= a < b < |BeatMapUpTo(fs, k, low, high)| ==>
      BeatMapUpTo(fs, k, low, high)[a].time <= BeatMapUpTo(fs, k, low, high)[b].time
    ensures forall e :: e in BeatMapUpTo(fs, k, low, high) ==> k > 0 && e.time <= Round2(fs[k - 1].time)
  {
    if k > 0 {
      assert k > 1 ==> fs[k - 2].time <= fs[k - 1].time;
      BeatMapTimesOrdered(fs, k - 1, low, high);
      BeatMapTimesStep(fs, k, low, high, BeatMapUpTo(fs, k - 1, low, high));
    }
  }

  /** One onset keeps the entry times ordered when the earlier entries are no later than it. */
  lemma BeatMapTimesStep(fs: seq<Feature>, k: nat, low: real, high: real, prefix: seq<EntryState>)
    requires 0 < k <= |fs| && prefix == BeatMapUpTo(fs, k - 1, low, high)
    requires forall a, b :: 0 <= a < b < |prefix| ==> prefix[a].time <= prefix[b].time
    requires forall e :: e in prefix ==> k > 1 && e.time <= Round2(fs[k - 2].time)
    requires k > 1 ==> fs[k - 2].time <= fs[k - 1].time
    ensures forall a, b :: 0 <= a < b < |BeatMapUpTo(fs, k, low, high)| ==>
      BeatMapUpTo(fs, k, low, high)[a].time <= BeatMapUpTo(fs, k, low, high)[b].time
    ensures forall e :: e in BeatMapUpTo(fs, k, low, high) ==> e.time <= Round2(fs[k - 1].time)
  {
    if k > 1 {
      Round2Monotone(fs[k - 2].time, fs[k - 1].time);
    }
    var g := GroupAt(fs, k - 1, low, high);
    var t := Round2(fs[k - 1].time);
    GroupShape(fs, k - 1, low, high);
    BeatMapStep(fs, k, low, high);
    assert forall e :: e in g ==> e.time == t;
    TimesConcat(prefix, g, t);
  }

  /** Ordered times followed by times all equal to a bound of the first part stay ordered. */
  lemma TimesConcat(p: seq<EntryState>, g: seq<EntryState>, t: real)
    requires forall a, b :: 0 <= a < b < |p| ==> p[a].time <= p[b].time
    requires forall e :: e in p ==> e.time <= t
    requires forall e :: e in g ==> e.time == t
    ensures forall a, b :: 0 <= a < b < |p + g| ==> (p + g)[a].time <= (p + g)[b].time
    ensures forall e :: e in p + g ==> e.time <= t
  {
    var m := p + g;
    forall a, b | 0 <= a < b < |m| ensures m[a].time <= m[b].time {
      if b < |p| {
        assert m[a] == p[a] && m[b] == p[b];
      } else if a < |p| {
        assert m[a] in p && m[b] in g;
      } else {
        assert m[a] in g && m[b] in g;
      }
    }
  }

  /** The beat-selection loop of extract_music_features: one new dictionary for every entry. */
  method SelectBeats(features: seq<Feature>, low: real, high: real) returns (beatMap: seq<Entry>)
    ensures Distinct(beatMap) && forall k :: 0 <= k < |beatMap| ==> fresh(beatMap[k])
    ensures States(beatMap) == BeatMap(features, low, high)
  {
    beatMap := [];
    var noSkip := 1;
    for i := 0 to |features|
      invariant Distinct(beatMap) && forall k :: 0 <= k < |beatMap| ==> fresh(beatMap[k])
      invariant States(beatMap) == BeatMapUpTo(features, i, low, high)
      invariant noSkip == if NoSkipBefore(features, i, low) then 1 else 0
    {
      beatMap, noSkip := SelectBeat(beatMap, noSkip, features, i, low, high);
    }
  }

  /** One pass of the loop: onset i appends its entries and updates the no_skip flag. */
  method SelectBeat(beatMap: seq<Entry>, noSkip: int, features: seq<Feature>, i: nat, low: real, high: real)
    returns (r: seq<Entry>, flag: int)
    requires i < |features| && Distinct(beatMap)
    requires States(beatMap) == BeatMapUpTo(features, i, low, high)
    requires noSkip == if NoSkipBefore(features, i, low) then 1 else 0
    ensures |r| >= |beatMap| && Distinct(r)
    ensures forall k :: 0 <= k < |beatMap| ==> r[k] == beatMap[k]
    ensures forall k :: |beatMap| <= k < |r| ==> fresh(r[k])
    ensures States(r) == BeatMapUpTo(features, i + 1, low, high)
    ensures flag == if NoSkipBefore(features, i + 1, low) then 1 else 0
  {
    ghost var prior := BeatMapUpTo(features, i, low, high);
    var f := features[i];
    var mid := SelectClimax(beatMap, prior, f, i, |features|, high);
    r, flag := SelectRegular(mid, AddClimax(prior, f, i, |features|, high), noSkip, f, low);
  }

  /** The climax entry of onset i of n: only above the high threshold and not at the last onset. */
  method SelectClimax(beatMap: seq<Entry>, ghost prior: seq<EntryState>, f: Feature, i: nat, n: nat, high: real)
    returns (r: seq<Entry>)
    requires Distinct(beatMap) && States(beatMap) == prior
    ensures |r| >= |beatMap| && Distinct(r)
    ensures forall k :: 0 <= k < |beatMap| ==> r[k] == beatMap[k]
    ensures forall k :: |beatMap| <= k < |r| ==> fresh(r[k])
    ensures States(r) == AddClimax(prior, f, i, n, high)
  {
    var avgEnergy := f.energy;
    r := beatMap;
    if avgEnergy > high {
      if i < n - 1 {
        r := Append(beatMap, prior, MakeEntry(f, 2, 150));
      }
    }
  }

  /** The regular or low entry of an onset, and the new no_skip flag. */
  method SelectRegular(beatMap: seq<Entry>, ghost prior: seq<EntryState>, noSkip: int, f: Feature, low: real)
    returns (r: seq<Entry>, flag: int)
    requires Distinct(beatMap) && (noSkip == 0 || noSkip == 1)
    requires States(beatMap) == prior
    ensures |r| >= |beatMap| && Distinct(r)
    ensures forall k :: 0 <= k < |beatMap| ==> r[k] == beatMap[k]
    ensures forall k :: |beatMap| <= k < |r| ==> fresh(r[k])
    ensures States(r) == AddRegular(prior, f, noSkip == 1, low)
    ensures flag == if NoSkipAfter(f, noSkip == 1, low) then 1 else 0
  {
    var avgEnergy := f.energy;
    r, flag := beatMap, noSkip;
    if avgEnergy > low {
      r := Append(r, prior, MakeEntry(f, 1, 100));
      flag := 1;
    } else if flag == 1 {
      r := Append(r, prior, MakeEntry(f, 0, 50));
      flag := 0;
    } else {
      flag := 1;
    }
  }

  /** beat_map.append of a new dictionary. */
  method Append(es: seq<Entry>, ghost prior: seq<EntryState>, s: EntryState) returns (r: seq<Entry>)
    requires Distinct(es) && States(es) == prior
    ensures |r| == |es| + 1 && fresh(r[|es|])
    ensures forall k :: 0 <= k < |es| ==> r[k] == es[k]
    ensures Distinct(r)
    ensures States(r) == prior + [s]
  {
    var e := new Entry(s);
    r := es + [e];
  }

  // ---------------------------------------------------------------------------
  // min_max_normalize

  function MinOf(xs: seq<real>): (m: real)
    requires xs != []
    ensures m in xs && forall k :: 0 <= k < |xs| ==> m <= xs[k]
  {
    if |xs| == 1 then xs[0]
    else
      var m := MinOf(xs[..|xs| - 1]);
      assert xs[..|xs| - 1][0] in xs;
      if xs[|xs| - 1] < m then xs[|xs| - 1] else m
  }

  function MaxOf(xs: seq<real>): (m: real)
    requires xs != []
    ensures m in xs && forall k :: 0 <= k < |xs| ==> xs[k] <= m
  {
    if |xs| == 1 then xs[0]
    else
      var m := MaxOf(xs[..|xs| - 1]);
      assert xs[..|xs| - 1][0] in xs;
      if xs[|xs| - 1] > m then xs[|xs| - 1] else m
  }

  function Xs(es: seq<EntryState>): (r: seq<real>)
    ensures |r| == |es| && forall k :: 0 <= k < |es| ==> r[k] == es[k].x
  {
    if es == [] then [] else [es[0].x] + Xs(es[1..])
  }

  /** Every y is a number. The beat map's y values are NumPy integers (the peak bins), so
      this holds of every list min_max_normalize is given. */
  predicate NumericY(es: seq<EntryState>)
  {
    forall k :: 0 <= k < |es| ==> es[k].y.Num?
  }

  function Ys(es: seq<EntryState>): (r: seq<real>)
    requires NumericY(es)
    ensures |r| == |es| && forall k :: 0 <= k < |es| ==> r[k] == es[k].y.value
  {
    if es == [] then []
    else
      assert forall k :: 0 <= k < |es| - 1 ==> es[1..][k] == es[k + 1];
      [es[0].y.value] + Ys(es[1..])
  }

  /** (v - lo) / (hi - lo) rounded to hundredths. */
  function Scale(v: real, lo: real, hi: real): real
    requires lo != hi
  {
    Round2((v - lo) / (hi - lo))
  }

  /** The same expression on y. The operands are numpy.int64, so a zero range divides 0 by 0
      (y lies in its own range) to NaN, with a warning and no exception, and round keeps NaN. */
  function ScaleY(v: real, lo: real, hi: real): (r: Number)
    ensures r.NaN? <==> lo == hi
  {
    if lo == hi then NaN else Num(Scale(v, lo, hi))
  }

  /** Scaling maps [lo, hi] into [0, 1], lo to 0 and hi to 1. */
  lemma ScaleUnit(v: real, lo: real, hi: real)
    requires lo <= v <= hi && lo < hi
    ensures 0.0 <= Scale(v, lo, hi) <= 1.0
    ensures v == lo ==> Scale(v, lo, hi) == 0.0
    ensures v == hi ==> Scale(v, lo, hi) == 1.0
  {
    var d := hi - lo;
    var q := (v - lo) / d;
    assert q * d == v - lo;
    if q < 0.0 {
      MulLess(q, 0.0, d);
      assert false;
    }
    if q > 1.0 {
      MulLess(1.0, q, d);
      assert false;
    }
    if v == lo {
      assert q == 0.0;
    }
    if v == hi {
      assert q == 1.0;
    }
    Round2Unit(q);
  }

  /** Scaling by the range [0, 1] only rounds, so a scaled value scales to itself. */
  lemma ScaleFixed(v: real, lo: real, hi: real)
    requires lo != hi
    ensures Scale(Scale(v, lo, hi), 0.0, 1.0) == Scale(v, lo, hi)
  {
    var q := (v - lo) / (hi - lo);
    assert (Round2(q) - 0.0) / (1.0 - 0.0) == Round2(q);
    Round2Idempotent(q);
  }

  /** Why min_max_normalize raised. */
  datatype Error = EmptySequence | ZeroDivision

  /** The outcome of min_max_normalize: the list it returns (the same dictionaries), or the exception it raises. */
  datatype Outcome = Normalized(items: seq<Entry>) | Raised(error: Error)

  /** The exception min_max_normalize raises on these entries, if any: the ValueError of min
      of an empty list, or the ZeroDivisionError of a zero range of x, which are Python floats. */
  function NormalizeError(es: seq<EntryState>): (r: Option<Error>)
  {
    if es == [] then Some(EmptySequence)
    else if MinOf(Xs(es)) == MaxOf(Xs(es)) then Some(ZeroDivision)
    else None
  }

  /** One entry with x and y scaled by the given ranges. */
  function ScaleEntry(e: EntryState, xlo: real, xhi: real, ylo: real, yhi: real): EntryState
    requires xlo != xhi && e.y.Num?
  {
    e.(x := Scale(e.x, xlo, xhi), y := ScaleY(e.y.value, ylo, yhi))
  }

  function ScaleAll(es: seq<EntryState>, xlo: real, xhi: real, ylo: real, yhi: real): (r: seq<EntryState>)
    requires xlo != xhi && NumericY(es)
    ensures |r| == |es| && forall k :: 0 <= k < |es| ==> r[k] == ScaleEntry(es[k], xlo, xhi, ylo, yhi)
  {
    if es == [] then []
    else
      assert forall k :: 0 <= k < |es| - 1 ==> es[1..][k] == es[k + 1];
      [ScaleEntry(es[0], xlo, xhi, ylo, yhi)] + ScaleAll(es[1..], xlo, xhi, ylo, yhi)
  }

  /** The entries after a successful min_max_normalize. */
  function Normalize(es: seq<EntryState>): seq<EntryState>
    requires NumericY(es) && NormalizeError(es).None?
  {
    ScaleAll(es, MinOf(Xs(es)), MaxOf(Xs(es)), MinOf(Ys(es)), MaxOf(Ys(es)))
  }

  /** The entries once min_max_normalize has returned or raised: either exception is raised
      before any dictionary is written, the zero range of x at the first x. */
  function AfterNormalize(es: seq<EntryState>): seq<EntryState>
    requires NumericY(es)
  {
    if NormalizeError(es).None? then Normalize(es) else es
  }

  /** Which inputs raise: only the empty list gives the empty-sequence error, only a list
      whose x values are all equal gives the division error, and y never raises. */
  lemma NormalizeErrorCases(es: seq<EntryState>)
    ensures NormalizeError(es) == Some(EmptySequence) <==> es == []
    ensures NormalizeError(es) == Some(ZeroDivision) <==> es != [] && forall k :: 0 <= k < |es| ==> es[k].x == es[0].x
  {
    if es != [] {
      var xs := Xs(es);
      ConstantRange(xs);
      assert (forall k :: 0 <= k < |xs| ==> xs[k] == xs[0]) <==> (forall k :: 0 <= k < |es| ==> es[k].x == es[0].x);
    }
  }

  /** The range of a list is zero exactly when all its values are equal. */
  lemma ConstantRange(xs: seq<real>)
    requires xs != []
    ensures MinOf(xs) == MaxOf(xs) <==> forall k :: 0 <= k < |xs| ==> xs[k] == xs[0]
  {
    if forall k :: 0 <= k < |xs| ==> xs[k] == xs[0] {
      var i :| 0 <= i < |xs| && xs[i] == MinOf(xs);
      var j :| 0 <= j < |xs| && xs[j] == MaxOf(xs);
    }
  }

  /** The y range is zero exactly when every entry has the same y. */
  lemma ConstantY(es: seq<EntryState>)
    requires NumericY(es) && es != []
    ensures MinOf(Ys(es)) == MaxOf(Ys(es)) <==> forall k :: 0 <= k < |es| ==> es[k].y == es[0].y
  {
    var ys := Ys(es);
    ConstantRange(ys);
    assert (forall k :: 0 <= k < |ys| ==> ys[k] == ys[0]) <==> (forall k :: 0 <= k < |es| ==> es[k].y == es[0].y);
  }

  /** A successful normalization keeps order and every other key, and scales each x and y
      by the range of all x and of all y. */
  lemma NormalizeValues(es: seq<EntryState>, k: int)
    requires NumericY(es) && NormalizeError(es).None? && 0 <= k < |es|
    ensures |Normalize(es)| == |es|
    ensures Normalize(es)[k] == es[k].(x := Normalize(es)[k].x, y := Normalize(es)[k].y)
    ensures Normalize(es)[k].x == Scale(es[k].x, MinOf(Xs(es)), MaxOf(Xs(es)))
    ensures Normalize(es)[k].y == ScaleY(es[k].y.value, MinOf(Ys(es)), MaxOf(Ys(es)))
  {
  }

  /** Every normalized x lies in [0, 1]; every y is NaN when all entries share one y (one
      peak bin for the whole beat map), and otherwise lies in [0, 1]. */
  lemma NormalizeBounded(es: seq<EntryState>, k: int)
    requires NumericY(es) && NormalizeError(es).None? && 0 <= k < |es|
    ensures |Normalize(es)| == |es|
    ensures 0.0 <= Normalize(es)[k].x <= 1.0
    ensures Normalize(es)[k].y.NaN? <==> forall j :: 0 <= j < |es| ==> es[j].y == es[0].y
    ensures Normalize(es)[k].y.Num? ==> 0.0 <= Normalize(es)[k].y.value <= 1.0
  {
    var xs, ys := Xs(es), Ys(es);
    assert xs[k] == es[k].x && ys[k] == es[k].y.value;
    ConstantY(es);
    ScaleUnit(es[k].x, MinOf(xs), MaxOf(xs));
    if MinOf(ys) != MaxOf(ys) {
      ScaleUnit(es[k].y.value, MinOf(ys), MaxOf(ys));
    }
  }

  /** The smallest x becomes 0 and the largest 1, and so do the smallest and largest y when
      the y values are not all equal. */
  lemma NormalizeEnds(es: seq<EntryState>)
    requires NumericY(es) && NormalizeError(es).None?
    ensures exists k :: 0 <= k < |es| && Normalize(es)[k].x == 0.0
    ensures exists k :: 0 <= k < |es| && Normalize(es)[k].x == 1.0
    ensures MinOf(Ys(es)) != MaxOf(Ys(es)) ==> exists k :: 0 <= k < |es| && Normalize(es)[k].y == Num(0.0)
    ensures MinOf(Ys(es)) != MaxOf(Ys(es)) ==> exists k :: 0 <= k < |es| && Normalize(es)[k].y == Num(1.0)
  {
    var xs, ys := Xs(es), Ys(es);
    var xlo, xhi, ylo, yhi := MinOf(xs), MaxOf(xs), MinOf(ys), MaxOf(ys);
    var r := Normalize(es);
    var i0 :| 0 <= i0 < |xs| && xs[i0] == xlo;
    var i1 :| 0 <= i1 < |xs| && xs[i1] == xhi;
    ScaleUnit(es[i0].x, xlo, xhi);
    ScaleUnit(es[i1].x, xlo, xhi);
    assert r[i0].x == 0.0 && r[i1].x == 1.0;
    if ylo != yhi {
      var j0 :| 0 <= j0 < |ys| && ys[j0] == ylo;
      var j1 :| 0 <= j1 < |ys| && ys[j1] == yhi;
      ScaleUnit(es[j0].y.value, ylo, yhi);
      ScaleUnit(es[j1].y.value, ylo, yhi);
      assert r[j0].y == Num(0.0) && r[j1].y == Num(1.0);
    }
  }

  /** Values in [0, 1] that include 0 and 1 have minimum 0 and maximum 1. */
  lemma UnitRange(xs: seq<real>)
    requires forall k :: 0 <= k < |xs| ==> 0.0 <= xs[k] <= 1.0
    requires exists k :: 0 <= k < |xs| && xs[k] == 0.0
    requires exists k :: 0 <= k < |xs| && xs[k] == 1.0
    ensures MinOf(xs) == 0.0 && MaxOf(xs) == 1.0
  {
    var i :| 0 <= i < |xs| && xs[i] == 0.0;
    var j :| 0 <= j < |xs| && xs[j] == 1.0;
    assert MinOf(xs) <= xs[i] && MaxOf(xs) >= xs[j];
  }

  /** After a successful normalization x ranges over exactly [0, 1], and so does y when the
      y values were not all equal. */
  lemma NormalizedRange(es: seq<EntryState>)
    requires NumericY(es) && NormalizeError(es).None?
    ensures Normalize(es) != []
    ensures MinOf(Xs(Normalize(es))) == 0.0 && MaxOf(Xs(Normalize(es))) == 1.0
    ensures MinOf(Ys(es)) != MaxOf(Ys(es)) ==>
      NumericY(Normalize(es)) && MinOf(Ys(Normalize(es))) == 0.0 && MaxOf(Ys(Normalize(es))) == 1.0
  {
    NormalizeEnds(es);
    NormalizedXRange(es);
    if MinOf(Ys(es)) != MaxOf(Ys(es)) {
      NormalizedYRange(es);
    }
  }

  lemma NormalizedXRange(es: seq<EntryState>)
    requires NumericY(es) && NormalizeError(es).None?
    requires exists k :: 0 <= k < |es| && Normalize(es)[k].x == 0.0
    requires exists k :: 0 <= k < |es| && Normalize(es)[k].x == 1.0
    ensures Normalize(es) != []
    ensures MinOf(Xs(Normalize(es))) == 0.0 && MaxOf(Xs(Normalize(es))) == 1.0
  {
    var r := Normalize(es);
    var rx := Xs(r);
    forall k | 0 <= k < |r| ensures 0.0 <= rx[k] <= 1.0 {
      NormalizeBounded(es, k);
    }
    assert exists k :: 0 <= k < |rx| && rx[k] == 0.0 by {
      var k :| 0 <= k < |es| && r[k].x == 0.0;
      assert rx[k] == 0.0;
    }
    assert exists k :: 0 <= k < |rx| && rx[k] == 1.0 by {
      var k :| 0 <= k < |es| && r[k].x == 1.0;
      assert rx[k] == 1.0;
    }
    UnitRange(rx);
  }

  lemma NormalizedYRange(es: seq<EntryState>)
    requires NumericY(es) && NormalizeError(es).None? && MinOf(Ys(es)) != MaxOf(Ys(es))
    requires exists k :: 0 <= k < |es| && Normalize(es)[k].y == Num(0.0)
    requires exists k :: 0 <= k < |es| && Normalize(es)[k].y == Num(1.0)
    ensures NumericY(Normalize(es))
    ensures MinOf(Ys(Normalize(es))) == 0.0 && MaxOf(Ys(Normalize(es))) == 1.0
  {
    var r := Normalize(es);
    forall k | 0 <= k < |r| ensures r[k].y.Num? && 0.0 <= r[k].y.value <= 1.0 {
      NormalizeValues(es, k);
      NormalizeBounded(es, k);
    }
    var ry := Ys(r);
    assert exists k :: 0 <= k < |ry| && ry[k] == 0.0 by {
      var k :| 0 <= k < |es| && r[k].y == Num(0.0);
      assert ry[k] == 0.0;
    }
    assert exists k :: 0 <= k < |ry| && ry[k] == 1.0 by {
      var k :| 0 <= k < |es| && r[k].y == Num(1.0);
      assert ry[k] == 1.0;
    }
    UnitRange(ry);
  }

  /** Normalizing a normalized beat map whose y values were not all equal raises nothing and
      changes nothing. */
  lemma NormalizeIdempotent(es: seq<EntryState>)
    requires NumericY(es) && NormalizeError(es).None? && MinOf(Ys(es)) != MaxOf(Ys(es))
    ensures NumericY(Normalize(es)) && NormalizeError(Normalize(es)).None?
    ensures Normalize(Normalize(es)) == Normalize(es)
  {
    var r := Normalize(es);
    NormalizedRange(es);
    assert r != [] && NumericY(r);
    assert MinOf(Xs(r)) == 0.0 && MaxOf(Xs(r)) == 1.0;
    assert MinOf(Ys(r)) == 0.0 && MaxOf(Ys(r)) == 1.0;
    RescaleAllFixed(es);
    assert Normalize(r) == ScaleAll(r, 0.0, 1.0, 0.0, 1.0);
  }

  /** Scaling a normalized beat map against [0, 1] changes nothing. */
  lemma RescaleAllFixed(es: seq<EntryState>)
    requires NumericY(es) && NormalizeError(es).None? && MinOf(Ys(es)) != MaxOf(Ys(es))
    requires NumericY(Normalize(es))
    ensures ScaleAll(Normalize(es), 0.0, 1.0, 0.0, 1.0) == Normalize(es)
  {
    var xlo, xhi, ylo, yhi := MinOf(Xs(es)), MaxOf(Xs(es)), MinOf(Ys(es)), MaxOf(Ys(es));
    var r := Normalize(es);
    var rr := ScaleAll(r, 0.0, 1.0, 0.0, 1.0);
    forall k | 0 <= k < |r| ensures rr[k] == r[k] {
      assert r[k] == ScaleEntry(es[k], xlo, xhi, ylo, yhi);
      RescaleFixed(es[k], xlo, xhi, ylo, yhi);
    }
    assert rr == r;
  }

  /** An entry scaled by proper ranges is kept by scaling against [0, 1]. */
  lemma RescaleFixed(e: EntryState, xlo: real, xhi: real, ylo: real, yhi: real)
    requires xlo != xhi && ylo != yhi && e.y.Num?
    ensures ScaleEntry(ScaleEntry(e, xlo, xhi, ylo, yhi), 0.0, 1.0, 0.0, 1.0) == ScaleEntry(e, xlo, xhi, ylo, yhi)
  {
    ScaleFixed(e.x, xlo, xhi);
    ScaleFixed(e.y.value, ylo, yhi);
  }

  /** min_max_normalize: the ranges of x and y are taken first, then every dictionary's x and
      y are rescaled in place; the list returned is the one passed in. */
  method MinMaxNormalize(data: seq<Entry>) returns (r: Outcome)
    requires Distinct(data) && NumericY(States(data))
    modifies set e | e in data
    ensures r.Raised? <==> NormalizeError(old(States(data))).Some?
    ensures r.Raised? ==> r.error == NormalizeError(old(States(data))).value
    ensures r.Normalized? ==> r.items == data
    ensures States(data) == AfterNormalize(old(States(data)))
  {
    ghost var before := States(data);
    if |data| == 0 {
      return Raised(EmptySequence);
    }
    var xValues := Xs(States(data));
    var yValues := Ys(States(data));
    var xMin, xMax := MinOf(xValues), MaxOf(xValues);
    var yMin, yMax := MinOf(yValues), MaxOf(yValues);
    var failed, normalizedData := RescaleEach(data, before, xMin, xMax, yMin, yMax);
    if failed {
      return Raised(ZeroDivision);
    }
    RescaledDone(before, States(data), xMin, xMax, yMin, yMax);
    return Normalized(normalizedData);
  }

  /** The loop of min_max_normalize over the dictionaries, with the ranges already taken;
      `failed` stands for the ZeroDivisionError, raised at the first dictionary. */
  method RescaleEach(data: seq<Entry>, ghost before: seq<EntryState>, xMin: real, xMax: real, yMin: real, yMax: real)
    returns (failed: bool, normalizedData: seq<Entry>)
    requires Distinct(data) && data != [] && States(data) == before && NumericY(before)
    modifies set e | e in data
    ensures failed <==> xMin == xMax
    ensures failed ==> States(data) == before
    ensures !failed ==> normalizedData == data && States(data) == ScaleAll(before, xMin, xMax, yMin, yMax)
  {
    normalizedData := [];
    for k := 0 to |data|
      invariant |normalizedData| == k && forall j :: 0 <= j < k ==> normalizedData[j] == data[j]
      invariant Rescaled(data, before, k, xMin, xMax, yMin, yMax)
    {
      var item := data[k];
      failed := NormalizeItem(data, k, before, xMin, xMax, yMin, yMax);
      if failed {
        return;
      }
      normalizedData := normalizedData + [item];
    }
    failed := false;
    assert xMin != xMax;
    var scaled := ScaleAll(before, xMin, xMax, yMin, yMax);
    assert forall j :: 0 <= j < |data| ==> States(data)[j] == scaled[j];
    assert normalizedData == data;
  }

  /** A loop that rescaled every dictionary has performed the whole normalization. */
  lemma RescaledDone(before: seq<EntryState>, after: seq<EntryState>, xMin: real, xMax: real, yMin: real, yMax: real)
    requires before != [] && NumericY(before) && xMin != xMax
    requires xMin == MinOf(Xs(before)) && xMax == MaxOf(Xs(before))
    requires yMin == MinOf(Ys(before)) && yMax == MaxOf(Ys(before))
    requires after == ScaleAll(before, xMin, xMax, yMin, yMax)
    ensures NormalizeError(before).None?
    ensures after == AfterNormalize(before)
  {
  }

  /** The body of the loop for item k; `failed` stands for the ZeroDivisionError of x, raised
      before anything is written. A zero range of y writes NaN. */
  method NormalizeItem(data: seq<Entry>, k: nat, ghost before: seq<EntryState>,
                       xMin: real, xMax: real, yMin: real, yMax: real) returns (failed: bool)
    requires Distinct(data) && k < |data| && Rescaled(data, before, k, xMin, xMax, yMin, yMax)
    modifies data[k]
    ensures failed <==> xMin == xMax
    ensures !failed ==> Rescaled(data, before, k + 1, xMin, xMax, yMin, yMax)
    ensures failed ==> k == 0 && States(data) == before
  {
    var item := data[k];
    if xMax == xMin {
      assert forall j :: 0 <= j < |data| ==> States(data)[j] == before[j];
      return true;
    }
    item.x := Round2((item.x - xMin) / (xMax - xMin));
    if yMax == yMin {
      item.y := NaN;
    } else {
      item.y := Num(Round2((item.y.value - yMin) / (yMax - yMin)));
    }
    return false;
  }

  /** The first k dictionaries carry their scaled values and the rest their values in `before`. */
  ghost predicate Rescaled(data: seq<Entry>, before: seq<EntryState>, k: int,
                           xMin: real, xMax: real, yMin: real, yMax: real)
    reads set e | e in data
  {
    && |before| == |data| && 0 <= k <= |data| && NumericY(before)
    && (k > 0 ==> xMin != xMax)
    && (forall j :: 0 <= j < k ==> xMin != xMax && data[j].State() == ScaleEntry(before[j], xMin, xMax, yMin, yMax))
    && (forall j :: k <= j < |data| ==> data[j].State() == before[j])
  }

  /** extract_music_features from the point where the onsets are known: select the beats,
      then normalize them. */
  method ExtractMusicFeatures(features: seq<Feature>, low: real, high: real) returns (r: Outcome)
    ensures r.Raised? <==> NormalizeError(BeatMap(features, low, high)).Some?
    ensures r.Normalized? ==> fresh(set e | e in r.items) && NumericY(BeatMap(features, low, high))
    ensures r.Normalized? ==> States(r.items) == Normalize(BeatMap(features, low, high))
  {
    var beatMap := SelectBeats(features, low, high);
    BeatMapShape(features, |features|, low, high);
    r := MinMaxNormalize(beatMap);
  }
}
