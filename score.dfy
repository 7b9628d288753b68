/** The rhythm game's score keeping (MIR/js/scoreManagement.js): score, current and
    best combo, missed boxes and the accuracy of every hit. */
module ScoreManagement {

  /** What updateScore reads from one collision report. */
  datatype Collision = Collision(points: int, accuracy: real)

  /** Math.round: the nearest integer, halves rounded up. */
  function Round(x: real): (n: int)
    ensures n as real - 0.5 <= x < n as real + 0.5
  {
    (x + 0.5).Floor
  }

  /** The points one collision earns at a given combo: the base points times 1 + combo / 10, rounded. */
  function PointsFor(base: int, combo: nat): int
  {
    Round(base as real * (1.0 + combo as real * 0.1))
  }

  /** The points a run of collisions earns, starting at the given combo. */
  function PointsOf(cs: seq<Collision>, combo: nat): int
  {
    if cs == [] then 0 else PointsOf(cs[..|cs| - 1], combo) + PointsFor(cs[|cs| - 1].points, combo + |cs| - 1)
  }

  function Accuracies(cs: seq<Collision>): (r: seq<real>)
    ensures |r| == |cs|
    ensures forall k :: 0 <= k < |cs| ==> r[k] == cs[k].accuracy
  {
    if cs == [] then [] else Accuracies(cs[..|cs| - 1]) + [cs[|cs| - 1].accuracy]
  }

  function Max(a: nat, b: nat): nat
  {
    if a >= b then a else b
  }

  /** `totalHits / totalBoxes * 100 || 0`: the hit percentage, 0 when there were no
      boxes (0 / 0 is NaN, which is falsy). */
  function Accuracy(hits: nat, missed: nat): (r: real)
    ensures 0.0 <= r <= 100.0
    ensures hits + missed == 0 ==> r == 0.0
    ensures r == 100.0 <==> hits > 0 && missed == 0
    ensures r == 0.0 <==> hits == 0
  {
    if hits + missed == 0 then 0.0
    else
      var total := (hits + missed) as real;
      AccuracyBounds(hits, missed);
      (hits as real) / total * 100.0
  }

  lemma AccuracyBounds(hits: nat, missed: nat)
    requires hits + missed > 0
    ensures 0.0 <= (hits as real) / ((hits + missed) as real) * 100.0 <= 100.0
    ensures (hits as real) / ((hits + missed) as real) * 100.0 == 100.0 <==> missed == 0
    ensures (hits as real) / ((hits + missed) as real) * 100.0 == 0.0 <==> hits == 0
  {
    var q := (hits as real) / ((hits + missed) as real);
    assert q * ((hits + missed) as real) == hits as real;
  }

  function Sum(xs: seq<real>): real
  {
    if xs == [] then 0.0 else Sum(xs[..|xs| - 1]) + xs[|xs| - 1]
  }

  /** The mean of the hit accuracies, or 0 with no hits. */
  function Average(xs: seq<real>): real
  {
    if |xs| > 0 then Sum(xs) / (|xs| as real) else 0.0
  }

  /** The summary getGameStats returns. */
  datatype GameStats = GameStats(finalScore: int, maxCombo: nat, averageAccuracy: real,
                                 accuracy: real, totalBoxes: nat, totalHits: nat)

  class ScoreManager {
    var score: int
    var combo: nat
    var maxCombo: nat
    var boxesMissed: nat
    var accuracyHistory: seq<real>

    /** The best combo is never below the current one. */
    ghost predicate Valid()
      reads this
    {
      maxCombo >= combo
    }

    constructor ()
      ensures Valid()
      ensures score == 0 && combo == 0 && maxCombo == 0 && boxesMissed == 0 && accuracyHistory == []
    {
      score, combo, maxCombo, boxesMissed := 0, 0, 0, 0;
      accuracyHistory := [];
    }

    /** updateScore: every collision adds its combo-scaled points, raises the combo,
        updates the best combo and records its accuracy. */
    method UpdateScore(collisions: seq<Collision>)
      requires Valid()
      modifies this
      ensures Valid()
      ensures score == old(score) + PointsOf(collisions, old(combo))
      ensures combo == old(combo) + |collisions|
      ensures maxCombo == Max(old(maxCombo), combo)
      ensures accuracyHistory == old(accuracyHistory) + Accuracies(collisions)
      ensures boxesMissed == old(boxesMissed)
    {
      var k := 0;
      while k < |collisions|
        invariant 0 <= k <= |collisions|
        invariant score == old(score) + PointsOf(collisions[..k], old(combo))
        invariant combo == old(combo) + k
        invariant maxCombo == Max(old(maxCombo), combo)
        invariant accuracyHistory == old(accuracyHistory) + Accuracies(collisions[..k])
        invariant boxesMissed == old(boxesMissed)
      {
        var collision := collisions[k];
        var basePoints := collision.points;
        var comboMultiplier := 1.0 + combo as real * 0.1;
        var points := Round(basePoints as real * comboMultiplier);
        assert points == PointsFor(collisions[..k + 1][k].points, old(combo) + |collisions[..k + 1]| - 1);
        score := score + points;
        combo := combo + 1;
        maxCombo := Max(maxCombo, combo);
        accuracyHistory := accuracyHistory + [collision.accuracy];
        assert collisions[..k + 1][..k] == collisions[..k];
        k := k + 1;
      }
      assert collisions[..k] == collisions;
    }

    /** missedNote: the combo breaks and the miss is counted; nothing else changes. */
    method MissedNote()
      requires Valid()
      modifies this
      ensures Valid()
      ensures combo == 0 && boxesMissed == old(boxesMissed) + 1
      ensures score == old(score) && maxCombo == old(maxCombo) && accuracyHistory == old(accuracyHistory)
    {
      combo := 0;
      boxesMissed := boxesMissed + 1;
    }

    function GetAccuracy(): (r: real)
      reads this
      ensures r == Accuracy(|accuracyHistory|, boxesMissed)
      ensures 0.0 <= r <= 100.0
    {
      var totalHits := |accuracyHistory|;
      var totalBoxes := |accuracyHistory| + boxesMissed;
      if totalBoxes == 0 then 0.0 else Accuracy(totalHits, boxesMissed)
    }

    function GetGameStats(): (stats: GameStats)
      reads this
      ensures stats.totalBoxes == stats.totalHits + boxesMissed
      ensures stats.totalHits == |accuracyHistory|
      ensures stats.finalScore == score && stats.maxCombo == maxCombo
      ensures stats.accuracy == Accuracy(stats.totalHits, boxesMissed)
      ensures stats.totalHits == 0 ==> stats.averageAccuracy == 0.0
      ensures stats.averageAccuracy == Average(accuracyHistory)
    {
      var totalHits := |accuracyHistory|;
      GameStats(score, maxCombo, Average(accuracyHistory), GetAccuracy(), totalHits + boxesMissed, totalHits)
    }

    /** reset: score, combo, best combo and history are cleared; the miss count is kept. */
    method Reset()
      modifies this
      ensures Valid()
      ensures score == 0 && combo == 0 && maxCombo == 0 && accuracyHistory == []
      ensures boxesMissed == old(boxesMissed)
    {
      score := 0;
      combo := 0;
      maxCombo := 0;
      accuracyHistory := [];
    }
  }

  /** Accuracy does not affect the points: only base points and combo do. */
  lemma {:induction false} PointsIgnoreAccuracy(cs: seq<Collision>, ds: seq<Collision>, combo: nat)
    requires |cs| == |ds|
    requires forall k :: 0 <= k < |cs| ==> cs[k].points == ds[k].points
    ensures PointsOf(cs, combo) == PointsOf(ds, combo)
  {
    if cs != [] {
      PointsIgnoreAccuracy(cs[..|cs| - 1], ds[..|ds| - 1], combo);
    }
  }

  /** With a combo of 0 and 100-point boxes, the k-th hit of a streak earns 100 + 10k. */
  lemma PointsOnStreak(combo: nat)
    ensures PointsFor(100, combo) == 100 + 10 * combo
  {
    assert 100.0 * (1.0 + combo as real * 0.1) == (100 + 10 * combo) as real;
  }

  /** With non-negative base points, a longer combo never earns fewer points. */
  lemma PointsGrowWithCombo(base: nat, c1: nat, c2: nat)
    requires c1 <= c2
    ensures PointsFor(base, c1) <= PointsFor(base, c2)
  {
    assert base as real * (1.0 + c1 as real * 0.1) <= base as real * (1.0 + c2 as real * 0.1);
  }

  /** The average of accuracies that each lie in [0, 100] lies in [0, 100]. */
  lemma AverageBounds(xs: seq<real>)
    requires forall k :: 0 <= k < |xs| ==> 0.0 <= xs[k] <= 100.0
    ensures 0.0 <= Average(xs) <= 100.0
  {
    if |xs| > 0 {
      SumBounds(xs);
      var n := |xs| as real;
      var a := Sum(xs) / n;
      assert a * n == Sum(xs);
    }
  }

  lemma {:induction false} SumBounds(xs: seq<real>)
    requires forall k :: 0 <= k < |xs| ==> 0.0 <= xs[k] <= 100.0
    ensures 0.0 <= Sum(xs) <= 100.0 * (|xs| as real)
  {
    if xs != [] {
      SumBounds(xs[..|xs| - 1]);
    }
  }
}
