// The end-of-reign evaluation: death rate, land per person, growth, and a
// five-way rating chosen by the first threshold that matches. The game's
// single-precision floats are modelled as exact reals.
module Scoring {

  datatype PerformanceRating = Terrible | Poor | Fair | Good | Excellent

  datatype Score = Score(
    totalDeaths: nat,
    deathRate: real,
    acresPerPerson: real,
    populationGrowth: int,
    rating: PerformanceRating)

  /** The three closing messages; the three best ratings share one. */
  datatype RatingMessage = VileDespot | Mediocre | Wondrous

  /**
   * The rating cascade, most severe first. The best rating needs both a
   * death rate of at most 3% and at least 12 acres per person.
   */
  function Rate(deathRate: real, acresPerPerson: real): (r: PerformanceRating)
    ensures r == Terrible <==> deathRate > 33.0 || acresPerPerson < 7.0
    ensures r == Excellent <==> deathRate <= 3.0 && acresPerPerson >= 12.0
  {
    if deathRate > 33.0 || acresPerPerson < 7.0 then Terrible
    else if deathRate > 20.0 || acresPerPerson < 9.0 then Poor
    else if deathRate > 10.0 || acresPerPerson < 10.0 then Fair
    else if deathRate > 3.0 || acresPerPerson < 12.0 then Good
    else Excellent
  }

  /**
   * `evaluate_performance`: deaths as a percentage of ten times the starting
   * population, land per survivor (0 when nobody survived), and the change in
   * population.
   */
  function EvaluatePerformance(initialPopulation: nat, finalPopulation: nat, totalDeaths: nat, finalLand: nat): (s: Score)
    requires initialPopulation > 0
    ensures s.totalDeaths == totalDeaths
    ensures s.deathRate * (initialPopulation as real) == 10.0 * (totalDeaths as real)
    ensures finalPopulation > 0 ==> s.acresPerPerson * (finalPopulation as real) == finalLand as real
    ensures finalPopulation == 0 ==> s.acresPerPerson == 0.0 && s.rating == Terrible
    ensures s.populationGrowth + initialPopulation == finalPopulation
    ensures s.rating == Rate(s.deathRate, s.acresPerPerson)
  {
    var deathRate := (totalDeaths as real) / ((initialPopulation as real) * 10.0) * 100.0;
    var acresPerPerson := if finalPopulation > 0 then (finalLand as real) / (finalPopulation as real) else 0.0;
    var growth := finalPopulation as int - initialPopulation as int;
    Score(totalDeaths, deathRate, acresPerPerson, growth, Rate(deathRate, acresPerPerson))
  }

  /** `get_rating_message`: Fair, Good and Excellent share the one praising message. */
  function RatingMessageOf(rating: PerformanceRating): (m: RatingMessage)
    ensures m == VileDespot <==> rating == Terrible
    ensures m == Mediocre <==> rating == Poor
    ensures m == Wondrous <==> rating == Fair || rating == Good || rating == Excellent
  {
    match rating
    case Terrible => VileDespot
    case Poor => Mediocre
    case Fair | Good | Excellent => Wondrous
  }

  /** The same cascade on whole numbers only, with every denominator cleared. */
  function RatingFromCounts(initialPopulation: nat, finalPopulation: nat, totalDeaths: nat, finalLand: nat): PerformanceRating
  {
    if 10 * totalDeaths > 33 * initialPopulation || finalPopulation == 0 || finalLand < 7 * finalPopulation then Terrible
    else if 10 * totalDeaths > 20 * initialPopulation || finalLand < 9 * finalPopulation then Poor
    else if 10 * totalDeaths > 10 * initialPopulation || finalLand < 10 * finalPopulation then Fair
    else if 10 * totalDeaths > 3 * initialPopulation || finalLand < 12 * finalPopulation then Good
    else Excellent
  }

  /** The death rate exceeds a threshold exactly when ten times the deaths exceed it times the starting population. */
  lemma DeathRateAbove(initialPopulation: nat, totalDeaths: nat, t: nat)
    requires initialPopulation > 0
    ensures var s := EvaluatePerformance(initialPopulation, 0, totalDeaths, 0);
      s.deathRate > t as real <==> 10 * totalDeaths > t * initialPopulation
  {
    var d := EvaluatePerformance(initialPopulation, 0, totalDeaths, 0).deathRate;
    var i := initialPopulation as real;
    assert (t as real) * i == (t * initialPopulation) as real;
    ScaleKeepsOrder(t as real, d, i, (t * initialPopulation) as real, 10.0 * (totalDeaths as real));
  }

  /** Land per person falls below a threshold exactly when the land is less than the threshold times the people. */
  lemma AcresBelow(finalPopulation: nat, finalLand: nat, t: nat)
    requires finalPopulation > 0
    ensures var s := EvaluatePerformance(1, finalPopulation, 0, finalLand);
      s.acresPerPerson < t as real <==> finalLand < t * finalPopulation
  {
    var a := EvaluatePerformance(1, finalPopulation, 0, finalLand).acresPerPerson;
    var p := finalPopulation as real;
    assert (t as real) * p == (t * finalPopulation) as real;
    ScaleKeepsOrder(a, t as real, p, finalLand as real, (t * finalPopulation) as real);
  }

  /** Scaling by a positive factor keeps a strict order: x < y exactly when x * p < y * p. */
  lemma ScaleKeepsOrder(x: real, y: real, p: real, xp: real, yp: real)
    requires p > 0.0 && x * p == xp && y * p == yp
    ensures x < y <==> xp < yp
  {
    assert yp - xp == (y - x) * p;
  }

  /**
   * The rating computed on reals agrees with the whole-number cascade, so no
   * fraction decides a rating that the counts would not.
   */
  lemma {:induction false} RatingAgreesWithCounts(initialPopulation: nat, finalPopulation: nat, totalDeaths: nat, finalLand: nat)
    requires initialPopulation > 0
    ensures EvaluatePerformance(initialPopulation, finalPopulation, totalDeaths, finalLand).rating
            == RatingFromCounts(initialPopulation, finalPopulation, totalDeaths, finalLand)
  {
    var s := EvaluatePerformance(initialPopulation, finalPopulation, totalDeaths, finalLand);
    assert s.deathRate == EvaluatePerformance(initialPopulation, 0, totalDeaths, 0).deathRate;
    DeathRateAbove(initialPopulation, totalDeaths, 33);
    DeathRateAbove(initialPopulation, totalDeaths, 20);
    DeathRateAbove(initialPopulation, totalDeaths, 10);
    DeathRateAbove(initialPopulation, totalDeaths, 3);
    if finalPopulation > 0 {
      assert s.acresPerPerson == EvaluatePerformance(1, finalPopulation, 0, finalLand).acresPerPerson;
      AcresBelow(finalPopulation, finalLand, 7);
      AcresBelow(finalPopulation, finalLand, 9);
      AcresBelow(finalPopulation, finalLand, 10);
      AcresBelow(finalPopulation, finalLand, 12);
    }
  }

  /** 20 deaths from 100 with 105 people on 900 acres: a 2% death rate, but under 9 acres each, so Poor. */
  lemma PoorReignExample()
    ensures var s := EvaluatePerformance(100, 105, 20, 900);
      s.deathRate == 2.0 && s.acresPerPerson < 9.0 && s.populationGrowth == 5 && s.rating == Poor
  {
  }
}
