// The kingdom's record as a value: the phases of a year, the random stream the
// game owns, the initial economy, the year advance and the read-only queries
// (max_plantable_acres, grain_needed_for_feeding, is_game_over).
module State {

  /** Phases of the game. Splash and Instructions only precede the first year. */
  datatype GamePhase = Splash | Instructions | LandTransaction | Planting | Feeding | YearEnd | GameOver

  /** The edges of the phase machine; staying put is always allowed. */
  predicate PhaseStep(from: GamePhase, to: GamePhase)
  {
    || from == to
    || (from == LandTransaction && to == Planting)
    || (from == Planting && to == Feeding)
    || (from == Feeding && (to == YearEnd || to == GameOver))
    || (from == YearEnd && to == LandTransaction)
  }

  /**
   * The random stream owned by the game: an unbounded supply of raw draws
   * (`source`, fixed by the seed) and how many of them have been consumed.
   * Every `gen_range` consumes exactly one raw draw.
   */
  datatype Rng = Rng(source: nat -> nat, drawn: nat)
  {
    /** The value the raw draw at position `i` gives for the inclusive range [lo, hi]. */
    function SampleAt(i: nat, lo: int, hi: int): (v: int)
      requires lo <= hi
      ensures lo <= v <= hi
    {
      lo + source(i) % (hi - lo + 1)
    }

    /** `gen_range(lo..=hi)`: the next draw, mapped into [lo, hi], and the advanced stream. */
    function GenRange(lo: int, hi: int): (d: (int, Rng))
      requires lo <= hi
      ensures lo <= d.0 <= hi
      ensures d.1.source == source && d.1.drawn == drawn + 1
    {
      (SampleAt(drawn, lo, hi), this.(drawn := drawn + 1))
    }
  }

  const MinLandPrice: nat := 17
  const MaxLandPrice: nat := 26
  const YearLimit: nat := 10

  /** Every public field of the game record, plus its random stream. */
  datatype Kingdom = Kingdom(
    year: nat,
    population: nat,
    grain: nat,
    land: nat,
    landPrice: nat,
    harvestYield: nat,
    grainEatenByRats: nat,
    newCitizens: nat,
    deathsStarvation: nat,
    deathsPlague: nat,
    totalDeaths: nat,
    grainHarvested: nat,
    acresPlanted: nat,
    rng: Rng,
    currentPhase: GamePhase,
    unlimitedMode: bool)

  /** The record built by `GameState::new` from a freshly seeded stream. */
  function NewGame(source: nat -> nat, unlimited: bool): (k: Kingdom)
    ensures k.year == 1 && k.population == 100 && k.grain == 2800 && k.land == 1000
    ensures k.harvestYield == 3 && k.currentPhase == Splash && k.unlimitedMode == unlimited
    ensures k.grainEatenByRats == 0 && k.newCitizens == 0 && k.deathsStarvation == 0
    ensures k.deathsPlague == 0 && k.totalDeaths == 0 && k.grainHarvested == 0 && k.acresPlanted == 0
    ensures MinLandPrice <= k.landPrice <= MaxLandPrice
    ensures k.landPrice == Rng(source, 0).SampleAt(0, MinLandPrice, MaxLandPrice)
    ensures k.rng == Rng(source, 1)
  {
    var price := Rng(source, 0).GenRange(MinLandPrice, MaxLandPrice);
    Kingdom(
      year := 1, population := 100, grain := 2800, land := 1000,
      landPrice := price.0, harvestYield := 3, grainEatenByRats := 0,
      newCitizens := 0, deathsStarvation := 0, deathsPlague := 0,
      totalDeaths := 0, grainHarvested := 0, acresPlanted := 0,
      rng := price.1, currentPhase := Splash, unlimitedMode := unlimited)
  }

  /** `advance_year`: next year, a new land price, and the per-year counters reset. */
  function AdvanceYear(k: Kingdom): (r: Kingdom)
    ensures r.year == k.year + 1 && r.currentPhase == LandTransaction
    ensures MinLandPrice <= r.landPrice <= MaxLandPrice
    ensures r.landPrice == k.rng.SampleAt(k.rng.drawn, MinLandPrice, MaxLandPrice)
    ensures r.rng == k.rng.(drawn := k.rng.drawn + 1)
    ensures r.harvestYield == 0 && r.grainEatenByRats == 0 && r.newCitizens == 0
    ensures r.deathsStarvation == 0 && r.deathsPlague == 0 && r.grainHarvested == 0 && r.acresPlanted == 0
    ensures r.population == k.population && r.grain == k.grain && r.land == k.land
    ensures r.totalDeaths == k.totalDeaths && r.unlimitedMode == k.unlimitedMode
  {
    var price := k.rng.GenRange(MinLandPrice, MaxLandPrice);
    k.(year := k.year + 1, landPrice := price.0, rng := price.1,
       currentPhase := LandTransaction,
       harvestYield := 0, grainEatenByRats := 0, newCitizens := 0,
       deathsStarvation := 0, deathsPlague := 0, grainHarvested := 0, acresPlanted := 0)
  }

  function Min(a: nat, b: nat): nat
  {
    if a <= b then a else b
  }

  /** `max_plantable_acres`: the smallest of the three planting limits. */
  function MaxPlantableAcres(k: Kingdom): (r: nat)
    ensures r <= 10 * k.population && r <= k.grain && r <= k.land
    ensures r == 10 * k.population || r == k.grain || r == k.land
  {
    Min(Min(k.population * 10, k.grain), k.land)
  }

  /** `grain_needed_for_feeding`: twenty bushels per person. */
  function GrainNeededForFeeding(k: Kingdom): (r: nat)
    ensures r == 20 * k.population
  {
    k.population * 20
  }

  /**
   * `is_game_over`, with its three checks in their order: the year cap, an
   * empty kingdom, then the share of this year's starved. The division is
   * only reached when deathsStarvation > 0, so its divisor is positive.
   */
  predicate IsGameOver(k: Kingdom)
    ensures k.population == 0 || (!k.unlimitedMode && k.year > YearLimit) ==> IsGameOver(k)
    ensures k.deathsStarvation == 0 ==>
              (IsGameOver(k) <==> k.population == 0 || (!k.unlimitedMode && k.year > YearLimit))
  {
    if !k.unlimitedMode && k.year > YearLimit then true
    else if k.population == 0 then true
    else if k.deathsStarvation > 0
         && k.deathsStarvation * 100 / (k.population + k.deathsStarvation) > 45 then true
    else false
  }

  /**
   * The game is over exactly when the year cap is passed (outside unlimited
   * mode), when nobody is left, or when those who starved this year make up
   * at least 46% of the people left after the year's events plus those who
   * starved — stated without division. A plague after a hungry year shrinks
   * that sum, so the share can exceed the share of the people present at
   * feeding who starved.
   */
  lemma {:induction false} GameOverWithoutDivision(k: Kingdom)
    ensures IsGameOver(k) <==>
      || (!k.unlimitedMode && k.year > YearLimit)
      || k.population == 0
      || 100 * k.deathsStarvation >= 46 * (k.population + k.deathsStarvation)
  {
    var d, p := k.deathsStarvation, k.population;
    if p > 0 && d > 0 {
      QuotientAtLeast(d * 100, p + d, 46);
    }
  }

  /** Integer division against a bound: n / m >= t exactly when n >= t * m. */
  lemma QuotientAtLeast(n: nat, m: nat, t: nat)
    requires m > 0
    ensures n / m >= t <==> n >= t * m
  {
    var q := n / m;
    assert n == q * m + n % m;
    if q >= t {
      MulMonotone(t, q, m);
    } else {
      MulMonotone(q + 1, t, m);
    }
  }

  lemma MulMonotone(a: nat, b: nat, m: nat)
    requires a <= b
    ensures a * m <= b * m
  {
    assert b * m == a * m + (b - a) * m;
  }

  /** In unlimited mode the year never decides whether the game is over. */
  lemma UnlimitedIgnoresYear(k: Kingdom, y: nat)
    requires k.unlimitedMode
    ensures IsGameOver(k) == IsGameOver(k.(year := y))
  {
  }

  /**
   * The year check is `year > 10`, so a healthy kingdom at the end of year 10
   * plays an eleventh year, and outside unlimited mode that year ends the game.
   */
  lemma TenthYearIsNotTheLast(k: Kingdom)
    requires k.year == YearLimit && k.population > 0 && k.deathsStarvation == 0
    ensures !IsGameOver(k)
    ensures AdvanceYear(k).year == YearLimit + 1
    ensures !k.unlimitedMode ==> IsGameOver(AdvanceYear(k))
  {
  }
}
