// The year-event pipeline run after each successful feeding: harvest, the
// chance of rats, immigration, the chance of plague — always in that order,
// drawing from the kingdom's own random stream in a fixed order.
module Events {
  import opened State

  /**
   * What each event reports, in place of the flavour text the game prints:
   * the numbers handed to the message templates and nothing else.
   */
  datatype Outcome =
    | Harvested(bushelsPerAcre: nat, amount: nat)
    | RatsAte(amount: nat)
    | NoImmigration
    | Immigrated(newCitizens: nat)
    | PlagueStruck

  /** The kingdom after one event, with what the event reports. */
  datatype Step = Step(state: Kingdom, outcome: Outcome)

  /** The kingdom after the whole pipeline, with the reports in order. */
  datatype YearReport = YearReport(state: Kingdom, outcomes: seq<Outcome>)

  const RatsChance: int := 40
  const PlagueChance: int := 15
  const MaxImmigrants: nat := 50

  /** `process_harvest`: a yield of 1 to 5 bushels per planted acre. */
  function ProcessHarvest(k: Kingdom): (r: Step)
    ensures 1 <= r.state.harvestYield <= 5
    ensures r.state.harvestYield == k.rng.SampleAt(k.rng.drawn, 1, 5)
    ensures r.state.grainHarvested == k.acresPlanted * r.state.harvestYield
    ensures r.state.grain == k.grain + r.state.grainHarvested
    ensures r.state.rng == k.rng.(drawn := k.rng.drawn + 1)
    ensures r.outcome == Harvested(r.state.harvestYield, r.state.grainHarvested)
    ensures r.state.(harvestYield := k.harvestYield, grainHarvested := k.grainHarvested,
                     grain := k.grain, rng := k.rng) == k
  {
    var draw := k.rng.GenRange(1, 5);
    var harvested := k.acresPlanted * draw.0;
    Step(k.(harvestYield := draw.0, rng := draw.1, grainHarvested := harvested,
            grain := k.grain + harvested),
         Harvested(draw.0, harvested))
  }

  /** `process_rats`: rats eat 10% to 30% of the grain, rounded down. */
  function ProcessRats(k: Kingdom): (r: Step)
    ensures r.state.grainEatenByRats == k.grain * k.rng.SampleAt(k.rng.drawn, 10, 30) / 100
    ensures k.grain * 10 / 100 <= r.state.grainEatenByRats <= k.grain * 30 / 100
    ensures r.state.grainEatenByRats <= k.grain
    ensures r.state.grain + r.state.grainEatenByRats == k.grain
    ensures r.state.rng == k.rng.(drawn := k.rng.drawn + 1)
    ensures r.outcome == RatsAte(r.state.grainEatenByRats)
    ensures r.state.(grainEatenByRats := k.grainEatenByRats, grain := k.grain, rng := k.rng) == k
  {
    var draw := k.rng.GenRange(10, 30);
    var pct := draw.0;
    ShareBounds(k.grain, 10, pct, 30);
    var eaten := k.grain * pct / 100;
    Step(k.(rng := draw.1, grainEatenByRats := eaten, grain := k.grain - eaten), RatsAte(eaten))
  }

  /** For percentages lo <= pct <= hi <= 100, the share g * pct / 100 lies between the two shares and within g. */
  lemma ShareBounds(g: nat, lo: nat, pct: nat, hi: nat)
    requires lo <= pct <= hi <= 100
    ensures g * lo / 100 <= g * pct / 100 <= g * hi / 100 <= g
  {
    MulMonotone(lo, pct, g);
    MulMonotone(pct, hi, g);
    MulMonotone(hi, 100, g);
    DivMonotone(g * lo, g * pct, 100);
    DivMonotone(g * pct, g * hi, 100);
    DivMonotone(g * hi, g * 100, 100);
  }

  lemma DivMonotone(a: nat, b: nat, m: nat)
    requires a <= b && m > 0
    ensures a / m <= b / m
  {
    QuotientAtLeast(a, m, a / m);
    QuotientAtLeast(b, m, a / m);
  }

  /** One more than w / d, capped at 50, bracketed without division. */
  lemma ArrivalsBracket(w: nat, d: nat)
    requires d > 0
    ensures var n := Min(w / d + 1, MaxImmigrants);
      && 1 <= n <= MaxImmigrants
      && (n < MaxImmigrants ==> (n - 1) * d <= w < n * d)
      && (n == MaxImmigrants ==> (MaxImmigrants - 1) * d <= w)
  {
    var q := w / d;
    QuotientAtLeast(w, d, q);
    QuotientAtLeast(w, d, q + 1);
    QuotientAtLeast(w, d, MaxImmigrants - 1);
  }

  /**
   * `process_immigration`: nobody comes in a year with starvation; otherwise
   * one more than (20 * land + grain) / (100 * population), at most 50.
   * The division needs people, which a caller guarantees unless somebody
   * starved this year.
   */
  function ProcessImmigration(k: Kingdom): (r: Step)
    requires k.deathsStarvation > 0 || k.population > 0
    ensures k.deathsStarvation > 0 ==> r == Step(k.(newCitizens := 0), NoImmigration)
    ensures k.deathsStarvation == 0 ==>
      && 1 <= r.state.newCitizens <= MaxImmigrants
      && r.state.population == k.population + r.state.newCitizens
      && r.outcome == Immigrated(r.state.newCitizens)
    ensures k.deathsStarvation == 0 && r.state.newCitizens < MaxImmigrants ==>
      (r.state.newCitizens - 1) * (100 * k.population) <= 20 * k.land + k.grain
                                                       < r.state.newCitizens * (100 * k.population)
    ensures k.deathsStarvation == 0 && r.state.newCitizens == MaxImmigrants ==>
      (MaxImmigrants - 1) * (100 * k.population) <= 20 * k.land + k.grain
    ensures r.state.(newCitizens := k.newCitizens, population := k.population) == k
  {
    if k.deathsStarvation > 0 then
      Step(k.(newCitizens := 0), NoImmigration)
    else
      var wealth, divisor := 20 * k.land + k.grain, 100 * k.population;
      ArrivalsBracket(wealth, divisor);
      var arrived := Min(wealth / divisor + 1, MaxImmigrants);
      Step(k.(newCitizens := arrived, population := k.population + arrived), Immigrated(arrived))
  }

  /** `process_plague`: half the people, rounded down, die. */
  function ProcessPlague(k: Kingdom): (r: Step)
    ensures 2 * r.state.deathsPlague <= k.population <= 2 * r.state.deathsPlague + 1
    ensures r.state.population + r.state.deathsPlague == k.population
    ensures r.state.totalDeaths == k.totalDeaths + r.state.deathsPlague
    ensures k.population >= 1 ==> r.state.population >= 1
    ensures r.outcome == PlagueStruck
    ensures r.state.(deathsPlague := k.deathsPlague, population := k.population,
                     totalDeaths := k.totalDeaths) == k
  {
    var deaths := k.population / 2;
    Step(k.(deathsPlague := deaths, population := k.population - deaths,
            totalDeaths := k.totalDeaths + deaths),
         PlagueStruck)
  }

  /** Whether the chance draw for rats (the second of the year) strikes. */
  predicate RatsStrike(k: Kingdom)
  {
    k.rng.SampleAt(k.rng.drawn + 1, 0, 99) < RatsChance
  }

  /** The position of the plague's chance draw: after the damage draw when rats struck. */
  /**
   * What `process_immigration` lets in, in a year without starvation, from
   * the land and grain it reads: one to 50 people, one more than the wealth
   * per hundred bushels a head, stated without division.
   */
  predicate ArrivalsMatchWealth(n: int, land: int, grain: int, population: int)
  {
    && 1 <= n <= MaxImmigrants
    && (n < MaxImmigrants ==> (n - 1) * (100 * population) <= 20 * land + grain < n * (100 * population))
    && (n == MaxImmigrants ==> (MaxImmigrants - 1) * (100 * population) <= 20 * land + grain)
  }

  function PlagueDraw(k: Kingdom): nat
  {
    k.rng.drawn + if RatsStrike(k) then 3 else 2
  }

  /** Whether the chance draw for plague strikes. */
  predicate PlagueStrikes(k: Kingdom)
  {
    k.rng.SampleAt(PlagueDraw(k), 0, 99) < PlagueChance
  }

  /** Where the immigration report stands in the year's list. */
  function ImmigrationIndex(k: Kingdom): nat
  {
    if RatsStrike(k) then 2 else 1
  }

  /** Whether plague strikes on the chance draw at the head of the stream. */
  predicate PlagueStrikesNow(k: Kingdom)
  {
    k.rng.SampleAt(k.rng.drawn, 0, 99) < PlagueChance
  }

  /**
   * The first half of the year: the harvest, then the rats' chance draw and,
   * when it is under 40, the rats with their own damage draw.
   */
  function HarvestAndRats(k: Kingdom): (r: YearReport)
    ensures r.state.harvestYield == k.rng.SampleAt(k.rng.drawn, 1, 5)
    ensures r.state.grainHarvested == k.acresPlanted * r.state.harvestYield
    ensures RatsStrike(k) ==> r.state.grainEatenByRats
                               == (k.grain + r.state.grainHarvested) * k.rng.SampleAt(k.rng.drawn + 2, 10, 30) / 100
    ensures !RatsStrike(k) ==> r.state.grainEatenByRats == k.grainEatenByRats
    ensures r.state.grain + (if RatsStrike(k) then r.state.grainEatenByRats else 0)
            == k.grain + r.state.grainHarvested
    ensures r.state.rng == k.rng.(drawn := PlagueDraw(k))
    ensures |r.outcomes| == 1 + if RatsStrike(k) then 1 else 0
    ensures r.outcomes[0] == Harvested(r.state.harvestYield, r.state.grainHarvested)
    ensures RatsStrike(k) ==> r.outcomes[1] == RatsAte(r.state.grainEatenByRats)
    ensures r.state.(harvestYield := k.harvestYield, grainHarvested := k.grainHarvested, grain := k.grain,
                     grainEatenByRats := k.grainEatenByRats, rng := k.rng) == k
  {
    var harvest := ProcessHarvest(k);
    var ratsRoll := harvest.state.rng.GenRange(0, 99);
    var afterRatsRoll := harvest.state.(rng := ratsRoll.1);
    if ratsRoll.0 < RatsChance then
      var rats := ProcessRats(afterRatsRoll);
      YearReport(rats.state, [harvest.outcome, rats.outcome])
    else
      YearReport(afterRatsRoll, [harvest.outcome])
  }

  /**
   * The second half of the year: immigration, then the plague's chance draw
   * and, when it is under 15, the plague.
   */
  function ImmigrationAndPlague(k: Kingdom): (r: YearReport)
    requires k.deathsStarvation > 0 || k.population > 0
    ensures r.state.rng == k.rng.(drawn := k.rng.drawn + 1)
    ensures |r.outcomes| == 1 + if PlagueStrikesNow(k) then 1 else 0
    ensures r.outcomes[0] == if k.deathsStarvation > 0 then NoImmigration else Immigrated(r.state.newCitizens)
    ensures PlagueStrikesNow(k) ==> r.outcomes[1] == PlagueStruck
    ensures r.state.population + r.state.totalDeaths == k.population + k.totalDeaths + r.state.newCitizens
    ensures r.state.totalDeaths == k.totalDeaths + if PlagueStrikesNow(k) then r.state.deathsPlague else 0
    ensures PlagueStrikesNow(k) ==> r.state.deathsPlague <= r.state.population <= r.state.deathsPlague + 1
    ensures !PlagueStrikesNow(k) ==> r.state.deathsPlague == k.deathsPlague
    ensures r.state.newCitizens == 0 <==> k.deathsStarvation > 0
    ensures k.deathsStarvation == 0 ==> ArrivalsMatchWealth(r.state.newCitizens, k.land, k.grain, k.population)
    ensures k.population >= 1 ==> r.state.population >= 1
    ensures r.state.(newCitizens := k.newCitizens, population := k.population, totalDeaths := k.totalDeaths,
                     deathsPlague := k.deathsPlague, rng := k.rng) == k
  {
    var immigration := ProcessImmigration(k);
    var plagueRoll := immigration.state.rng.GenRange(0, 99);
    var afterPlagueRoll := immigration.state.(rng := plagueRoll.1);
    if plagueRoll.0 < PlagueChance then
      var plague := ProcessPlague(afterPlagueRoll);
      YearReport(plague.state, [immigration.outcome, plague.outcome])
    else
      YearReport(afterPlagueRoll, [immigration.outcome])
  }

  /**
   * `process_year_events`: harvest, then rats on a 40% chance, then
   * immigration, then plague on a 15% chance, with one report per event that
   * happened; harvest and immigration always report.
   */
  function ProcessYearEvents(k: Kingdom): (r: YearReport)
    requires k.deathsStarvation > 0 || k.population > 0
    // the draws, in order: yield, rats chance, damage (only if rats), plague chance
    ensures r.state.harvestYield == k.rng.SampleAt(k.rng.drawn, 1, 5)
    ensures RatsStrike(k) ==> r.state.grainEatenByRats
                               == (k.grain + r.state.grainHarvested) * k.rng.SampleAt(k.rng.drawn + 2, 10, 30) / 100
    ensures !RatsStrike(k) ==> r.state.grainEatenByRats == k.grainEatenByRats
    ensures r.state.rng == k.rng.(drawn := PlagueDraw(k) + 1)
    // the reports
    ensures |r.outcomes| == 2 + (if RatsStrike(k) then 1 else 0) + (if PlagueStrikes(k) then 1 else 0)
    ensures r.outcomes[0] == Harvested(r.state.harvestYield, r.state.grainHarvested)
    ensures RatsStrike(k) ==> r.outcomes[1] == RatsAte(r.state.grainEatenByRats)
    ensures r.outcomes[ImmigrationIndex(k)]
            == if k.deathsStarvation > 0 then NoImmigration else Immigrated(r.state.newCitizens)
    ensures PlagueStrikes(k) ==> r.outcomes[|r.outcomes| - 1] == PlagueStruck
    // the accounts
    ensures r.state.grainHarvested == k.acresPlanted * r.state.harvestYield
    ensures r.state.grain + (if RatsStrike(k) then r.state.grainEatenByRats else 0)
            == k.grain + r.state.grainHarvested
    ensures r.state.population + r.state.totalDeaths == k.population + k.totalDeaths + r.state.newCitizens
    ensures r.state.totalDeaths == k.totalDeaths + if PlagueStrikes(k) then r.state.deathsPlague else 0
    ensures PlagueStrikes(k) ==> r.state.deathsPlague <= r.state.population <= r.state.deathsPlague + 1
    ensures !PlagueStrikes(k) ==> r.state.deathsPlague == k.deathsPlague
    ensures r.state.newCitizens == 0 <==> k.deathsStarvation > 0
    // immigration reads the grain left after the rats, which it and the plague keep
    ensures k.deathsStarvation == 0 ==> ArrivalsMatchWealth(r.state.newCitizens, k.land, r.state.grain, k.population)
    ensures k.population >= 1 ==> r.state.population >= 1
    ensures r.state.land == k.land && r.state.acresPlanted == k.acresPlanted
    ensures r.state.deathsStarvation == k.deathsStarvation && r.state.year == k.year
    ensures r.state.landPrice == k.landPrice && r.state.currentPhase == k.currentPhase
    ensures r.state.unlimitedMode == k.unlimitedMode
  {
    var first := HarvestAndRats(k);
    var second := ImmigrationAndPlague(first.state);
    assert PlagueStrikesNow(first.state) == PlagueStrikes(k);
    YearReport(second.state, first.outcomes + second.outcomes)
  }
}
