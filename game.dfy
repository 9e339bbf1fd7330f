// The game record the driver owns and changes in place. Its fields are those
// of the Kingdom value; each method does what the corresponding Rust method
// does, step by step, and is proved to produce the Kingdom that the
// specification function of the State, Actions or Events module gives.
module Game {
  import opened State
  import Actions
  import Events

  class GameState {
    var year: nat
    var population: nat
    var grain: nat
    var land: nat
    var landPrice: nat
    var harvestYield: nat
    var grainEatenByRats: nat
    var newCitizens: nat
    var deathsStarvation: nat
    var deathsPlague: nat
    var totalDeaths: nat
    var grainHarvested: nat
    var acresPlanted: nat
    var rng: Rng
    var currentPhase: GamePhase
    var unlimitedMode: bool

    /** The record's fields as one value. */
    function View(): Kingdom
      reads this
    {
      Kingdom(year, population, grain, land, landPrice, harvestYield, grainEatenByRats,
              newCitizens, deathsStarvation, deathsPlague, totalDeaths, grainHarvested,
              acresPlanted, rng, currentPhase, unlimitedMode)
    }

    /** `GameState::new`: `source` stands for the stream seeded from the game's seed. */
    constructor (source: nat -> nat, unlimited: bool)
      ensures View() == NewGame(source, unlimited)
    {
      var seeded := Rng(source, 0);
      var price := seeded.GenRange(MinLandPrice, MaxLandPrice);
      rng := price.1;
      year, population, grain, land := 1, 100, 2800, 1000;
      landPrice := price.0;
      harvestYield := 3;
      grainEatenByRats, newCitizens, deathsStarvation, deathsPlague := 0, 0, 0, 0;
      totalDeaths, grainHarvested, acresPlanted := 0, 0, 0;
      currentPhase := Splash;
      unlimitedMode := unlimited;
    }

    /** One `gen_range(lo..=hi)` on the owned stream. */
    method GenRange(lo: int, hi: int) returns (v: int)
      requires lo <= hi
      modifies this
      ensures v == old(rng).GenRange(lo, hi).0 && lo <= v <= hi
      ensures View() == old(View()).(rng := old(rng).GenRange(lo, hi).1)
    {
      var draw := rng.GenRange(lo, hi);
      v := draw.0;
      rng := draw.1;
    }

    /** `advance_year` */
    method AdvanceYear()
      modifies this
      ensures View() == State.AdvanceYear(old(View()))
    {
      var price := rng.GenRange(MinLandPrice, MaxLandPrice);
      year := year + 1;
      landPrice := price.0;
      rng := price.1;
      currentPhase := LandTransaction;
      harvestYield := 0;
      grainEatenByRats := 0;
      newCitizens := 0;
      deathsStarvation := 0;
      deathsPlague := 0;
      grainHarvested := 0;
      acresPlanted := 0;
    }

    /** `execute_action` */
    method ExecuteAction(action: Actions.GameAction) returns (result: Actions.ActionResult)
      modifies this
      ensures Actions.Execute(old(View()), action) == Actions.Applied(View(), result)
      ensures action.BuyLand? ==> Actions.Buy(old(View()), action.acres) == Actions.Applied(View(), result)
      ensures action.SellLand? ==> Actions.Sell(old(View()), action.acres) == Actions.Applied(View(), result)
      ensures action.PlantAcres? ==> Actions.Plant(old(View()), action.acres) == Actions.Applied(View(), result)
      ensures action.FeedPopulation? ==> Actions.Feed(old(View()), action.bushels) == Actions.Applied(View(), result)
    {
      match action
      case BuyLand(acres) => result := BuyLand(acres);
      case SellLand(acres) => result := SellLand(acres);
      case PlantAcres(acres) => result := PlantAcres(acres);
      case FeedPopulation(bushels) => result := FeedPopulation(bushels);
    }

    /** `buy_land` */
    method BuyLand(acres: nat) returns (result: Actions.ActionResult)
      modifies this
      ensures Actions.Buy(old(View()), acres) == Actions.Applied(View(), result)
    {
      if acres == 0 {
        return Actions.Success;
      }
      var cost := acres * landPrice;
      if cost > grain {
        return Actions.InsufficientGrain;
      }
      grain := grain - cost;
      land := land + acres;
      result := Actions.Success;
    }

    /** `sell_land` */
    method SellLand(acres: nat) returns (result: Actions.ActionResult)
      modifies this
      ensures Actions.Sell(old(View()), acres) == Actions.Applied(View(), result)
    {
      if acres == 0 {
        return Actions.Success;
      }
      if acres > land {
        return Actions.InsufficientLand;
      }
      land := land - acres;
      grain := grain + acres * landPrice;
      result := Actions.Success;
    }

    /** `plant_acres` */
    method PlantAcres(acres: nat) returns (result: Actions.ActionResult)
      modifies this
      ensures Actions.Plant(old(View()), acres) == Actions.Applied(View(), result)
    {
      if acres == 0 {
        acresPlanted := 0;
        return Actions.Success;
      }
      if acres > land {
        return Actions.InsufficientLand;
      }
      if acres > grain {
        return Actions.InsufficientGrain;
      }
      if acres > population * Actions.AcresPerWorker {
        return Actions.InsufficientPopulation;
      }
      grain := grain - acres;
      acresPlanted := acres;
      result := Actions.Success;
    }

    /** `feed_population` */
    method FeedPopulation(bushels: nat) returns (result: Actions.ActionResult)
      modifies this
      ensures Actions.Feed(old(View()), bushels) == Actions.Applied(View(), result)
    {
      if bushels > grain {
        return Actions.InsufficientGrain;
      }
      grain := grain - bushels;
      var peopleFed := bushels / Actions.BushelsPerPerson;
      if peopleFed < population {
        deathsStarvation := population - peopleFed;
        population := peopleFed;
        totalDeaths := totalDeaths + deathsStarvation;
      } else {
        deathsStarvation := 0;
      }
      result := Actions.Success;
    }

    /** `process_year_events`: the reports are collected in order as the events run. */
    method ProcessYearEvents() returns (outcomes: seq<Events.Outcome>)
      requires deathsStarvation > 0 || population > 0
      modifies this
      ensures Events.ProcessYearEvents(old(View())) == Events.YearReport(View(), outcomes)
    {
      ghost var first := Events.HarvestAndRats(View());
      ghost var second := Events.ImmigrationAndPlague(first.state);
      outcomes := [];
      var harvest := ProcessHarvest();
      outcomes := outcomes + [harvest];
      var ratsRoll := GenRange(0, 99);
      if ratsRoll < Events.RatsChance {
        var rats := ProcessRats();
        outcomes := outcomes + [rats];
      }
      assert View() == first.state && outcomes == first.outcomes;
      var immigration := ProcessImmigration();
      outcomes := outcomes + [immigration];
      var plagueRoll := GenRange(0, 99);
      if plagueRoll < Events.PlagueChance {
        var plague := ProcessPlague();
        outcomes := outcomes + [plague];
      }
      assert View() == second.state && outcomes == first.outcomes + second.outcomes;
    }

    /** `process_harvest` */
    method ProcessHarvest() returns (outcome: Events.Outcome)
      modifies this
      ensures Events.ProcessHarvest(old(View())) == Events.Step(View(), outcome)
    {
      harvestYield := GenRange(1, 5);
      grainHarvested := acresPlanted * harvestYield;
      grain := grain + grainHarvested;
      outcome := Events.Harvested(harvestYield, grainHarvested);
    }

    /** `process_rats` */
    method ProcessRats() returns (outcome: Events.Outcome)
      modifies this
      ensures Events.ProcessRats(old(View())) == Events.Step(View(), outcome)
    {
      var damagePercent := GenRange(10, 30);
      Events.ShareBounds(grain, 10, damagePercent, 30);
      grainEatenByRats := grain * damagePercent / 100;
      grain := grain - grainEatenByRats;
      outcome := Events.RatsAte(grainEatenByRats);
    }

    /** `process_plague` */
    method ProcessPlague() returns (outcome: Events.Outcome)
      modifies this
      ensures Events.ProcessPlague(old(View())) == Events.Step(View(), outcome)
    {
      var deaths := population / 2;
      deathsPlague := deaths;
      population := population - deaths;
      totalDeaths := totalDeaths + deaths;
      outcome := Events.PlagueStruck;
    }

    /** `process_immigration` */
    method ProcessImmigration() returns (outcome: Events.Outcome)
      requires deathsStarvation > 0 || population > 0
      modifies this
      ensures Events.ProcessImmigration(old(View())) == Events.Step(View(), outcome)
    {
      if deathsStarvation > 0 {
        newCitizens := 0;
        return Events.NoImmigration;
      }
      var baseImmigration := (20 * land + grain) / (100 * population) + 1;
      newCitizens := Min(baseImmigration, Events.MaxImmigrants);
      population := population + newCitizens;
      outcome := Events.Immigrated(newCitizens);
    }
  }
}
