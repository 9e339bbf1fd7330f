// The action executor: four player actions, each validated against the
// kingdom before anything is changed. A rejected action leaves the kingdom
// exactly as it was.
module Actions {
  import opened State

  datatype GameAction = BuyLand(acres: nat) | SellLand(acres: nat) | PlantAcres(acres: nat) | FeedPopulation(bushels: nat)

  datatype ActionResult = Success | InsufficientGrain | InsufficientLand | InsufficientPopulation

  /** The kingdom after an action, with the action's result. */
  datatype Applied = Applied(state: Kingdom, result: ActionResult)

  const BushelsPerPerson: nat := 20
  const AcresPerWorker: nat := 10

  /** `buy_land`: pay the current land price per acre in grain. */
  function Buy(k: Kingdom, acres: nat): (r: Applied)
    ensures r.result == Success || r.result == InsufficientGrain
    ensures r.result == InsufficientGrain <==> acres * k.landPrice > k.grain
    ensures r.result == InsufficientGrain ==> r.state == k
    ensures r.result == Success ==> r.state.grain + acres * k.landPrice == k.grain && r.state.land == k.land + acres
    ensures r.state.(grain := k.grain, land := k.land) == k
  {
    if acres == 0 then Applied(k, Success)
    else
      var cost := acres * k.landPrice;
      if cost > k.grain then Applied(k, InsufficientGrain)
      else Applied(k.(grain := k.grain - cost, land := k.land + acres), Success)
  }

  /** `sell_land`: receive the current land price per acre in grain. */
  function Sell(k: Kingdom, acres: nat): (r: Applied)
    ensures r.result == Success || r.result == InsufficientLand
    ensures r.result == InsufficientLand <==> acres > k.land
    ensures r.result == InsufficientLand ==> r.state == k
    ensures r.result == Success ==> r.state.land + acres == k.land && r.state.grain == k.grain + acres * k.landPrice
    ensures r.state.(grain := k.grain, land := k.land) == k
  {
    if acres == 0 then Applied(k, Success)
    else if acres > k.land then Applied(k, InsufficientLand)
    else Applied(k.(land := k.land - acres, grain := k.grain + acres * k.landPrice), Success)
  }

  /**
   * `plant_acres`: planting zero declines (and forgets an earlier planting);
   * otherwise land, seed grain and workers are checked in that order.
   */
  function Plant(k: Kingdom, acres: nat): (r: Applied)
    ensures acres == 0 ==> r == Applied(k.(acresPlanted := 0), Success)
    ensures acres > 0 ==> (r.result == InsufficientLand <==> acres > k.land)
    ensures acres > 0 ==> (r.result == InsufficientGrain <==> acres <= k.land && acres > k.grain)
    ensures acres > 0 ==> (r.result == InsufficientPopulation <==>
                             acres <= k.land && acres <= k.grain && acres > AcresPerWorker * k.population)
    ensures r.result != Success ==> r.state == k
    ensures r.result == Success ==> r.state.acresPlanted == acres <= r.state.land && r.state.grain + acres == k.grain
    ensures r.state.(grain := k.grain, acresPlanted := k.acresPlanted) == k
  {
    if acres == 0 then Applied(k.(acresPlanted := 0), Success)
    else if acres > k.land then Applied(k, InsufficientLand)
    else if acres > k.grain then Applied(k, InsufficientGrain)
    else if acres > k.population * AcresPerWorker then Applied(k, InsufficientPopulation)
    else Applied(k.(grain := k.grain - acres, acresPlanted := acres), Success)
  }

  /**
   * `feed_population`: every 20 bushels keep one person alive; the rest of
   * the people starve, and are counted in this year's and in all deaths.
   */
  function Feed(k: Kingdom, bushels: nat): (r: Applied)
    ensures r.result == Success || r.result == InsufficientGrain
    ensures r.result == InsufficientGrain <==> bushels > k.grain
    ensures r.result == InsufficientGrain ==> r.state == k
    ensures r.result == Success ==> r.state.grain + bushels == k.grain
    ensures r.result == Success ==> r.state.population + r.state.deathsStarvation == k.population
    ensures r.result == Success ==> r.state.totalDeaths == k.totalDeaths + r.state.deathsStarvation
    ensures r.result == Success && r.state.deathsStarvation > 0 ==> r.state.population == bushels / BushelsPerPerson
    ensures r.result == Success ==> (r.state.deathsStarvation > 0 <==> bushels / BushelsPerPerson < k.population)
    ensures r.state.(grain := k.grain, population := k.population,
                     deathsStarvation := k.deathsStarvation, totalDeaths := k.totalDeaths) == k
  {
    if bushels > k.grain then Applied(k, InsufficientGrain)
    else
      var fed := bushels / BushelsPerPerson;
      if fed < k.population then
        var starved := k.population - fed;
        Applied(k.(grain := k.grain - bushels, deathsStarvation := starved,
                   population := fed, totalDeaths := k.totalDeaths + starved), Success)
      else
        Applied(k.(grain := k.grain - bushels, deathsStarvation := 0), Success)
  }

  /**
   * `execute_action`: each action goes to its own handler. Whatever the
   * action, a rejection changes nothing, deaths are never undone, and each
   * action can only fail in its own ways.
   */
  function Execute(k: Kingdom, action: GameAction): (r: Applied)
    ensures r.result != Success ==> r.state == k
    ensures r.state.totalDeaths >= k.totalDeaths
    ensures action.BuyLand? ==> r.result == Success || r.result == InsufficientGrain
    ensures action.SellLand? ==> r.result == Success || r.result == InsufficientLand
    ensures action.FeedPopulation? ==> r.result == Success || r.result == InsufficientGrain
    ensures r.result == InsufficientPopulation ==> action.PlantAcres?
    ensures !action.FeedPopulation? ==> r.state.population == k.population && r.state.totalDeaths == k.totalDeaths
    ensures action.PlantAcres? || action.FeedPopulation? ==> r.state.land == k.land
    ensures r.state.landPrice == k.landPrice && r.state.year == k.year && r.state.rng == k.rng
    ensures r.state.currentPhase == k.currentPhase
  {
    match action
    case BuyLand(acres) => Buy(k, acres)
    case SellLand(acres) => Sell(k, acres)
    case PlantAcres(acres) => Plant(k, acres)
    case FeedPopulation(bushels) => Feed(k, bushels)
  }

  /** Selling back what was just bought, at the same price, restores the kingdom. */
  lemma BuyThenSellRestores(k: Kingdom, acres: nat)
    requires Buy(k, acres).result == Success
    ensures Sell(Buy(k, acres).state, acres) == Applied(k, Success)
  {
  }

  /** Buying back what was just sold, at the same price, restores the kingdom. */
  lemma SellThenBuyRestores(k: Kingdom, acres: nat)
    requires Sell(k, acres).result == Success
    ensures Buy(Sell(k, acres).state, acres) == Applied(k, Success)
  {
  }

  /** Land trades keep the kingdom's worth, grain plus land at the current price. */
  lemma {:induction false} LandTradeKeepsWorth(k: Kingdom, action: GameAction)
    requires action.BuyLand? || action.SellLand?
    ensures var r := Execute(k, action).state;
      r.grain + r.land * k.landPrice == k.grain + k.land * k.landPrice
  {
    var r := Execute(k, action);
    if r.result == Success {
      var p := k.landPrice;
      if action.BuyLand? {
        assert (k.land + action.acres) * p == k.land * p + action.acres * p;
      } else {
        assert k.land * p == (r.state.land + action.acres) * p == r.state.land * p + action.acres * p;
      }
    }
  }

  /** A positive planting succeeds exactly when it is within `max_plantable_acres`. */
  lemma PlantWithinMaxSucceeds(k: Kingdom, acres: nat)
    requires acres > 0
    ensures Plant(k, acres).result == Success <==> acres <= MaxPlantableAcres(k)
  {
  }

  /**
   * A successful feeding starves nobody exactly when it hands out at least
   * `grain_needed_for_feeding`.
   */
  lemma {:induction false} FeedingTheNeededGrainAvoidsStarvation(k: Kingdom, bushels: nat)
    requires bushels <= k.grain
    ensures Feed(k, bushels).result == Success
    ensures Feed(k, bushels).state.deathsStarvation == 0 <==> bushels >= GrainNeededForFeeding(k)
  {
    QuotientAtLeast(bushels, BushelsPerPerson, k.population);
  }

  /**
   * After a successful feeding of a kingdom that had people, either somebody
   * starved or the population is unchanged, so it is still positive.
   */
  lemma FeedingKeepsSomeoneOrStarvation(k: Kingdom, bushels: nat)
    requires k.population >= 1 && Feed(k, bushels).result == Success
    ensures var r := Feed(k, bushels).state;
      r.deathsStarvation > 0 || r.population == k.population >= 1
  {
  }
}
