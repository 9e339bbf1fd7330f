// The driver the terminal talks to: a line of typed digits, the Enter key
// moving the game through the phases of a year, the status message and the
// lines shown for the year's events or the final report.
module Application {
  import opened State
  import opened Actions
  import Events
  import Scoring
  import opened Game

  datatype Option<T> = None | Some(value: T)

  /** The status message, in place of its text: empty, or why the last entry was refused. */
  datatype Notice =
    | NoNotice
    | NotEnoughGrainToBuy
    | NotEnoughLandToSell
    | NotEnoughGrainForSeed
    | NotEnoughLandToPlant
    | NotEnoughPeople
    | NotEnoughGrainToFeed

  /** One line of the events panel, in place of its text. */
  datatype Line =
    | Event(outcome: Events.Outcome)
    | FinalPopulation(population: nat)
    | FinalLand(land: nat)
    | TotalDeaths(deaths: nat)
    | DeathRate(percent: real)
    | AcresPerPerson(ratio: real)
    | Blank
    | Verdict(message: Scoring.RatingMessage)

  const InitialPopulation: nat := 100
  const I32Min: int := -0x8000_0000
  const I32Max: int := 0x7FFF_FFFF
  const U32Max: int := 0xFFFF_FFFF

  predicate IsDigit(c: char)
  {
    '0' <= c <= '9'
  }

  /** The only characters the input line accepts. */
  predicate IsInputChar(c: char)
  {
    IsDigit(c) || c == '-'
  }

  predicate AllDigits(s: string)
  {
    forall i :: 0 <= i < |s| ==> IsDigit(s[i])
  }

  /** The number a string of decimal digits denotes. */
  function DigitsValue(s: string): nat
    requires AllDigits(s)
  {
    if s == [] then 0
    else 10 * DigitsValue(s[..|s| - 1]) + (s[|s| - 1] as int - '0' as int)
  }

  /**
   * `parse::<u32>` on the strings the input line can hold: one or more
   * digits whose value fits in 32 bits.
   */
  function ParseU32(s: string): (r: Option<nat>)
    ensures r.Some? <==> s != [] && AllDigits(s) && DigitsValue(s) <= U32Max
    ensures r.Some? ==> r.value == DigitsValue(s)
  {
    if s != [] && AllDigits(s) && DigitsValue(s) <= U32Max then Some(DigitsValue(s)) else None
  }

  /**
   * `parse::<i32>` on the strings the input line can hold: an optional minus
   * sign, then one or more digits, with the value in the 32-bit signed range.
   */
  function ParseI32(s: string): (r: Option<int>)
    ensures r.Some? ==> I32Min <= r.value <= I32Max
    ensures r.Some? && r.value < 0 ==> s != [] && s[0] == '-'
    ensures s == [] || s == "-" ==> r.None?
    ensures AllDigits(s) ==> r == if s != [] && DigitsValue(s) <= I32Max then Some(DigitsValue(s)) else None
    ensures s != [] && s[0] == '-' ==>
              && (r.Some? <==> s[1..] != [] && AllDigits(s[1..]) && DigitsValue(s[1..]) <= -I32Min)
              && (r.Some? ==> r.value == -(DigitsValue(s[1..]) as int))
    ensures r.Some? ==> s != [] && AllDigits(if s[0] == '-' then s[1..] else s)
  {
    if s != [] && s[0] == '-' then
      var digits := s[1..];
      if digits != [] && AllDigits(digits) && DigitsValue(digits) <= -I32Min then Some(-(DigitsValue(digits) as int)) else None
    else if s != [] && AllDigits(s) && DigitsValue(s) <= I32Max then Some(DigitsValue(s))
    else None
  }

  /** The decimal form of n, most significant digit first, with no leading zeros. */
  function Decimal(n: nat): (s: string)
    ensures s != [] && AllDigits(s)
  {
    var last := [('0' as int + n % 10) as char];
    if n < 10 then last else Decimal(n / 10) + last
  }

  /** The digits of n's decimal form denote n. */
  lemma {:induction false} DecimalValue(n: nat)
    ensures DigitsValue(Decimal(n)) == n
  {
    if n >= 10 {
      DecimalValue(n / 10);
      var s := Decimal(n);
      assert s[..|s| - 1] == Decimal(n / 10);
    }
  }

  /** An unsigned amount in range, typed in decimal, parses back to itself. */
  lemma {:induction false} ParseU32RoundTrip(n: nat)
    requires n <= U32Max
    ensures ParseU32(Decimal(n)) == Some(n)
  {
    DecimalValue(n);
  }

  /** A signed amount in range, typed in decimal with a leading '-' when negative, parses back to itself. */
  lemma {:induction false} ParseI32RoundTrip(n: int)
    requires I32Min <= n <= I32Max
    ensures ParseI32(if n < 0 then "-" + Decimal(-n) else Decimal(n)) == Some(n)
  {
    if n < 0 {
      DecimalValue(-n);
      assert ("-" + Decimal(-n))[1..] == Decimal(-n);
    } else {
      DecimalValue(n);
    }
  }

  /** The land action an amount stands for: buy when positive, sell when negative, none for zero. */
  function LandAction(amount: int): (r: Option<GameAction>)
    ensures r.None? <==> amount == 0
    ensures r.Some? ==> r.value.BuyLand? || r.value.SellLand?
    ensures r.Some? ==> (r.value.BuyLand? <==> amount > 0)
    ensures r.Some? ==> r.value.acres == if amount > 0 then amount else -amount
  {
    if amount > 0 then Some(BuyLand(amount))
    else if amount < 0 then Some(SellLand(-amount))
    else None
  }

  /**
   * An accepted land entry changes the land by exactly the amount typed, and
   * the grain by that amount at the current price the other way.
   */
  lemma {:induction false} LandEntryMovesLandByAmount(k: Kingdom, amount: int)
    requires amount != 0
    requires Actions.Execute(k, LandAction(amount).value).result == Success
    ensures var r := Actions.Execute(k, LandAction(amount).value).state;
      && r.land == k.land + amount
      && r.grain == k.grain - amount * k.landPrice
  {
    if amount < 0 {
      assert (-amount) * k.landPrice == -(amount * k.landPrice);
    }
  }

  /** Each outcome of the year, in order, as a line of the events panel. */
  function EventLines(outcomes: seq<Events.Outcome>): (lines: seq<Line>)
    ensures |lines| == |outcomes|
    ensures forall i :: 0 <= i < |outcomes| ==> lines[i] == Event(outcomes[i])
  {
    if outcomes == [] then [] else [Event(outcomes[0])] + EventLines(outcomes[1..])
  }

  /** The lines `calculate_final_score` shows at the end of the game. */
  function FinalReport(k: Kingdom): seq<Line>
  {
    var score := Scoring.EvaluatePerformance(InitialPopulation, k.population, k.totalDeaths, k.land);
    [ FinalPopulation(k.population), FinalLand(k.land), TotalDeaths(score.totalDeaths),
      DeathRate(score.deathRate), AcresPerPerson(score.acresPerPerson), Blank,
      Verdict(Scoring.RatingMessageOf(score.rating)) ]
  }

  /**
   * The final verdict is praise (Fair, Good or Excellent) exactly when, in
   * whole numbers, at most 200 people died (a death rate of at most 20%) and
   * there are people left with at least 9 acres each.
   */
  lemma {:induction false} FinalVerdictFromCounts(k: Kingdom)
    ensures FinalReport(k)[6] == Verdict(Scoring.Wondrous)
            <==> k.totalDeaths <= 2 * InitialPopulation && k.population > 0 && k.land >= 9 * k.population
  {
    Scoring.RatingAgreesWithCounts(InitialPopulation, k.population, k.totalDeaths, k.land);
  }

  /** Phases in which typed characters are taken. */
  predicate AcceptsInput(p: GamePhase)
  {
    p != YearEnd && p != GameOver
  }

  /** Phases in which nothing has been planted yet this year. */
  predicate BeforePlanting(p: GamePhase)
  {
    p == Splash || p == Instructions || p == LandTransaction || p == Planting
  }

  /** The kingdom and the events panel once a year has been closed. */
  datatype Closed = Closed(state: Kingdom, lines: seq<Line>)

  /**
   * `process_year_end` on values: the year's events run; then the game is
   * over, with the final report shown, or the year's end is shown with one
   * line per event.
   */
  function CloseYear(k: Kingdom): (c: Closed)
    requires k.deathsStarvation > 0 || k.population > 0
    ensures c.state.(currentPhase := k.currentPhase) == Events.ProcessYearEvents(k).state
    ensures c.state.currentPhase == GameOver <==> IsGameOver(c.state)
    ensures c.state.currentPhase == GameOver || c.state.currentPhase == YearEnd
    ensures c.state.currentPhase == GameOver ==> c.lines == FinalReport(c.state)
    ensures c.state.currentPhase == YearEnd ==> c.lines == EventLines(Events.ProcessYearEvents(k).outcomes)
    ensures c.state.totalDeaths >= k.totalDeaths
    ensures MinLandPrice <= k.landPrice <= MaxLandPrice && k.acresPlanted <= k.land ==> Steady(c.state)
  {
    var report := Events.ProcessYearEvents(k);
    ClosingIsSteady(report.state);
    if IsGameOver(report.state) then
      var over := report.state.(currentPhase := GameOver);
      Closed(over, FinalReport(over))
    else Closed(report.state.(currentPhase := YearEnd), EventLines(report.outcomes))
  }

  /**
   * What holds of the kingdom between key presses: the land price is in
   * range; nothing is planted before the planting phase and never more than
   * the land; there are people until the game is over; and outside unlimited
   * mode no year after the eleventh is played, nor does a year past the
   * tenth reach its end screen.
   */
  predicate Steady(k: Kingdom)
  {
    && MinLandPrice <= k.landPrice <= MaxLandPrice
    && k.acresPlanted <= k.land
    && (BeforePlanting(k.currentPhase) ==> k.acresPlanted == 0)
    && (k.currentPhase != GameOver ==> k.population >= 1)
    && (!k.unlimitedMode && k.currentPhase != GameOver ==> k.year <= YearLimit + 1)
    && (!k.unlimitedMode && k.currentPhase == YearEnd ==> k.year <= YearLimit)
  }

  /** A kingdom whose price is in range and whose planting fits its land is steady in the phase that closes its year. */
  lemma ClosingIsSteady(s: Kingdom)
    ensures MinLandPrice <= s.landPrice <= MaxLandPrice && s.acresPlanted <= s.land ==>
      Steady(s.(currentPhase := if IsGameOver(s) then GameOver else YearEnd))
  {
  }

  lemma NewGameIsSteady(source: nat -> nat, unlimited: bool)
    ensures Steady(NewGame(source, unlimited))
  {
  }

  /** A land trade, accepted or refused, keeps the kingdom steady, and so does moving on to planting. */
  lemma LandTradeKeepsSteady(k: Kingdom, action: GameAction)
    requires Steady(k) && k.currentPhase == LandTransaction
    requires action.BuyLand? || action.SellLand?
    ensures Steady(Actions.Execute(k, action).state)
    ensures Steady(Actions.Execute(k, action).state.(currentPhase := Planting))
  {
  }

  /** A refused planting keeps the kingdom steady; an accepted one may move on to feeding. */
  lemma PlantingKeepsSteady(k: Kingdom, acres: nat)
    requires Steady(k) && k.currentPhase == Planting
    ensures Actions.Plant(k, acres).result != Success ==> Steady(Actions.Plant(k, acres).state)
    ensures Actions.Plant(k, acres).result == Success ==>
              Steady(Actions.Plant(k, acres).state.(currentPhase := Feeding))
  {
  }

  /**
   * An accepted feeding leaves either starvation or people, so immigration
   * can divide, and closing the year keeps the kingdom steady.
   */
  lemma {:induction false} FeedingKeepsSteady(k: Kingdom, bushels: nat)
    requires Steady(k) && k.currentPhase == Feeding
    requires Actions.Feed(k, bushels).result == Success
    ensures var fed := Actions.Feed(k, bushels).state;
      && (fed.deathsStarvation > 0 || fed.population > 0)
      && Steady(CloseYear(fed).state)
  {
    Actions.FeedingKeepsSomeoneOrStarvation(k, bushels);
  }

  /** The year advance keeps the kingdom steady. */
  lemma AdvanceKeepsSteady(k: Kingdom)
    requires Steady(k) && k.currentPhase == YearEnd
    ensures Steady(State.AdvanceYear(k))
  {
  }

  class App {
    const game: GameState
    var inputBuffer: string
    var message: Notice
    var eventMessages: seq<Line>
    var shouldQuit: bool

    /** Between key presses the line holds only digits and '-', and the kingdom is steady. */
    ghost predicate Valid()
      reads this, game
    {
      && (forall i :: 0 <= i < |inputBuffer| ==> IsInputChar(inputBuffer[i]))
      && Steady(game.View())
    }

    /** `App::new`, with the two arguments `GameState::new` takes. */
    constructor (source: nat -> nat, unlimited: bool)
      ensures Valid() && fresh(game)
      ensures game.View() == NewGame(source, unlimited)
      ensures inputBuffer == [] && message == NoNotice && eventMessages == [] && !shouldQuit
    {
      game := new GameState(source, unlimited);
      inputBuffer := [];
      message := NoNotice;
      eventMessages := [];
      shouldQuit := false;
    }

    /** `handle_input`: keep digits and '-', outside the end-of-year and game-over screens. */
    method HandleInput(c: char)
      requires Valid()
      modifies this
      ensures Valid()
      ensures inputBuffer == if AcceptsInput(game.currentPhase) && IsInputChar(c)
                             then old(inputBuffer) + [c] else old(inputBuffer)
      ensures message == old(message) && eventMessages == old(eventMessages) && shouldQuit == old(shouldQuit)
    {
      if !AcceptsInput(game.currentPhase) {
        return;
      }
      if IsInputChar(c) {
        inputBuffer := inputBuffer + [c];
      }
    }

    /** `handle_backspace`: drop the last character, if any. */
    method HandleBackspace()
      requires Valid()
      modifies this
      ensures Valid()
      ensures old(inputBuffer) == [] ==> inputBuffer == []
      ensures old(inputBuffer) != [] ==> inputBuffer + [old(inputBuffer)[|old(inputBuffer)| - 1]] == old(inputBuffer)
      ensures message == old(message) && eventMessages == old(eventMessages) && shouldQuit == old(shouldQuit)
    {
      if inputBuffer != [] {
        inputBuffer := inputBuffer[..|inputBuffer| - 1];
      }
    }

    /**
     * What Enter does to the land-trading screen: an empty line or zero moves
     * on to planting without trading; a positive amount buys and a negative
     * one sells; success moves on and clears line and message; a refusal
     * keeps phase and line and says which limit was hit; any other
     * unparseable line changes nothing.
     */
    twostate predicate LandEntryDone()
      reads this, game
    {
      && eventMessages == old(eventMessages) && shouldQuit == old(shouldQuit)
      && (old(inputBuffer) == [] ==>
            game.View() == old(game.View()).(currentPhase := Planting)
            && inputBuffer == [] && message == old(message))
      && (old(inputBuffer) != [] && ParseI32(old(inputBuffer)).None? ==>
            game.View() == old(game.View()) && inputBuffer == old(inputBuffer) && message == old(message))
      && (ParseI32(old(inputBuffer)) == Some(0) ==>
            game.View() == old(game.View()).(currentPhase := Planting)
            && inputBuffer == [] && message == old(message))
      && (ParseI32(old(inputBuffer)).Some? && ParseI32(old(inputBuffer)).value != 0 ==>
            var applied := Actions.Execute(old(game.View()), LandAction(ParseI32(old(inputBuffer)).value).value);
            if applied.result == Success then
              game.View() == applied.state.(currentPhase := Planting) && inputBuffer == [] && message == NoNotice
            else
              && game.View() == old(game.View()) && inputBuffer == old(inputBuffer)
              && message == (if applied.result == InsufficientGrain then NotEnoughGrainToBuy else NotEnoughLandToSell))
    }

    /**
     * What Enter does to the planting screen: a parsed number of acres is
     * planted; success moves on to feeding and clears line and message; each
     * refusal keeps phase and line and names its limit; an unparseable line
     * changes nothing.
     */
    twostate predicate PlantingDone()
      reads this, game
    {
      && eventMessages == old(eventMessages) && shouldQuit == old(shouldQuit)
      && (ParseU32(old(inputBuffer)).None? ==>
            game.View() == old(game.View()) && inputBuffer == old(inputBuffer) && message == old(message))
      && (ParseU32(old(inputBuffer)).Some? ==>
            var applied := Actions.Plant(old(game.View()), ParseU32(old(inputBuffer)).value);
            if applied.result == Success then
              game.View() == applied.state.(currentPhase := Feeding) && inputBuffer == [] && message == NoNotice
            else
              && game.View() == old(game.View()) && inputBuffer == old(inputBuffer)
              && message == match applied.result
                            case InsufficientGrain => NotEnoughGrainForSeed
                            case InsufficientLand => NotEnoughLandToPlant
                            case _ => NotEnoughPeople)
    }

    /**
     * What Enter does to the feeding screen: a parsed number of bushels is
     * handed out; on success the year is closed as `CloseYear` says and line
     * and message are cleared; a refusal keeps everything and reports the
     * missing grain; an unparseable line changes nothing.
     */
    twostate predicate FeedingDone()
      reads this, game
    {
      && shouldQuit == old(shouldQuit)
      && (ParseU32(old(inputBuffer)).None? ==>
            && game.View() == old(game.View()) && inputBuffer == old(inputBuffer)
            && message == old(message) && eventMessages == old(eventMessages))
      && (ParseU32(old(inputBuffer)).Some? ==>
            var applied := Actions.Feed(old(game.View()), ParseU32(old(inputBuffer)).value);
            if applied.result == Success then
              && (applied.state.deathsStarvation > 0 || applied.state.population > 0)
              && game.View() == CloseYear(applied.state).state
              && eventMessages == CloseYear(applied.state).lines
              && inputBuffer == [] && message == NoNotice
            else
              && game.View() == old(game.View()) && inputBuffer == old(inputBuffer)
              && message == NotEnoughGrainToFeed && eventMessages == old(eventMessages))
    }

    /**
     * `handle_enter`: the phase decides what Enter does. The trading,
     * planting and feeding screens do what their `...Done` predicates say;
     * the year's end advances the year and empties the panel; the game-over
     * screen only sets the quit flag; the splash and instructions screens
     * change nothing. The phase only moves along the edges of the year and
     * deaths are never undone.
     */
    method HandleEnter()
      requires Valid()
      modifies this, game
      ensures Valid()
      ensures PhaseStep(old(game.currentPhase), game.currentPhase)
      ensures game.totalDeaths >= old(game.totalDeaths)
      ensures old(game.currentPhase) == LandTransaction ==> LandEntryDone()
      ensures old(game.currentPhase) == Planting ==> PlantingDone()
      ensures old(game.currentPhase) == Feeding ==> FeedingDone()
      ensures old(game.currentPhase) == YearEnd ==>
                && game.View() == State.AdvanceYear(old(game.View())) && eventMessages == []
                && inputBuffer == old(inputBuffer) && message == old(message) && shouldQuit == old(shouldQuit)
      ensures old(game.currentPhase) == GameOver ==>
                && shouldQuit && game.View() == old(game.View())
                && inputBuffer == old(inputBuffer) && message == old(message) && eventMessages == old(eventMessages)
      ensures old(game.currentPhase) == Splash || old(game.currentPhase) == Instructions ==>
                && game.View() == old(game.View()) && inputBuffer == old(inputBuffer)
                && message == old(message) && eventMessages == old(eventMessages) && shouldQuit == old(shouldQuit)
    {
      match game.currentPhase
      case LandTransaction => ProcessLandTransaction();
      case Planting => ProcessPlanting();
      case Feeding => ProcessFeeding();
      case YearEnd => AdvanceToNextYear();
      case GameOver => shouldQuit := true;
      case Splash =>
      case Instructions =>
    }

    /**
     * `process_land_transaction`: a positive amount buys, a negative one
     * sells; zero or an empty line moves on without trading; anything else
     * unparseable is ignored. Success moves to planting; a refusal keeps the
     * phase and the typed line and explains itself.
     */
    method ProcessLandTransaction()
      requires Valid() && game.currentPhase == LandTransaction
      modifies this, game
      ensures Valid()
      ensures LandEntryDone()
    {
      var parsed := ParseI32(inputBuffer);
      if parsed.Some? {
        var amount := parsed.value;
        var action := LandAction(amount);
        if action.None? {
          game.currentPhase := Planting;
          inputBuffer := [];
          return;
        }
        var result := game.ExecuteAction(action.value);
        match result
        case Success =>
          game.currentPhase := Planting;
          inputBuffer := [];
          message := NoNotice;
        case InsufficientGrain =>
          message := NotEnoughGrainToBuy;
        case InsufficientLand =>
          message := NotEnoughLandToSell;
        case InsufficientPopulation =>
          assert false;
      } else if inputBuffer == [] {
        game.currentPhase := Planting;
      }
    }

    /**
     * `process_planting`: a parsed number of acres is planted; success moves
     * to feeding, a refusal keeps the phase and the line and says which limit
     * was hit; an unparseable line (empty included) is ignored.
     */
    method ProcessPlanting()
      requires Valid() && game.currentPhase == Planting
      modifies this, game
      ensures Valid()
      ensures PlantingDone()
    {
      var parsed := ParseU32(inputBuffer);
      if parsed.Some? {
        var result := game.ExecuteAction(PlantAcres(parsed.value));
        match result
        case Success =>
          game.currentPhase := Feeding;
          inputBuffer := [];
          message := NoNotice;
        case InsufficientGrain =>
          message := NotEnoughGrainForSeed;
        case InsufficientLand =>
          message := NotEnoughLandToPlant;
        case InsufficientPopulation =>
          message := NotEnoughPeople;
      }
    }

    /**
     * `process_feeding`: a parsed number of bushels is handed out; on success
     * the year's events run and the game either ends or shows the year's end,
     * and the line and message are cleared; a refusal keeps everything and
     * explains itself; an unparseable line (empty included) is ignored.
     */
    method ProcessFeeding()
      requires Valid() && game.currentPhase == Feeding
      modifies this, game
      ensures Valid()
      ensures FeedingDone()
    {
      var parsed := ParseU32(inputBuffer);
      if parsed.Some? {
        ghost var applied := Actions.Feed(game.View(), parsed.value);
        var result := game.ExecuteAction(FeedPopulation(parsed.value));
        assert game.View() == applied.state && result == applied.result;
        match result
        case Success =>
          Actions.FeedingKeepsSomeoneOrStarvation(old(game.View()), parsed.value);
          ProcessYearEnd();
          inputBuffer := [];
          message := NoNotice;
        case InsufficientGrain =>
          message := NotEnoughGrainToFeed;
        case _ =>
          assert false;
      }
    }

    /**
     * `process_year_end`: run the year's events, list their reports, and
     * end the game or show the year's end. The divisor of immigration is
     * positive because somebody starved or somebody is left.
     */
    method ProcessYearEnd()
      requires game.deathsStarvation > 0 || game.population > 0
      requires MinLandPrice <= game.landPrice <= MaxLandPrice && game.acresPlanted <= game.land
      modifies this, game
      ensures Steady(game.View())
      ensures game.View() == CloseYear(old(game.View())).state
      ensures eventMessages == CloseYear(old(game.View())).lines
      ensures inputBuffer == old(inputBuffer) && message == old(message) && shouldQuit == old(shouldQuit)
    {
      ghost var closed := CloseYear(game.View());
      ghost var report := Events.ProcessYearEvents(game.View());
      var outcomes := game.ProcessYearEvents();
      assert game.View() == report.state && outcomes == report.outcomes;
      ListOutcomes(outcomes);
      if IsGameOver(game.View()) {
        game.currentPhase := GameOver;
        CalculateFinalScore();
        assert game.View() == closed.state;
      } else {
        game.currentPhase := YearEnd;
        assert game.View() == closed.state;
      }
    }

    /** The loop of `process_year_end`: the panel is cleared, then gets one line per report, in order. */
    method ListOutcomes(outcomes: seq<Events.Outcome>)
      modifies this
      ensures eventMessages == EventLines(outcomes)
      ensures inputBuffer == old(inputBuffer) && message == old(message) && shouldQuit == old(shouldQuit)
    {
      eventMessages := [];
      for i := 0 to |outcomes|
        invariant |eventMessages| == i
        invariant forall j :: 0 <= j < i ==> eventMessages[j] == Event(outcomes[j])
        invariant inputBuffer == old(inputBuffer) && message == old(message) && shouldQuit == old(shouldQuit)
      {
        eventMessages := eventMessages + [Event(outcomes[i])];
      }
    }

    /** `advance_to_next_year`: the next year begins and the events panel is emptied. */
    method AdvanceToNextYear()
      requires Valid() && game.currentPhase == YearEnd
      modifies this, game
      ensures Valid()
      ensures game.View() == State.AdvanceYear(old(game.View())) && eventMessages == []
      ensures inputBuffer == old(inputBuffer) && message == old(message) && shouldQuit == old(shouldQuit)
    {
      game.AdvanceYear();
      eventMessages := [];
    }

    /** `calculate_final_score`: the events panel is replaced by the final report. */
    method CalculateFinalScore()
      modifies this
      ensures eventMessages == FinalReport(game.View())
      ensures inputBuffer == old(inputBuffer) && message == old(message) && shouldQuit == old(shouldQuit)
    {
      var score := Scoring.EvaluatePerformance(InitialPopulation, game.population, game.totalDeaths, game.land);
      eventMessages := [];
      eventMessages := eventMessages + [FinalPopulation(game.population)];
      eventMessages := eventMessages + [FinalLand(game.land)];
      eventMessages := eventMessages + [TotalDeaths(score.totalDeaths)];
      eventMessages := eventMessages + [DeathRate(score.deathRate)];
      eventMessages := eventMessages + [AcresPerPerson(score.acresPerPerson)];
      eventMessages := eventMessages + [Blank];
      eventMessages := eventMessages + [Verdict(Scoring.RatingMessageOf(score.rating))];
    }
  }
}
