/**
 * Per-game processing of the "player_anytime_td" market (process_anytime_for_game
 * and determine_player_team in main.py): choose a bookmaker, find the market,
 * turn each "Yes" outcome into a record with the bookmaker's probability, the
 * team-adjusted probability, its fair odds and the edge between the two.
 */
module Anytime {
  import opened Wrappers
  import opened Odds
  import opened Text
  import opened TeamBoosts

  /** One outcome of the market: selection name, player description and untagged price. */
  datatype Outcome = Outcome(name: Option<string>, description: Option<string>, price: Option<real>)

  /** A market of one bookmaker, located by its key. */
  datatype Market = Market(key: Option<string>, outcomes: seq<Outcome>)

  /** A bookmaker's quote for one event: its key and its markets. */
  datatype Bookmaker = Bookmaker(key: Option<string>, markets: seq<Market>)

  /**
   * What fetching one event's odds gives: the request raised, the response was
   * not ok (fetch_anytime_market_for_event returns None), or the decoded body
   * with its bookmakers in response order.
   */
  datatype MarketFetch = Raised(message: string) | NotOk | Body(bookmakers: seq<Bookmaker>)

  /** One event of the fixtures list. */
  datatype Event = Event(id: Option<string>, homeTeam: Option<string>, awayTeam: Option<string>,
                         commenceTime: Option<string>)

  /** BOOKMAKER_PRIORITY (a membership list) and TEAM_ABBR (full team name to abbreviation). */
  datatype Config = Config(bookmakerPriority: seq<string>, teamAbbr: map<string, string>)

  /** Why processing one game raised. */
  datatype GameError = FetchFailed(message: string) | OddsFailed(reason: OddsError)

  /** One adjusted record; probabilities and edges are stored unrounded. */
  datatype PlayerRecord = PlayerRecord(
    playerName: string,
    team: string,
    game: string,
    commenceTime: Option<string>,
    bookmaker: string,
    bookOdds: int,
    bookProb: real,
    lift: real,
    adjProb: real,
    fairOdds: int,
    edgePoints: real,
    edgeRelative: Option<real>)

  /** What is fixed for all outcomes of one game. */
  datatype GameContext = GameContext(homeAbbr: string, awayAbbr: string, liftHome: real, liftAway: real,
                                     commenceTime: Option<string>, bookmaker: string)

  const AnytimeKey: string := "player_anytime_td"
  const Placeholder: string := "TBD"

  /** TEAM_ABBR.get(full, full or fallback). */
  function Abbreviation(table: map<string, string>, full: Option<string>, fallback: string): (abbr: string)
    ensures full.Some? && full.value in table ==> abbr == table[full.value]
    ensures (full.None? || full.value !in table) && !Named(full) ==> abbr == fallback
    ensures Named(full) && full.value !in table ==> abbr == full.value
  {
    if full.Some? && full.value in table then table[full.value]
    else if Named(full) then full.value
    else fallback
  }

  /** determine_player_team: a placeholder that resolves no player. */
  function DeterminePlayerTeam(playerName: string, homeAbbr: string, awayAbbr: string): (team: string)
    ensures team == Placeholder
  {
    Placeholder
  }

  /** The price heuristic: strictly between 1 and 10 is decimal odds. */
  predicate IsDecimalPrice(price: real) {
    1.0 < price < 10.0
  }

  /**
   * The bookmaker's American odds and implied probability for a price: decimal
   * odds give 1/price, anything else is rounded to whole American odds, which
   * raises when it rounds to 0.
   */
  function BookQuote(price: real): (r: Result<(int, real), GameError>)
    ensures r.Err? <==> !IsDecimalPrice(price) && Round(price) == 0
    ensures r.Err? ==> r.error == OddsFailed(InvalidOdds)
    ensures r.Ok? ==> 0.0 < r.value.1 < 1.0
    ensures r.Ok? && IsDecimalPrice(price) ==>
              AmericanToProb(DecimalAsAmerican(price)) == Ok(r.value.1)
              && r.value.0 as real - 0.5 <= DecimalAsAmerican(price) <= r.value.0 as real + 0.5
    ensures r.Ok? && !IsDecimalPrice(price) ==>
              r.value.0 == Round(price) && AmericanToProb(r.value.0 as real) == Ok(r.value.1)
  {
    if IsDecimalPrice(price) then
      DecimalAgreesWithAmerican(price);
      Ok((DecimalToAmerican(price), 1.0 / price))
    else
      var odds := Round(price);
      match AmericanToProb(odds as real)
      case Err(e) => Err(OddsFailed(e))
      case Ok(p) => Ok((odds, p))
  }

  /** The player description, stripped; None reads as "". */
  function PlayerName(o: Outcome): (name: string)
    ensures o.description.None? ==> name == ""
    ensures o.description.Some? ==> |name| <= |o.description.value|
  {
    Strip(if o.description.Some? then o.description.value else "")
  }

  /** An outcome that produces a record: a "Yes" selection with a player name and a price. */
  predicate Qualifies(o: Outcome) {
    o.name == Some("Yes") && PlayerName(o) != "" && o.price.Some?
  }

  /**
   * An outcome qualifies exactly when it is a "Yes" selection with a price and a
   * description holding some character other than whitespace.
   */
  lemma QualifiesIff(o: Outcome)
    ensures Qualifies(o) <==>
      && o.name == Some("Yes") && o.price.Some? && o.description.Some?
      && exists i :: 0 <= i < |o.description.value| && !IsSpace(o.description.value[i])
  {
    if o.description.Some? {
      StripEmptyIff(o.description.value);
    }
  }

  /** What the source promises of every record it produces for a game with context ctx. */
  predicate ValidRecord(r: PlayerRecord, ctx: GameContext) {
    && 0.0 < r.bookProb < 1.0
    && AdjustedLo <= r.adjProb <= AdjustedHi
    && r.adjProb == ClampProb(r.bookProb * r.lift, AdjustedLo, AdjustedHi)
    && r.fairOdds == ProbToAmerican(r.adjProb)
    && r.edgePoints == r.adjProb - r.bookProb
    && r.edgeRelative.Some?
    && r.edgeRelative.value * r.bookProb == r.edgePoints * 100.0
    && r.team == Placeholder
    && r.lift == (if ctx.homeAbbr == Placeholder then ctx.liftHome
                  else if ctx.awayAbbr == Placeholder then ctx.liftAway
                  else 1.0)
    && r.game == ctx.awayAbbr + " @ " + ctx.homeAbbr
    && r.commenceTime == ctx.commenceTime
    && r.bookmaker == ctx.bookmaker
    && r.playerName != ""
  }

  /** A valid record's adjusted probability is book * lift clamped: exactly 0.01 below the range, 0.95 above it. */
  lemma ValidRecordClamp(r: PlayerRecord, ctx: GameContext)
    requires ValidRecord(r, ctx)
    ensures r.bookProb * r.lift < AdjustedLo ==> r.adjProb == AdjustedLo
    ensures r.bookProb * r.lift > AdjustedHi ==> r.adjProb == AdjustedHi
    ensures AdjustedLo <= r.bookProb * r.lift <= AdjustedHi ==> r.adjProb == r.bookProb * r.lift
  {
  }

  /**
   * The record for one player: the lift of the player's resolved side (1.0 when
   * unresolved), the clamped adjusted probability, its fair odds and the edge.
   */
  function Adjust(name: string, odds: int, bookProb: real, ctx: GameContext): (r: PlayerRecord)
    requires 0.0 < bookProb < 1.0 && name != ""
    ensures ValidRecord(r, ctx)
    ensures r.playerName == name && r.bookOdds == odds && r.bookProb == bookProb
    ensures bookProb * r.lift < AdjustedLo ==> r.adjProb == AdjustedLo
    ensures bookProb * r.lift > AdjustedHi ==> r.adjProb == AdjustedHi
  {
    var team := DeterminePlayerTeam(name, ctx.homeAbbr, ctx.awayAbbr);
    var lift := if team == ctx.homeAbbr then ctx.liftHome
                else if team == ctx.awayAbbr then ctx.liftAway
                else 1.0;
    var adj := ClampProb(bookProb * lift, AdjustedLo, AdjustedHi);
    var edge := adj - bookProb;
    var rel := if bookProb > 0.0 then Some(edge / bookProb * 100.0) else None;
    PlayerRecord(name, team, ctx.awayAbbr + " @ " + ctx.homeAbbr, ctx.commenceTime, ctx.bookmaker,
                 odds, bookProb, lift, adj, ProbToAmerican(adj), edge, rel)
  }

  /** One pass of the outcome loop: skip (None), a record, or the error that aborts the game. */
  function OutcomeRecord(o: Outcome, ctx: GameContext): (r: Result<Option<PlayerRecord>, GameError>)
    ensures r.Ok? && r.value.Some? <==> Qualifies(o) && BookQuote(o.price.value).Ok?
    ensures r.Err? <==> Qualifies(o) && BookQuote(o.price.value).Err?
    ensures r.Ok? && r.value.Some? ==>
              && r.value.value.playerName == PlayerName(o)
              && r.value.value.bookOdds == BookQuote(o.price.value).value.0
              && r.value.value.bookProb == BookQuote(o.price.value).value.1
              && ValidRecord(r.value.value, ctx)
  {
    if !Qualifies(o) then Ok(None)
    else match BookQuote(o.price.value)
      case Err(e) => Err(e)
      case Ok(quote) => Ok(Some(Adjust(PlayerName(o), quote.0, quote.1, ctx)))
  }

  /** The outcomes that qualify for a record, in outcome order. */
  function Qualifying(outcomes: seq<Outcome>): (q: seq<Outcome>)
    ensures |q| <= |outcomes|
    ensures forall k :: 0 <= k < |q| ==> Qualifies(q[k])
  {
    if outcomes == [] then []
    else
      var n := |outcomes| - 1;
      Qualifying(outcomes[..n]) + (if Qualifies(outcomes[n]) then [outcomes[n]] else [])
  }

  /**
   * The outcome loop: records in outcome order, or the first error, which
   * aborts the whole game.
   */
  function ProcessOutcomes(outcomes: seq<Outcome>, ctx: GameContext): (r: Result<seq<PlayerRecord>, GameError>)
    ensures r.Ok? ==> |r.value| <= |outcomes|
    ensures r.Err? ==> r.error == OddsFailed(InvalidOdds)
  {
    if outcomes == [] then Ok([])
    else
      var n := |outcomes| - 1;
      match ProcessOutcomes(outcomes[..n], ctx)
      case Err(e) => Err(e)
      case Ok(records) =>
        match OutcomeRecord(outcomes[n], ctx)
        case Err(e) => Err(e)
        case Ok(None) => Ok(records)
        case Ok(Some(record)) => Ok(records + [record])
  }

  /** An outcome that produces a record but whose price rounds to American odds 0: it raises. */
  predicate ZeroPriced(o: Outcome) {
    Qualifies(o) && !IsDecimalPrice(o.price.value) && Round(o.price.value) == 0
  }

  /** One outcome raises exactly when it is zero-priced, and then with InvalidOdds. */
  lemma OutcomeRecordErrIff(o: Outcome, ctx: GameContext)
    ensures OutcomeRecord(o, ctx).Err? <==> ZeroPriced(o)
    ensures OutcomeRecord(o, ctx).Err? ==> OutcomeRecord(o, ctx).error == OddsFailed(InvalidOdds)
  {
  }

  /** The outcome loop raises exactly when some outcome has a price rounding to 0, and then with InvalidOdds. */
  lemma {:induction false} ProcessOutcomesErrIff(outcomes: seq<Outcome>, ctx: GameContext)
    ensures ProcessOutcomes(outcomes, ctx).Err? <==> exists i :: 0 <= i < |outcomes| && ZeroPriced(outcomes[i])
    ensures ProcessOutcomes(outcomes, ctx).Err? ==> ProcessOutcomes(outcomes, ctx).error == OddsFailed(InvalidOdds)
  {
    if outcomes != [] {
      var n := |outcomes| - 1;
      var before := outcomes[..n];
      ProcessOutcomesErrIff(before, ctx);
      OutcomeRecordErrIff(outcomes[n], ctx);
      if ProcessOutcomes(before, ctx).Err? {
        var i :| 0 <= i < n && ZeroPriced(before[i]);
        assert before[i] == outcomes[i];
      } else if !ZeroPriced(outcomes[n]) {
        forall i | 0 <= i < |outcomes| ensures !ZeroPriced(outcomes[i]) {
          if i < n {
            assert before[i] == outcomes[i];
          }
        }
      }
    }
  }

  /**
   * When the outcome loop completes, record k is the record of the k-th
   * qualifying outcome: that player's name, the bookmaker's quote of its price,
   * and valid for the game.
   */
  lemma {:induction false} ProcessOutcomesRecords(outcomes: seq<Outcome>, ctx: GameContext)
    requires ProcessOutcomes(outcomes, ctx).Ok?
    ensures var records, q := ProcessOutcomes(outcomes, ctx).value, Qualifying(outcomes);
      && |records| == |q|
      && forall k :: 0 <= k < |records| ==>
           && BookQuote(q[k].price.value).Ok?
           && records[k].playerName == PlayerName(q[k])
           && (records[k].bookOdds, records[k].bookProb) == BookQuote(q[k].price.value).value
           && ValidRecord(records[k], ctx)
  {
    if outcomes != [] {
      var n := |outcomes| - 1;
      var before := outcomes[..n];
      ProcessOutcomesRecords(before, ctx);
      var prev, qPrev := ProcessOutcomes(before, ctx).value, Qualifying(before);
      var records, q := ProcessOutcomes(outcomes, ctx).value, Qualifying(outcomes);
      if Qualifies(outcomes[n]) {
        assert records == prev + [records[|prev|]];
        assert q == qPrev + [outcomes[n]];
      } else {
        assert records == prev && q == qPrev;
      }
      forall k | 0 <= k < |prev| ensures records[k] == prev[k] && q[k] == qPrev[k] {
      }
    }
  }

  /** A bookmaker whose key is in the priority list. */
  predicate Preferred(b: Bookmaker, priority: seq<string>) {
    b.key.Some? && b.key.value in priority
  }

  /** The index of the first bookmaker, in response order, whose key is in the priority list. */
  function ChosenBookmaker(books: seq<Bookmaker>, priority: seq<string>): (r: Option<nat>)
    ensures r.Some? ==> r.value < |books| && Preferred(books[r.value], priority)
                        && forall j :: 0 <= j < r.value ==> !Preferred(books[j], priority)
    ensures r.None? ==> forall j :: 0 <= j < |books| ==> !Preferred(books[j], priority)
  {
    if books == [] then None
    else if Preferred(books[0], priority) then Some(0)
    else match ChosenBookmaker(books[1..], priority)
      case None => None
      case Some(k) => Some(k + 1)
  }

  /** The index of the first market whose key is "player_anytime_td". */
  function AnytimeMarket(markets: seq<Market>): (r: Option<nat>)
    ensures r.Some? ==> r.value < |markets| && markets[r.value].key == Some(AnytimeKey)
                        && forall j :: 0 <= j < r.value ==> markets[j].key != Some(AnytimeKey)
    ensures r.None? ==> forall j :: 0 <= j < |markets| ==> markets[j].key != Some(AnytimeKey)
  {
    if markets == [] then None
    else if markets[0].key == Some(AnytimeKey) then Some(0)
    else match AnytimeMarket(markets[1..])
      case None => None
      case Some(k) => Some(k + 1)
  }

  /** The context of a game once its bookmaker is chosen. */
  function ContextOf(game: Event, boosts: map<string, real>, cfg: Config, bookmaker: string): (ctx: GameContext)
    ensures ctx.homeAbbr == Abbreviation(cfg.teamAbbr, game.homeTeam, "HOME")
    ensures ctx.awayAbbr == Abbreviation(cfg.teamAbbr, game.awayTeam, "AWAY")
    ensures ctx.liftHome == (if ctx.homeAbbr in boosts then boosts[ctx.homeAbbr] else 1.0)
    ensures ctx.liftAway == (if ctx.awayAbbr in boosts then boosts[ctx.awayAbbr] else 1.0)
    ensures ctx.commenceTime == game.commenceTime && ctx.bookmaker == bookmaker
  {
    var home := Abbreviation(cfg.teamAbbr, game.homeTeam, "HOME");
    var away := Abbreviation(cfg.teamAbbr, game.awayTeam, "AWAY");
    GameContext(home, away, LiftFor(boosts, home), LiftFor(boosts, away), game.commenceTime, bookmaker)
  }

  /**
   * process_anytime_for_game as a function: no records without an id, without
   * a market body, without a preferred bookmaker or without the anytime market;
   * otherwise the outcome loop over the first preferred bookmaker's market.
   */
  function GameRecords(game: Event, boosts: map<string, real>, fetch: string -> MarketFetch, cfg: Config)
    : (r: Result<seq<PlayerRecord>, GameError>)
    ensures r.Err? ==> Named(game.id)
  {
    if !Named(game.id) then Ok([])
    else match fetch(game.id.value)
      case Raised(msg) => Err(FetchFailed(msg))
      case NotOk => Ok([])
      case Body(books) =>
        match ChosenBookmaker(books, cfg.bookmakerPriority)
        case None => Ok([])
        case Some(b) =>
          match AnytimeMarket(books[b].markets)
          case None => Ok([])
          case Some(m) => ProcessOutcomes(books[b].markets[m].outcomes, ContextOf(game, boosts, cfg, books[b].key.value))
  }

  /**
   * A game yields records only when it has an id, its fetch gave a body, a
   * preferred bookmaker quotes it and that bookmaker has the anytime market;
   * the records then all come from the first preferred bookmaker in response
   * order, are valid for the game's context and number its qualifying outcomes.
   */
  lemma GameRecordsShape(game: Event, boosts: map<string, real>, fetch: string -> MarketFetch, cfg: Config)
    requires GameRecords(game, boosts, fetch, cfg).Ok?
    ensures GameRecords(game, boosts, fetch, cfg).value != [] ==>
      && Named(game.id)
      && fetch(game.id.value).Body?
      && ChosenBookmaker(fetch(game.id.value).bookmakers, cfg.bookmakerPriority).Some?
      && var books := fetch(game.id.value).bookmakers;
         AnytimeMarket(books[ChosenBookmaker(books, cfg.bookmakerPriority).value].markets).Some?
    ensures Named(game.id) && fetch(game.id.value).Body? ==>
      var books := fetch(game.id.value).bookmakers;
      ChosenBookmaker(books, cfg.bookmakerPriority).Some? ==>
        var b := ChosenBookmaker(books, cfg.bookmakerPriority).value;
        AnytimeMarket(books[b].markets).Some? ==>
          var records := GameRecords(game, boosts, fetch, cfg).value;
          var outs := books[b].markets[AnytimeMarket(books[b].markets).value].outcomes;
          && |records| == |Qualifying(outs)|
          && forall k :: 0 <= k < |records| ==>
               && ValidRecord(records[k], ContextOf(game, boosts, cfg, books[b].key.value))
               && records[k].bookmaker in cfg.bookmakerPriority
  {
    if Named(game.id) && fetch(game.id.value).Body? {
      var books := fetch(game.id.value).bookmakers;
      if ChosenBookmaker(books, cfg.bookmakerPriority).Some? {
        var b := ChosenBookmaker(books, cfg.bookmakerPriority).value;
        if AnytimeMarket(books[b].markets).Some? {
          var outs := books[b].markets[AnytimeMarket(books[b].markets).value].outcomes;
          ProcessOutcomesRecords(outs, ContextOf(game, boosts, cfg, books[b].key.value));
        }
      }
    }
  }

  /**
   * A game raises exactly when it has an id and either its odds fetch raised,
   * or the anytime market of its first preferred bookmaker holds an outcome
   * that would produce a record but whose price rounds to American odds 0.
   */
  lemma GameRecordsErrIff(game: Event, boosts: map<string, real>, fetch: string -> MarketFetch, cfg: Config)
    ensures GameRecords(game, boosts, fetch, cfg).Err? <==>
      && Named(game.id)
      && (|| fetch(game.id.value).Raised?
          || (&& fetch(game.id.value).Body?
              && var books := fetch(game.id.value).bookmakers;
                 && ChosenBookmaker(books, cfg.bookmakerPriority).Some?
                 && var markets := books[ChosenBookmaker(books, cfg.bookmakerPriority).value].markets;
                    && AnytimeMarket(markets).Some?
                    && var outs := markets[AnytimeMarket(markets).value].outcomes;
                       exists i :: 0 <= i < |outs| && ZeroPriced(outs[i])))
  {
    if Named(game.id) && fetch(game.id.value).Body? {
      var books := fetch(game.id.value).bookmakers;
      if ChosenBookmaker(books, cfg.bookmakerPriority).Some? {
        var b := ChosenBookmaker(books, cfg.bookmakerPriority).value;
        if AnytimeMarket(books[b].markets).Some? {
          var outs := books[b].markets[AnytimeMarket(books[b].markets).value].outcomes;
          ProcessOutcomesErrIff(outs, ContextOf(game, boosts, cfg, books[b].key.value));
        }
      }
    }
  }

  /** Price inference at the documented points: 1.5 is decimal, 150 and -150 are American, 1.0 and 10.0 are American. */
  lemma PriceInferenceExamples()
    ensures BookQuote(1.5) == Ok((-200, 2.0 / 3.0))
    ensures BookQuote(150.0) == Ok((150, 0.4))
    ensures BookQuote(-150.0) == Ok((-150, 0.6))
    ensures BookQuote(1.0) == Ok((1, 100.0 / 101.0))
    ensures BookQuote(10.0) == Ok((10, 100.0 / 110.0))
    ensures BookQuote(0.4) == Err(OddsFailed(InvalidOdds))
  {
    RoundInteger(-200);
    RoundInteger(150);
    RoundInteger(-150);
    RoundInteger(1);
    RoundInteger(10);
  }

  /** Finds the first preferred bookmaker: the loop with a break over the response's bookmakers. */
  method ChooseBookmaker(books: seq<Bookmaker>, priority: seq<string>) returns (chosen: Option<Bookmaker>)
    ensures chosen.None? <==> ChosenBookmaker(books, priority).None?
    ensures chosen.Some? ==> chosen.value == books[ChosenBookmaker(books, priority).value]
  {
    chosen := None;
    var i := 0;
    while i < |books|
      invariant 0 <= i <= |books|
      invariant forall j :: 0 <= j < i ==> !Preferred(books[j], priority)
    {
      if books[i].key.Some? && books[i].key.value in priority {
        chosen := Some(books[i]);
        break;
      }
      i := i + 1;
    }
  }

  /** Finds the anytime market: the loop with a break over the chosen bookmaker's markets. */
  method FindAnytimeMarket(markets: seq<Market>) returns (found: Option<Market>)
    ensures found.None? <==> AnytimeMarket(markets).None?
    ensures found.Some? ==> found.value == markets[AnytimeMarket(markets).value]
  {
    found := None;
    var i := 0;
    while i < |markets|
      invariant 0 <= i <= |markets|
      invariant forall j :: 0 <= j < i ==> markets[j].key != Some(AnytimeKey)
    {
      if markets[i].key == Some(AnytimeKey) {
        found := Some(markets[i]);
        break;
      }
      i := i + 1;
    }
  }

  /** process_anytime_for_game: early exits, bookmaker and market search, then the outcome loop. */
  method ProcessGame(game: Event, boosts: map<string, real>, fetch: string -> MarketFetch, cfg: Config)
    returns (r: Result<seq<PlayerRecord>, GameError>)
    ensures r == GameRecords(game, boosts, fetch, cfg)
  {
    if !Named(game.id) {
      return Ok([]);
    }
    var blob := fetch(game.id.value);
    if blob.Raised? {
      return Err(FetchFailed(blob.message));
    }
    if blob.NotOk? {
      return Ok([]);
    }
    var chosen := ChooseBookmaker(blob.bookmakers, cfg.bookmakerPriority);
    if chosen.None? {
      return Ok([]);
    }
    var market := FindAnytimeMarket(chosen.value.markets);
    if market.None? {
      return Ok([]);
    }
    r := RunOutcomes(market.value.outcomes, ContextOf(game, boosts, cfg, chosen.value.key.value));
  }

  /** The outcome loop: appends each outcome's record, and the first outcome that raises aborts the game. */
  method RunOutcomes(outcomes: seq<Outcome>, ctx: GameContext) returns (r: Result<seq<PlayerRecord>, GameError>)
    ensures r == ProcessOutcomes(outcomes, ctx)
  {
    var results: seq<PlayerRecord> := [];
    for i := 0 to |outcomes|
      invariant ProcessOutcomes(outcomes[..i], ctx) == Ok(results)
    {
      assert outcomes[..i + 1][..i] == outcomes[..i];
      var step := OutcomeRecord(outcomes[i], ctx);
      if step.Err? {
        ProcessOutcomesAbort(outcomes, ctx, i);
        return Err(step.error);
      }
      if step.value.Some? {
        results := results + [step.value.value];
      }
    }
    assert outcomes[..|outcomes|] == outcomes;
    r := Ok(results);
  }

  /** Once an outcome raises, the whole game raises with that error. */
  lemma {:induction false} ProcessOutcomesAbort(outcomes: seq<Outcome>, ctx: GameContext, i: nat)
    requires i < |outcomes| && ProcessOutcomes(outcomes[..i], ctx).Ok? && OutcomeRecord(outcomes[i], ctx).Err?
    ensures ProcessOutcomes(outcomes, ctx) == Err(OutcomeRecord(outcomes[i], ctx).error)
  {
    var n := |outcomes| - 1;
    if i == n {
      assert outcomes[..n] == outcomes[..i];
    } else {
      assert outcomes[..n][..i] == outcomes[..i];
      assert outcomes[..n][i] == outcomes[i];
      ProcessOutcomesAbort(outcomes[..n], ctx, i);
    }
  }
}
