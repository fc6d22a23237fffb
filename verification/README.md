# Anytime touchdown adjusted odds — a Dafny model of the adjustment engine

The service takes a sportsbook's "player scores a touchdown at any time" market,
turns each player's quoted price into an implied probability, multiplies it by a
team-level lift (projected touchdowns divided by the sportsbook's implied
touchdowns for that team), clamps the result, converts it back to fair American
odds and ranks every player by the edge between the adjusted and the quoted
probability. The ranked list is cached for a time-to-live.

This project models that engine, all of it in `main.py`:

- `odds.dfy` (module `Odds`): American/decimal/probability conversions and the
  clamp, over exact reals. Python's `round()` is `Round` (nearest integer, ties to
  even); every property proved about it uses only `|Round(x) - x| <= 1/2`, so none
  depends on how ties break.
- `text.dfy` (module `Text`): `str.strip()` as applied to player descriptions.
- `team_boosts.dfy` (module `TeamBoosts`): the loop of `fetch_team_boosts` over the
  decoded `games` records, as a method proved against the function `BoostsOf`.
- `anytime.dfy` (module `Anytime`): `process_anytime_for_game` and
  `determine_player_team`: early exits, the bookmaker and market search loops,
  the price-format heuristic, the lift choice, clamping, fair odds and edge, and
  the outcome loop; the method `ProcessGame` is proved equal to the function
  `GameRecords`.
- `ranking.dfy` (module `Ranking`): `list.sort(key=..., reverse=True)` as a stable
  insertion sort, with the proof that every stable sort by descending key gives
  the same list.
- `aggregate.dfy` (module `Aggregate`): `refresh_all` without its fetches:
  per-game failure isolation, the sort by rounded edge, the summary counts.
- `cache.dfy` (module `Cache`): `_cache_blob` and `_cache_ts` as the fields of the
  class `SnapshotCache`, with `refresh_all`'s final assignment (`Refresh`) and
  `get_cached_or_refresh`.
- `wrappers.dfy` (module `Wrappers`): `Option` and `Result`.

Inputs that the code fetches over the network are parameters: the projections
feed's games (or the error fetching them), the events list (or its error) and,
per event id, what the odds request gave (`Raised`, `NotOk`, or the decoded
bookmakers). The clock readings are parameters too: `now` for the freshness check
and `finishedAt` for the time stamp taken after a refresh. `TEAM_ABBR` and
`BOOKMAKER_PRIORITY` are the `Config` given to each call, a lookup map and a
membership list. `CACHE_TTL_SECS` is the cache's constant `ttl`.

What `main.py` does, as the model states it:

- The bookmaker chosen is the first one in response order whose key is in the
  priority list (main.py:169-173), whatever its position in that list.
- `determine_player_team` always answers `"TBD"` (main.py:139-144), so a player's
  lift is 1.0 unless a team abbreviation is itself `"TBD"`. There is no roster
  parser and no configurable unknown-team policy.
- Rounding is Python's `round`, ties to even.
- A refresh that fails leaves the previous snapshot in the cache (main.py:283-301
  assign only on success). It is not served while stale, because every later read
  of a stale cache refreshes again.
- The relative edge is `None` only when the book probability is not positive
  (main.py:229). The model proves that never happens: every record has one.

## Model

| member | source | states |
|---|---|---|
| `Odds.Round` | main.py:69 | Python's integer `round` is within 1/2 of its argument |
| `Odds.RoundMonotone` | main.py:69 | rounding preserves order, whichever way ties break |
| `Odds.Round4` | main.py:249 | `round(x, 4)` is within 0.00005 of x |
| `Odds.ClampProb` | main.py:82-83 | the result lies in [lo, hi] when lo <= hi, equals p inside the bounds, lo below, hi above |
| `Odds.AmericanToProb` | main.py:55-63 | odds 0 raise; any other odds give a probability strictly inside (0, 1); exactly 1/2 iff the odds are -100 or +100; above 1/2 iff the odds are below -100 or in (0, 100) |
| `Odds.FairAmerican` | main.py:68-71 | unrounded odds of q: at most -100 when q >= 1/2, above +100 when q < 1/2 |
| `Odds.FairAmericanBounded` | main.py:67-71 | within the clamp [0.001, 0.999] the unrounded odds have magnitude at most 99900 |
| `Odds.ProbToAmerican` | main.py:65-71 | after clamping to [0.001, 0.999]: p >= 1/2 gives at most -100, p = 1/2 exactly -100, p < 1/2 at least +100, |result| <= 99900, and the result is the rounded `FairAmerican` value |
| `Odds.FairAmericanInverse` | main.py:55-71 | `american_to_prob` of the unrounded odds of q gives back q exactly |
| `Odds.ProbToAmericanRoundTrip` | main.py:55-71 | `american_to_prob(prob_to_american(p))` is within 1/800 of p clamped to [0.001, 0.999] |
| `Odds.FavouriteGap` | main.py:60-61 | negative odds at least 100 in magnitude and 1/2 apart imply probabilities at most 1/800 apart |
| `Odds.UnderdogGap` | main.py:62-63 | positive odds at least 100 and 1/2 apart imply probabilities at most 1/800 apart |
| `Odds.EvenMoneyIsOneHalf` | main.py:55-71 | -100 and +100 both imply exactly 1/2, and 1/2 converts to -100 |
| `Odds.DecimalAsAmerican` | main.py:78-80 | unrounded American odds of decimal d > 1: at least +100 for d >= 2, below -100 for 1 < d < 2 |
| `Odds.DecimalToAmerican` | main.py:73-80 | d <= 1 gives -1000, d >= 2 a value >= 100, 1 < d < 2 a value <= -100, and for d > 1 the rounded `DecimalAsAmerican` value |
| `Odds.DecimalAgreesWithAmerican` | main.py:55-80 | decimal odds d and their unrounded American equivalent imply the same probability 1/d |
| `Text.TrimStart` | main.py:195 | removing leading whitespace never lengthens the text |
| `Text.TrimEnd` | main.py:195 | removing trailing whitespace never lengthens the text |
| `Text.TrimStartFacts` | main.py:195 | only a whitespace prefix is removed, and the result does not start with whitespace |
| `Text.TrimEndFacts` | main.py:195 | only a whitespace suffix is removed, and the result does not end with whitespace |
| `Text.Strip` | main.py:195 | `strip()` never lengthens the text; `StripFacts` gives its contents |
| `Text.StripFacts` | main.py:195 | `strip()` gives the part of the text between a whitespace prefix and a whitespace suffix, and it neither starts nor ends with whitespace |
| `Text.StripEmptyIff` | main.py:195-199 | a description strips to "" exactly when it is all whitespace |
| `TeamBoosts.AddGame` | main.py:108-111 | one iteration keeps every existing entry and adds at most two teams |
| `TeamBoosts.BoostsOf` | main.py:100-111 | the map after the games, in order: at most two teams per game |
| `TeamBoosts.Contribution` | main.py:108-111 | a game records a boost for a team only on a side naming it with positive implied touchdowns |
| `TeamBoosts.BuildTeamBoosts` | main.py:98-113 | the loop builds exactly `BoostsOf(games)` |
| `TeamBoosts.AddGameLookup` | main.py:108-111 | one game adds or overwrites exactly the entries it contributes and leaves the others |
| `TeamBoosts.BoostEntryIff` | main.py:100-111 | a team has an entry iff some game names it (truthy) on a side whose implied touchdowns are > 0 |
| `TeamBoosts.BoostIsLastContribution` | main.py:100-111 | a team's entry is projected/vegas of the last game recording it: later games overwrite earlier ones |
| `TeamBoosts.LiftFor` | main.py:186-187 | `.get(team, 1.0)`: the team's boost, or the neutral 1.0 without an entry |
| `TeamBoosts.NeutralLiftWithoutContribution` | main.py:100-111 | a team that no game records gets the lift 1.0 |
| `Anytime.Abbreviation` | main.py:161-162 | `TEAM_ABBR.get(full, full or fallback)`: the table's abbreviation, else the name itself, else the fallback |
| `Anytime.DeterminePlayerTeam` | main.py:139-144 | the placeholder resolves no player: every answer is "TBD", whatever the name and the teams |
| `Anytime.ContextOf` | main.py:157-187 | the game's abbreviations as `Abbreviation` gives them (fallbacks "HOME" and "AWAY"), each side's lift as its boost or 1.0 without one, the game's commence time and the chosen bookmaker |
| `Anytime.PlayerName` | main.py:195 | a missing description gives "", otherwise the stripped description, no longer than it |
| `Anytime.QualifiesIff` | main.py:192-199 | an outcome yields a record exactly when its name is "Yes", it has a price, and its description holds a character other than whitespace |
| `Anytime.BookQuote` | main.py:201-210 | prices strictly between 1 and 10 are decimal (probability 1/price, odds agreeing to within rounding), others are rounded American odds whose probability is `american_to_prob`; it raises exactly for a non-decimal price rounding to 0; the probability is in (0, 1) |
| `Anytime.PriceInferenceExamples` | main.py:201-210 | 1.5 gives 2/3, 150 gives 0.4, -150 gives 0.6, 1.0 and 10.0 are read as American odds, 0.4 raises |
| `Anytime.Adjust` | main.py:212-235 | the record's team is "TBD", its lift is the home/away boost only when an abbreviation is "TBD" and 1.0 otherwise, the adjusted probability is `clamp_prob(book * lift)`: book * lift in [0.01, 0.95], exactly 0.01 below, exactly 0.95 above; fair odds are `prob_to_american` of it, edge = adjusted - book, the relative edge exists with edge / book * 100, and the game label, commence time and bookmaker are the game's |
| `Anytime.ValidRecordClamp` | main.py:216-225 | in every valid record the adjusted probability is book * lift when that lies in [0.01, 0.95], exactly 0.01 below and exactly 0.95 above |
| `Anytime.OutcomeRecord` | main.py:192-229 | an outcome gives a record iff it is a "Yes" with a non-blank description and a price whose quote succeeds, and raises iff it qualifies but its quote raises; the record carries the stripped name, the quote's American odds and probability, and is valid for the game |
| `Anytime.Qualifying` | main.py:189-199 | the outcomes the loop does not skip, in outcome order, each of them qualifying |
| `Anytime.ProcessOutcomes` | main.py:189-253 | the loop yields at most one record per outcome and can raise only the invalid-odds error |
| `Anytime.OutcomeRecordErrIff` | main.py:192-210 | one outcome raises exactly when it qualifies and its non-decimal price rounds to 0, and then with the invalid-odds error |
| `Anytime.ProcessOutcomesErrIff` | main.py:189-229 | the outcome loop raises iff some qualifying outcome has a non-decimal price rounding to 0, and then with the invalid-odds error |
| `Anytime.ProcessOutcomesRecords` | main.py:189-253 | a completed loop gives record k from the k-th qualifying outcome, in outcome order: its stripped name, the quote of its price, valid for the game |
| `Anytime.ProcessOutcomesAbort` | main.py:189-210 | the first outcome that raises aborts the whole loop with its error |
| `Anytime.ChosenBookmaker` | main.py:169-175 | the chosen bookmaker is the first in response order whose key is in the priority list; none is chosen iff no key is in it |
| `Anytime.AnytimeMarket` | main.py:178-184 | the market found is the first whose key is "player_anytime_td"; none iff no market has that key |
| `Anytime.GameRecords` | main.py:146-255 | only a game with an id can raise |
| `Anytime.GameRecordsShape` | main.py:153-187 | records exist only with an id, a fetched body, a preferred bookmaker and the anytime market; whenever those four exist, the records are as many as the qualifying outcomes (none when all are skipped), all valid for the game and carry a priority bookmaker |
| `Anytime.GameRecordsErrIff` | main.py:153-210 | a game raises iff it has an id and its fetch raised or the chosen market has a qualifying outcome whose price rounds to odds 0 |
| `Anytime.ChooseBookmaker` | main.py:169-175 | the loop with break returns the bookmaker `ChosenBookmaker` designates, or none |
| `Anytime.FindAnytimeMarket` | main.py:178-184 | the loop with break returns the market `AnytimeMarket` designates, or none |
| `Anytime.RunOutcomes` | main.py:189-253 | the imperative outcome loop gives exactly `ProcessOutcomes`, so it aborts at the first outcome that raises and otherwise collects one record per qualifying outcome |
| `Anytime.ProcessGame` | main.py:146-255 | the imperative game processing gives exactly `GameRecords` |
| `Ranking.InsertDesc` | main.py:281 | one insertion step adds one element; `InsertDescPermutes` says which |
| `Ranking.SortDesc` | main.py:281 | the sort keeps the length; the lemmas below give order, permutation and stability |
| `Ranking.InsertDescPermutes` | main.py:281 | an insertion step adds exactly one element |
| `Ranking.InsertDescSorted` | main.py:281 | an insertion step keeps the list sorted by descending key |
| `Ranking.InsertDescWithKey` | main.py:281 | an inserted element goes before the elements of equal key |
| `Ranking.WithKeyCons` | main.py:281 | the elements of key k of a list are its first element when it has key k, followed by those of the rest |
| `Ranking.SortDescSortsAndPermutes` | main.py:281 | the sorted list is in descending key order and is a permutation of the input |
| `Ranking.SortDescStable` | main.py:281 | elements of equal key keep their input order |
| `Ranking.WithKeyMembers` | main.py:281 | the elements of one key are exactly the input's elements with that key |
| `Ranking.StableSortIsUnique` | main.py:281 | any list sorted by descending key and stable equals `SortDesc`, so Python's sort gives the same list |
| `Ranking.SortedSameGroupsEqual` | main.py:281 | two descending lists with the same elements per key, in the same order, are equal |
| `Aggregate.ErrorText` | main.py:274-277 | `str(e)`: a failed fetch's own message, or the text "American odds cannot be 0" raised by `american_to_prob` |
| `Aggregate.FailureMessage` | main.py:276-278 | the error record's message is "Failed processing game ", the game's id, ": " and then exactly `str(e)` |
| `Aggregate.GameEntries` | main.py:271-278 | a game that did not raise adds exactly its records, in order, each as a player entry; a raising game adds exactly one error record with its id and message |
| `Aggregate.Players` | main.py:273 | the records are appended as entries in order |
| `Aggregate.CollectAppend` | main.py:271-278 | games are processed independently: the list for a + b is the list for a followed by that for b |
| `Aggregate.CollectSplit` | main.py:271-278 | each game contributes its entries in place (exactly one error record when it raised), between those of the games before and after it |
| `Aggregate.CollectContains` | main.py:271-278 | no game's entries are lost: every entry of every game is in the collected list |
| `Aggregate.SortKey` | main.py:281 | a player record's key is its edge to within 0.00005 (rounded to four places), an error record's is 0 |
| `Aggregate.SortKeyMonotone` | main.py:281 | a larger edge never gets a smaller key |
| `Aggregate.RankingRespectsEdges` | main.py:249-281 | in a list sorted by the key, as every snapshot is (`SnapshotFacts`), a player ranked above another with a strictly larger edge ties with it after rounding to four places |
| `Aggregate.CountPlayers` | main.py:291 | the count of player records is at most the list length, equal iff there is no error record |
| `Aggregate.CountPlayersInsert` | main.py:281-291 | an insertion step counts the inserted entry once if it is a player record |
| `Aggregate.CountPlayersSorted` | main.py:281-291 | sorting does not change the number of player records |
| `Aggregate.BuildSnapshot` | main.py:263-302 | a refresh fails iff the projections or the events fetch failed: with the projections error when that fetch failed, else with the events error |
| `Aggregate.SnapshotFacts` | main.py:270-293 | a refresh's list is sorted by descending rounded edge (error records as 0), is a stable permutation of all games' entries, counts its player records and the teams with a boost |
| `Aggregate.FailedGameReported` | main.py:271-281 | a game that raises leaves its error record, carrying its id, in the snapshot |
| `Aggregate.SuccessfulGameReported` | main.py:271-281 | every record of a game that did not raise is in the snapshot |
| `Aggregate.RefreshAll` | main.py:263-302 | the imperative refresh loop and sort give exactly `BuildSnapshot` |
| `Cache.SnapshotCache.constructor` | main.py:260-261 | the cache starts with no snapshot and time stamp 0 |
| `Cache.SnapshotCache.Fresh` | main.py:305 | a snapshot may be served only when one exists and its time stamp is no older than the TTL |
| `Cache.SnapshotCache.Refresh` | main.py:283-302 | a successful refresh replaces the snapshot and stamps it; a failed one changes nothing |
| `Cache.SnapshotCache.GetCachedOrRefresh` | main.py:304-307 | with a snapshot whose age does not exceed the TTL, the identical snapshot is returned and nothing changes; otherwise a refresh runs |
| `Cache.ServeWithinTtl` | main.py:304-307 | after a refresh finishing at t, a read at t + ttl returns the same snapshot, and a read after t + ttl refreshes |

## Left out

- HTTP: the requests of `fetch_team_boosts`, `fetch_nfl_events` and `fetch_anytime_market_for_event` (main.py:94-96, 115-134) are replaced by their decoded results or errors, given as parameters.
- The Flask app, CORS and the routes (main.py:46-47, 312-366): transport only.
- Configuration from the environment (main.py:15-27): its values are parameters.
- The wall clock and `now_utc_str` (main.py:52-53): clock readings are parameters, and the snapshot's `analysis_date` string is not modelled.
- The snapshot's constant `source` and `methodology` fields (main.py:285-298): fixed strings with no logic.
- The display fields rounded with `round(x, 4)`, `round(x, 1)` and `round(x, 2)` in each record (main.py:237-252): records store the unrounded values. The sort key uses `Round4` of the edge, as the source sorts on the rounded field.
- IEEE-754 floating point: every quantity is an exact real. `round(x, 4)` is modelled as rounding x * 10000 to even, where Python rounds the binary float.
- Prices that are not numbers (a string in the JSON) and JSON nulls in the touchdown counts (a `None` projected count with a positive implied count raises `TypeError` and fails the refresh): the model takes numeric prices and counts, with a missing count read as 0.0.
- Concurrency: the source has no locking, and reads and refreshes are sequential method calls here.
- The literal contents of `TEAM_ABBR` and `BOOKMAKER_PRIORITY`: they are the `Config` argument.
