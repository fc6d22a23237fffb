/**
 * One refresh of the service (refresh_all in main.py): build the team boosts,
 * process every event with per-game failure isolation, rank the entries by
 * edge with a stable sort, and summarise them in a snapshot.
 */
module Aggregate {
  import opened Wrappers
  import opened Odds
  import opened TeamBoosts
  import opened Anytime
  import opened Ranking

  /** An element of the ranked list: a player record, or the inline record of a game that raised. */
  datatype Entry = Player(record: PlayerRecord) | GameFailure(message: string)

  /** The cached snapshot: ranked entries and the summary counts. */
  datatype Snapshot = Snapshot(players: seq<Entry>, playerCount: nat, teamsWithBoosts: nat)

  /**
   * The upstream data of one refresh: the projections feed's games or the error
   * fetching them, the events list or its error, and each event's market fetch.
   */
  datatype Upstream = Upstream(projections: Result<seq<GameProjection>, string>,
                               events: Result<seq<Event>, string>,
                               markets: string -> MarketFetch)

  /** str(e) of the exception that aborted a game. */
  function ErrorText(e: GameError): (text: string)
    ensures e.FetchFailed? ==> text == e.message
    ensures e.OddsFailed? ==> text == "American odds cannot be 0"
  {
    match e
    case FetchFailed(message) => message
    case OddsFailed(_) => "American odds cannot be 0"
  }

  /** The message of the error record for game `id`. */
  function FailureMessage(id: string, e: GameError): (m: string)
    ensures "Failed processing game " + id + ": " <= m
    ensures m[|"Failed processing game " + id + ": "|..] == ErrorText(e)
  {
    "Failed processing game " + id + ": " + ErrorText(e)
  }

  /** Records wrapped as entries, in order. */
  function Players(records: seq<PlayerRecord>): (es: seq<Entry>)
    ensures |es| == |records|
    ensures forall i :: 0 <= i < |records| ==> es[i] == Player(records[i])
  {
    if records == [] then [] else [Player(records[0])] + Players(records[1..])
  }

  /** What one game adds to the list: its records, or exactly one error record when it raised. */
  function GameEntries(game: Event, boosts: map<string, real>, fetch: string -> MarketFetch, cfg: Config): (es: seq<Entry>)
    ensures GameRecords(game, boosts, fetch, cfg).Ok? <==> forall i :: 0 <= i < |es| ==> es[i].Player?
    ensures GameRecords(game, boosts, fetch, cfg).Ok? ==> |es| == |GameRecords(game, boosts, fetch, cfg).value|
    ensures GameRecords(game, boosts, fetch, cfg).Ok? ==>
              forall i :: 0 <= i < |es| ==> es[i] == Player(GameRecords(game, boosts, fetch, cfg).value[i])
    ensures GameRecords(game, boosts, fetch, cfg).Err? ==>
              es == [GameFailure(FailureMessage(game.id.value, GameRecords(game, boosts, fetch, cfg).error))]
  {
    match GameRecords(game, boosts, fetch, cfg)
    case Ok(records) => Players(records)
    case Err(e) =>
      var es := [GameFailure(FailureMessage(game.id.value, e))];
      assert !es[0].Player?;
      es
  }

  /** The list the refresh loop builds: the entries of each event, in event order. */
  function Collect(events: seq<Event>, entriesOf: Event -> seq<Entry>): seq<Entry> {
    if events == [] then []
    else
      var n := |events| - 1;
      Collect(events[..n], entriesOf) + entriesOf(events[n])
  }

  /** The per-game entries of one refresh. */
  function EntriesOf(boosts: map<string, real>, fetch: string -> MarketFetch, cfg: Config): Event -> seq<Entry> {
    game => GameEntries(game, boosts, fetch, cfg)
  }

  /** Games are processed independently: the list for a + b is the list for a followed by the list for b. */
  lemma {:induction false} CollectAppend(a: seq<Event>, b: seq<Event>, entriesOf: Event -> seq<Entry>)
    ensures Collect(a + b, entriesOf) == Collect(a, entriesOf) + Collect(b, entriesOf)
  {
    if b == [] {
      assert a + b == a;
    } else {
      var n := |b| - 1;
      assert (a + b)[..|a + b| - 1] == a + b[..n];
      assert (a + b)[|a + b| - 1] == b[n];
      CollectAppend(a, b[..n], entriesOf);
    }
  }

  /**
   * Failure isolation: game i contributes its own entries (one error record if
   * it raised) in place, and the games before and after it are processed as if
   * it were not there.
   */
  lemma {:induction false} CollectSplit(events: seq<Event>, i: nat, entriesOf: Event -> seq<Entry>)
    requires i < |events|
    ensures Collect(events, entriesOf)
            == Collect(events[..i], entriesOf) + entriesOf(events[i]) + Collect(events[i + 1..], entriesOf)
  {
    var front := events[..i + 1];
    assert events == front + events[i + 1..];
    CollectAppend(front, events[i + 1..], entriesOf);
    assert front[..i] == events[..i] && front[i] == events[i];
    assert Collect(front, entriesOf) == Collect(events[..i], entriesOf) + entriesOf(events[i]);
  }

  /** No game's entries are lost: every entry of every game is in the collected list. */
  lemma CollectContains(events: seq<Event>, i: nat, entriesOf: Event -> seq<Entry>)
    requires i < |events|
    ensures multiset(entriesOf(events[i])) <= multiset(Collect(events, entriesOf))
  {
    CollectSplit(events, i, entriesOf);
  }

  /** The sort key: p.get("edge", {}).get("probability_points", 0), the edge rounded to 4 places, 0 for error records. */
  function SortKey(e: Entry): (k: real)
    ensures e.Player? ==> e.record.edgePoints - 0.00005 <= k <= e.record.edgePoints + 0.00005
    ensures e.GameFailure? ==> k == 0.0
  {
    match e
    case Player(r) => Round4(r.edgePoints)
    case GameFailure(_) => 0.0
  }

  /** A larger edge never gets a smaller sort key. */
  lemma SortKeyMonotone(a: PlayerRecord, b: PlayerRecord)
    requires a.edgePoints <= b.edgePoints
    ensures SortKey(Player(a)) <= SortKey(Player(b))
  {
    RoundMonotone(a.edgePoints * 10000.0, b.edgePoints * 10000.0);
  }

  /** all_players.sort(key=SortKey, reverse=True). */
  function SortByEdge(s: seq<Entry>): seq<Entry> {
    SortDesc(s, SortKey)
  }

  /** len([x for x in all_players if "player_name" in x]): the number of player records. */
  function CountPlayers(s: seq<Entry>): (n: nat)
    ensures n <= |s|
    ensures n == |s| <==> forall i :: 0 <= i < |s| ==> s[i].Player?
  {
    if s == [] then 0
    else
      assert forall i :: 1 <= i < |s| ==> s[i] == s[1..][i - 1];
      (if s[0].Player? then 1 else 0) + CountPlayers(s[1..])
  }

  /** Sorting does not change the number of player records. */
  lemma {:induction false} CountPlayersSorted(s: seq<Entry>, key: Entry -> real)
    ensures CountPlayers(SortDesc(s, key)) == CountPlayers(s)
  {
    if s != [] {
      CountPlayersSorted(s[1..], key);
      CountPlayersInsert(s[0], SortDesc(s[1..], key), key);
    }
  }

  /** Inserting an entry counts it once if it is a player record. */
  lemma {:induction false} CountPlayersInsert(e: Entry, s: seq<Entry>, key: Entry -> real)
    ensures CountPlayers(InsertDesc(e, s, key)) == CountPlayers(s) + (if e.Player? then 1 else 0)
  {
    if s == [] || key(e) >= key(s[0]) {
      assert ([e] + s)[1..] == s;
    } else {
      CountPlayersInsert(e, s[1..], key);
      assert ([s[0]] + InsertDesc(e, s[1..], key))[1..] == InsertDesc(e, s[1..], key);
    }
  }

  /**
   * refresh_all as a function: a failed projections or events fetch fails the
   * whole refresh; otherwise the sorted entries of all events and the counts.
   */
  function BuildSnapshot(up: Upstream, cfg: Config): (r: Result<Snapshot, string>)
    ensures r.Err? <==> up.projections.Err? || up.events.Err?
    ensures up.projections.Err? ==> r == Err(up.projections.error)
    ensures up.projections.Ok? && up.events.Err? ==> r == Err(up.events.error)
  {
    match up.projections
    case Err(e) => Err(e)
    case Ok(games) =>
      match up.events
      case Err(e) => Err(e)
      case Ok(events) =>
        var boosts := BoostsOf(games);
        var sorted := SortByEdge(Collect(events, EntriesOf(boosts, up.markets, cfg)));
        Ok(Snapshot(sorted, CountPlayers(sorted), |boosts|))
  }

  /**
   * A successful refresh ranks all entries of all events by descending edge,
   * stably, counts the player records and the teams with a boost.
   */
  lemma SnapshotFacts(up: Upstream, cfg: Config, k: real)
    requires up.projections.Ok? && up.events.Ok?
    ensures var all := Collect(up.events.value, EntriesOf(BoostsOf(up.projections.value), up.markets, cfg));
      && BuildSnapshot(up, cfg).Ok?
      && var snap := BuildSnapshot(up, cfg).value;
         && SortedDesc(snap.players, SortKey)
         && multiset(snap.players) == multiset(all)
         && WithKey(snap.players, SortKey, k) == WithKey(all, SortKey, k)
         && snap.playerCount == CountPlayers(all)
         && snap.teamsWithBoosts == |BoostsOf(up.projections.value)|
  {
    var all := Collect(up.events.value, EntriesOf(BoostsOf(up.projections.value), up.markets, cfg));
    SortDescSortsAndPermutes(all, SortKey);
    SortDescStable(all, SortKey, k);
    CountPlayersSorted(all, SortKey);
  }

  /**
   * The ranking respects edges: in a list sorted by SortKey, as a snapshot's is
   * (SnapshotFacts), a player listed before another with a strictly larger edge
   * ties with it once both edges are rounded to four places.
   */
  lemma RankingRespectsEdges(players: seq<Entry>, i: nat, j: nat)
    requires SortedDesc(players, SortKey) && i < j < |players|
    requires players[i].Player? && players[j].Player?
    requires players[i].record.edgePoints < players[j].record.edgePoints
    ensures SortKey(players[i]) == SortKey(players[j])
  {
    SortKeyMonotone(players[i].record, players[j].record);
  }

  /** A game that raises leaves exactly its error record, carrying its id, in the snapshot. */
  lemma FailedGameReported(up: Upstream, cfg: Config, i: nat)
    requires up.projections.Ok? && up.events.Ok? && i < |up.events.value|
    requires GameRecords(up.events.value[i], BoostsOf(up.projections.value), up.markets, cfg).Err?
    ensures var game := up.events.value[i];
      var e := GameRecords(game, BoostsOf(up.projections.value), up.markets, cfg).error;
      Named(game.id) && GameFailure(FailureMessage(game.id.value, e)) in BuildSnapshot(up, cfg).value.players
  {
    var boosts := BoostsOf(up.projections.value);
    var events := up.events.value;
    var entriesOf := EntriesOf(boosts, up.markets, cfg);
    CollectSplit(events, i, entriesOf);
    var all := Collect(events, entriesOf);
    var e := GameRecords(events[i], boosts, up.markets, cfg).error;
    var failure := GameFailure(FailureMessage(events[i].id.value, e));
    assert entriesOf(events[i]) == [failure];
    assert all[|Collect(events[..i], entriesOf)|] == failure;
    SortDescSortsAndPermutes(all, SortKey);
    assert failure in multiset(all);
  }

  /** Every record of a game that did not raise is kept in the snapshot. */
  lemma SuccessfulGameReported(up: Upstream, cfg: Config, i: nat, k: nat)
    requires up.projections.Ok? && up.events.Ok? && i < |up.events.value|
    requires var result := GameRecords(up.events.value[i], BoostsOf(up.projections.value), up.markets, cfg);
      result.Ok? && k < |result.value|
    ensures var result := GameRecords(up.events.value[i], BoostsOf(up.projections.value), up.markets, cfg);
      Player(result.value[k]) in BuildSnapshot(up, cfg).value.players
  {
    var boosts := BoostsOf(up.projections.value);
    var events := up.events.value;
    var entriesOf := EntriesOf(boosts, up.markets, cfg);
    var es := entriesOf(events[i]);
    assert es == GameEntries(events[i], boosts, up.markets, cfg);
    CollectContains(events, i, entriesOf);
    SnapshotFacts(up, cfg, 0.0);
    assert es[k] in multiset(es);
  }

  /** refresh_all's loop and sort: each game processed, a raising game turned into one error record. */
  method RefreshAll(up: Upstream, cfg: Config) returns (r: Result<Snapshot, string>)
    ensures r == BuildSnapshot(up, cfg)
  {
    if up.projections.Err? {
      return Err(up.projections.error);
    }
    var boosts := BuildTeamBoosts(up.projections.value);
    if up.events.Err? {
      return Err(up.events.error);
    }
    var events := up.events.value;
    var all: seq<Entry> := [];
    for i := 0 to |events|
      invariant all == Collect(events[..i], EntriesOf(boosts, up.markets, cfg))
    {
      assert events[..i + 1][..i] == events[..i];
      var result := ProcessGame(events[i], boosts, up.markets, cfg);
      match result {
        case Ok(records) =>
          all := all + Players(records);
        case Err(e) =>
          all := all + [GameFailure(FailureMessage(events[i].id.value, e))];
      }
    }
    assert events[..|events|] == events;
    var sorted := SortByEdge(all);
    r := Ok(Snapshot(sorted, CountPlayers(sorted), |boosts|));
  }
}
