/**
 * The team-boost map built by the loop of fetch_team_boosts (main.py): for each
 * side of each projected game, projected touchdowns divided by the sportsbook's
 * implied touchdowns, keyed by team.
 */
module TeamBoosts {
  import opened Wrappers

  /**
   * One record of the projections feed's `games` array. A missing team is None;
   * a missing touchdown count reads as 0.0, the default the loop uses.
   */
  datatype GameProjection = GameProjection(
    awayTeam: Option<string>,
    homeTeam: Option<string>,
    awayVegasTds: real,
    awayProjectedTds: real,
    homeVegasTds: real,
    homeProjectedTds: real)

  /** Python truthiness of an optional string: present and non-empty. */
  predicate Named(team: Option<string>) {
    team.Some? && team.value != ""
  }

  /** The map after one iteration of the loop over g: away side first, then home side. */
  function AddGame(boosts: map<string, real>, g: GameProjection): (r: map<string, real>)
    ensures boosts.Keys <= r.Keys
    ensures |r| <= |boosts| + 2
  {
    var m := if Named(g.awayTeam) && g.awayVegasTds > 0.0
             then boosts[g.awayTeam.value := g.awayProjectedTds / g.awayVegasTds]
             else boosts;
    assert m.Keys <= boosts.Keys + (if Named(g.awayTeam) then {g.awayTeam.value} else {});
    var r := if Named(g.homeTeam) && g.homeVegasTds > 0.0
             then m[g.homeTeam.value := g.homeProjectedTds / g.homeVegasTds]
             else m;
    assert r.Keys <= m.Keys + (if Named(g.homeTeam) then {g.homeTeam.value} else {});
    r
  }

  /** The map the loop holds after the games of `games`, in order: at most two teams per game. */
  function BoostsOf(games: seq<GameProjection>): (boosts: map<string, real>)
    ensures |boosts| <= 2 * |games|
  {
    if games == [] then map[]
    else AddGame(BoostsOf(games[..|games| - 1]), games[|games| - 1])
  }

  /**
   * The boost game g records for `team`, if any: a side counts when its team is
   * named and its implied touchdowns are positive; the home side is written
   * second, so it wins when both sides name the same team.
   */
  function Contribution(g: GameProjection, team: string): (c: Option<real>)
    ensures c.Some? ==> (Named(g.homeTeam) && g.homeTeam.value == team && g.homeVegasTds > 0.0)
                        || (Named(g.awayTeam) && g.awayTeam.value == team && g.awayVegasTds > 0.0)
  {
    if Named(g.homeTeam) && g.homeTeam.value == team && g.homeVegasTds > 0.0 then
      Some(g.homeProjectedTds / g.homeVegasTds)
    else if Named(g.awayTeam) && g.awayTeam.value == team && g.awayVegasTds > 0.0 then
      Some(g.awayProjectedTds / g.awayVegasTds)
    else None
  }

  /** The fetch_team_boosts loop: fills a dictionary game by game. */
  method BuildTeamBoosts(games: seq<GameProjection>) returns (boosts: map<string, real>)
    ensures boosts == BoostsOf(games)
  {
    boosts := map[];
    for i := 0 to |games|
      invariant boosts == BoostsOf(games[..i])
    {
      var g := games[i];
      if Named(g.awayTeam) && g.awayVegasTds > 0.0 {
        boosts := boosts[g.awayTeam.value := g.awayProjectedTds / g.awayVegasTds];
      }
      if Named(g.homeTeam) && g.homeVegasTds > 0.0 {
        boosts := boosts[g.homeTeam.value := g.homeProjectedTds / g.homeVegasTds];
      }
      assert games[..i + 1][..i] == games[..i];
    }
    assert games[..|games|] == games;
  }

  /** One iteration adds or overwrites exactly the entry its contribution names. */
  lemma AddGameLookup(boosts: map<string, real>, g: GameProjection, team: string)
    ensures team in AddGame(boosts, g) <==> team in boosts || Contribution(g, team).Some?
    ensures Contribution(g, team).Some? ==> AddGame(boosts, g)[team] == Contribution(g, team).value
    ensures Contribution(g, team).None? && team in boosts ==> AddGame(boosts, g)[team] == boosts[team]
  {
  }

  /** A team has an entry exactly when some game names it on a side with positive implied touchdowns. */
  lemma {:induction false} BoostEntryIff(games: seq<GameProjection>, team: string)
    ensures team in BoostsOf(games) <==> exists i :: 0 <= i < |games| && Contribution(games[i], team).Some?
  {
    if games != [] {
      var n := |games| - 1;
      BoostEntryIff(games[..n], team);
      AddGameLookup(BoostsOf(games[..n]), games[n], team);
      if team in BoostsOf(games) && Contribution(games[n], team).None? {
        var i :| 0 <= i < n && Contribution(games[..n][i], team).Some?;
        assert games[i] == games[..n][i];
      }
      if exists i :: 0 <= i < |games| && Contribution(games[i], team).Some? {
        var i :| 0 <= i < |games| && Contribution(games[i], team).Some?;
        if i < n {
          assert games[..n][i] == games[i];
        }
      }
    }
  }

  /** The entry for a team is the boost of the last game that records one for it: later games overwrite. */
  lemma {:induction false} BoostIsLastContribution(games: seq<GameProjection>, team: string, i: nat)
    requires i < |games| && Contribution(games[i], team).Some?
    requires forall j :: i < j < |games| ==> Contribution(games[j], team).None?
    ensures team in BoostsOf(games) && BoostsOf(games)[team] == Contribution(games[i], team).value
  {
    var n := |games| - 1;
    AddGameLookup(BoostsOf(games[..n]), games[n], team);
    if i < n {
      assert games[..n][i] == games[i];
      forall j | i < j < n ensures Contribution(games[..n][j], team).None? {
        assert games[..n][j] == games[j];
      }
      BoostIsLastContribution(games[..n], team, i);
    }
  }

  /** team_boosts.get(team, 1.0): the boost of a team, neutral 1.0 when it has none. */
  function LiftFor(boosts: map<string, real>, team: string): (lift: real)
    ensures team !in boosts ==> lift == 1.0
    ensures team in boosts ==> lift == boosts[team]
  {
    if team in boosts then boosts[team] else 1.0
  }

  /** A team no game records a boost for gets the neutral lift 1.0. */
  lemma NeutralLiftWithoutContribution(games: seq<GameProjection>, team: string)
    requires forall i :: 0 <= i < |games| ==> Contribution(games[i], team).None?
    ensures LiftFor(BoostsOf(games), team) == 1.0
  {
    BoostEntryIff(games, team);
  }
}
