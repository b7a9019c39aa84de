/** The older team helpers (src/helpers/teams.ts): a default team built
    from explicit size and rating values, and a fixed pair of first teams. */
module LegacyTeams {
  import opened Numbers
  import opened Config
  import opened Types
  import LegacyPlayers
  import Teams

  /** `getDefaultTeam(teamNumber, teamSize, defaultMu, defaultSigma)` as a value. */
  function DefaultTeam(teamNumber: nat, teamSize: int, defaultMu: real, defaultSigma: real): InitialTeam {
    var count := if teamSize <= 0 then 0 else teamSize;
    InitialTeam(
      "Team " + NatToString(teamNumber),
      teamNumber as real,
      seq(count, j requires 0 <= j => LegacyPlayers.DefaultPlayer(j + 1, defaultMu, defaultSigma)))
  }

  /** `getDefaultTeam`: pushes `teamSize` default players, the k-th named
      `Player k`, then wraps them in `Team ${teamNumber}` ranked by its number. */
  method GetDefaultTeam(teamNumber: nat, teamSize: int, defaultMu: real, defaultSigma: real)
    returns (team: InitialTeam)
    ensures team == DefaultTeam(teamNumber, teamSize, defaultMu, defaultSigma)
  {
    var players: seq<InitialPlayer> := [];
    var i := 0;
    while i < teamSize
      invariant 0 <= i && (0 < teamSize ==> i <= teamSize) && (teamSize <= 0 ==> i == 0)
      invariant players == DefaultTeam(teamNumber, teamSize, defaultMu, defaultSigma).players[..i]
    {
      players := players + [LegacyPlayers.DefaultPlayer(i + 1, defaultMu, defaultSigma)];
      i := i + 1;
    }
    team := InitialTeam("Team " + NatToString(teamNumber), teamNumber as real, players);
  }

  /** A default team has `teamSize` players, none when that is not
      positive, the k-th of them `Player k` at the given rating with full
      weight, so that no two players share a name, under the name `Team n`
      with rank n. */
  lemma {:induction false} DefaultTeamFields(teamNumber: nat, teamSize: int, defaultMu: real, defaultSigma: real)
    ensures |DefaultTeam(teamNumber, teamSize, defaultMu, defaultSigma).players| ==
      if teamSize <= 0 then 0 else teamSize
    ensures forall j :: 0 <= j < |DefaultTeam(teamNumber, teamSize, defaultMu, defaultSigma).players| ==>
      DefaultTeam(teamNumber, teamSize, defaultMu, defaultSigma).players[j] ==
        InitialPlayer("Player " + NatToString(j + 1), Rating(defaultMu, defaultSigma), 1.0)
    ensures DefaultTeam(teamNumber, teamSize, defaultMu, defaultSigma).name == "Team " + NatToString(teamNumber)
    ensures DefaultTeam(teamNumber, teamSize, defaultMu, defaultSigma).rank == teamNumber as real
    ensures forall j, k :: 0 <= j < k < |DefaultTeam(teamNumber, teamSize, defaultMu, defaultSigma).players| ==>
      DefaultTeam(teamNumber, teamSize, defaultMu, defaultSigma).players[j].name !=
      DefaultTeam(teamNumber, teamSize, defaultMu, defaultSigma).players[k].name
  {
    var ps := DefaultTeam(teamNumber, teamSize, defaultMu, defaultSigma).players;
    forall j, k | 0 <= j < k < |ps|
      ensures ps[j].name != ps[k].name
    {
      if ps[j].name == ps[k].name {
        LabelInjective("Player ", j + 1, k + 1);
      }
    }
  }

  /** The older default team is the current one for settings holding the
      same size and default rating. */
  lemma {:induction false} DefaultTeamMatchesCurrent(settings: Settings, teamNumber: nat)
    ensures DefaultTeam(teamNumber, settings.defaultTeamSize, settings.defaultMu, settings.defaultSigma)
         == Teams.DefaultTeam(settings, teamNumber)
  {
    var a := DefaultTeam(teamNumber, settings.defaultTeamSize, settings.defaultMu, settings.defaultSigma);
    var b := Teams.DefaultTeam(settings, teamNumber);
    forall j | 0 <= j < |a.players|
      ensures a.players[j] == b.players[j]
    {
      LegacyPlayers.DefaultPlayerMatchesCurrent(settings, j + 1);
    }
  }

  /** `getFirstTwoTeams()`: `Team 1` and `Team 2`, ranked 1 and 2, each with
      `Player 1` and `Player 2` at the fixed rating [25, 25/3]. */
  function FirstTwoTeams(): seq<InitialTeam> {
    var rating := Rating(25.0, 25.0 / 3.0);
    var players := [InitialPlayer("Player 1", rating, 1.0), InitialPlayer("Player 2", rating, 1.0)];
    [InitialTeam("Team 1", 1.0, players), InitialTeam("Team 2", 2.0, players)]
  }

  /** The older first teams are the older default teams 1 and 2 of size 2 at
      [25, 25/3]. Their sigma of 25/3 is not the current default of 25/6, so
      they differ from the current first teams under the default settings. */
  lemma {:induction false} FirstTwoTeamsAreDefaultTeams()
    ensures FirstTwoTeams() == [DefaultTeam(1, 2, 25.0, 25.0 / 3.0), DefaultTeam(2, 2, 25.0, 25.0 / 3.0)]
    ensures FirstTwoTeams() != Teams.FirstTwoTeams(DefaultSettings())
  {
    assert NatToString(1) == "1" && NatToString(2) == "2";
    var rating := Rating(25.0, 25.0 / 3.0);
    assert LegacyPlayers.DefaultPlayer(1, 25.0, 25.0 / 3.0) == InitialPlayer("Player 1", rating, 1.0);
    assert LegacyPlayers.DefaultPlayer(2, 25.0, 25.0 / 3.0) == InitialPlayer("Player 2", rating, 1.0);
    assert "Team " + NatToString(1) == "Team 1" && "Team " + NatToString(2) == "Team 2";
    assert DefaultTeam(1, 2, 25.0, 25.0 / 3.0) == FirstTwoTeams()[0];
    assert DefaultTeam(2, 2, 25.0, 25.0 / 3.0) == FirstTwoTeams()[1];
    assert FirstTwoTeams()[0].players[0].rating.sigma != Teams.FirstTwoTeams(DefaultSettings())[0].players[0].rating.sigma;
  }
}
