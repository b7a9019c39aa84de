/** Default teams and the bounded in-place roster edits (utils/teams.ts). */
module Teams {
  import opened Numbers
  import opened Config
  import opened Types
  import opened Lists
  import opened Players

  /** The players' current fields as values, in roster order. */
  function PlayerValues(ps: seq<Player>): (vs: seq<InitialPlayer>)
    reads ps
    ensures |vs| == |ps|
    ensures forall j :: 0 <= j < |ps| ==> vs[j] == ps[j].Value()
  {
    if ps == [] then [] else PlayerValues(ps[..|ps| - 1]) + [ps[|ps| - 1].Value()]
  }

  lemma {:induction false} PlayerValuesOf(ps: seq<Player>, vs: seq<InitialPlayer>)
    requires |ps| == |vs|
    requires forall j :: 0 <= j < |ps| ==> ps[j].Value() == vs[j]
    ensures PlayerValues(ps) == vs
  {
  }

  /** Listing the players after `splice` is the same as splicing their list. */
  lemma {:induction false} PlayerValuesSplice(ps: seq<Player>, index: int)
    ensures PlayerValues(Splice(ps, index)) == Splice(PlayerValues(ps), index)
  {
    SpliceRemovesOne(ps, index);
    SpliceRemovesOne(PlayerValues(ps), index);
  }

  /** A team of the roster. The UI edits its rank and its player list in place. */
  class Team {
    var name: string
    var rank: real
    var players: seq<Player>

    /** The team's current fields, and its players', as a value. */
    function Value(): InitialTeam
      reads this, players
    {
      InitialTeam(name, rank, PlayerValues(players))
    }

    constructor (name: string, rank: real, players: seq<Player>)
      ensures this.name == name && this.rank == rank && this.players == players
    {
      this.name := name;
      this.rank := rank;
      this.players := players;
    }
  }

  /** The list of teams the UI edits in place. */
  class TeamList {
    var teams: seq<Team>
  }

  // ---------------------------------------------------------------------
  // Default teams
  // ---------------------------------------------------------------------

  /** The name `Team ${teamIndex}`. */
  function TeamName(teamIndex: nat): string {
    "Team " + NatToString(teamIndex)
  }

  /** How many times `for (let i = 0; i < size; i++)` runs. */
  function LoopCount(size: int): nat {
    if size <= 0 then 0 else size
  }

  /** The players `Player 1` .. `Player n` of a default team. */
  function DefaultPlayers(settings: Settings): seq<InitialPlayer> {
    seq(LoopCount(settings.defaultTeamSize), j requires 0 <= j => DefaultPlayer(settings, j + 1))
  }

  /** `getDefaultTeam(settings, teamIndex)` as a value. */
  function DefaultTeam(settings: Settings, teamIndex: nat): InitialTeam {
    InitialTeam(TeamName(teamIndex), teamIndex as real, DefaultPlayers(settings))
  }

  /** A default team is named after its index, is ranked by it, and holds
      `defaultTeamSize` default players (none when that is not positive),
      the k-th of them named `Player k`, all with distinct names. */
  lemma {:induction false} DefaultTeamFields(settings: Settings, teamIndex: nat)
    ensures DefaultTeam(settings, teamIndex).name == TeamName(teamIndex)
    ensures DefaultTeam(settings, teamIndex).rank == teamIndex as real
    ensures |DefaultTeam(settings, teamIndex).players| ==
      if settings.defaultTeamSize <= 0 then 0 else settings.defaultTeamSize
    ensures forall j :: 0 <= j < |DefaultTeam(settings, teamIndex).players| ==>
      DefaultTeam(settings, teamIndex).players[j] == DefaultPlayer(settings, j + 1)
    ensures forall j, k :: 0 <= j < k < |DefaultTeam(settings, teamIndex).players| ==>
      DefaultTeam(settings, teamIndex).players[j].name != DefaultTeam(settings, teamIndex).players[k].name
  {
    var ps := DefaultTeam(settings, teamIndex).players;
    forall j, k | 0 <= j < k < |ps|
      ensures ps[j].name != ps[k].name
    {
      DefaultPlayerFields(settings, j + 1, k + 1);
    }
  }

  /** Team names never collide for distinct indices. */
  lemma {:induction false} TeamNameInjective(a: nat, b: nat)
    ensures TeamName(a) == TeamName(b) <==> a == b
  {
    if TeamName(a) == TeamName(b) {
      LabelInjective("Team ", a, b);
    }
  }

  /** `getDefaultTeam`: pushes `defaultTeamSize` new default players into a
      new list and wraps it in a new team. */
  method GetDefaultTeam(settings: Settings, teamIndex: nat) returns (team: Team)
    ensures fresh(team)
    ensures forall p :: p in team.players ==> fresh(p)
    ensures team.Value() == DefaultTeam(settings, teamIndex)
  {
    var players := NewDefaultPlayers(settings);
    team := new Team(TeamName(teamIndex), teamIndex as real, players);
  }

  /** The loop of `getDefaultTeam`: one new player per slot of the default
      team size, named `Player 1` onwards. */
  method NewDefaultPlayers(settings: Settings) returns (players: seq<Player>)
    ensures forall p :: p in players ==> fresh(p)
    ensures PlayerValues(players) == DefaultPlayers(settings)
  {
    players := [];
    var i := 0;
    while i < settings.defaultTeamSize
      invariant 0 <= i <= LoopCount(settings.defaultTeamSize)
      invariant |players| == i
      invariant forall p :: p in players ==> fresh(p)
      invariant forall j :: 0 <= j < i ==> players[j].Value() == DefaultPlayer(settings, j + 1)
    {
      var player := new Player(DefaultPlayer(settings, i + 1));
      players := players + [player];
      i := i + 1;
    }
    PlayerValuesOf(players, DefaultPlayers(settings));
  }

  /** `getFirstTwoTeams(settings)`: `Team 1` and `Team 2`, ranked 1 and 2,
      each with `Player 1` and `Player 2` at the default rating. */
  function FirstTwoTeams(settings: Settings): seq<InitialTeam> {
    var rating := Rating(settings.defaultMu, settings.defaultSigma);
    var players := [InitialPlayer("Player 1", rating, 1.0), InitialPlayer("Player 2", rating, 1.0)];
    [InitialTeam("Team 1", 1.0, players), InitialTeam("Team 2", 2.0, players)]
  }

  /** The first two teams are the default teams 1 and 2 whenever the default
      team size is 2, as it is in the default settings. */
  lemma {:induction false} FirstTwoTeamsAreDefaultTeams(settings: Settings)
    requires settings.defaultTeamSize == 2
    ensures FirstTwoTeams(settings) == [DefaultTeam(settings, 1), DefaultTeam(settings, 2)]
  {
    assert NatToString(1) == "1" && NatToString(2) == "2";
    assert PlayerName(1) == "Player 1" && PlayerName(2) == "Player 2";
    assert TeamName(1) == "Team 1" && TeamName(2) == "Team 2";
    assert DefaultPlayers(settings) == [DefaultPlayer(settings, 1), DefaultPlayer(settings, 2)];
  }

  // ---------------------------------------------------------------------
  // Roster edits
  // ---------------------------------------------------------------------

  /** The number of teams after `addTeam`. */
  function AddTeamCount(n: nat): nat {
    if n < MaxTeams then n + 1 else n
  }

  /** The number of teams after `removeTeam(index)`. */
  function RemoveTeamCount(n: nat, index: int): nat {
    if n > MinTeams && SpliceStart(n, index) < n then n - 1 else n
  }

  /** `addTeam`: below the maximum, appends a new default team numbered one
      past the current count; the teams already there are untouched. */
  method AddTeam(settings: Settings, currentTeams: TeamList)
    modifies currentTeams`teams
    ensures |currentTeams.teams| == AddTeamCount(|old(currentTeams.teams)|)
    ensures |old(currentTeams.teams)| < MaxTeams ==>
      currentTeams.teams[..|old(currentTeams.teams)|] == old(currentTeams.teams) &&
      fresh(currentTeams.teams[|old(currentTeams.teams)|]) &&
      (forall p :: p in currentTeams.teams[|old(currentTeams.teams)|].players ==> fresh(p)) &&
      currentTeams.teams[|old(currentTeams.teams)|].Value() == DefaultTeam(settings, |old(currentTeams.teams)| + 1)
    ensures |old(currentTeams.teams)| >= MaxTeams ==> currentTeams.teams == old(currentTeams.teams)
  {
    if |currentTeams.teams| < MaxTeams {
      var newTeam := GetDefaultTeam(settings, |currentTeams.teams| + 1);
      currentTeams.teams := currentTeams.teams + [newTeam];
    }
  }

  /** `removeTeam`: above the minimum, splices out the team at `index`. */
  method RemoveTeam(currentTeams: TeamList, index: int)
    modifies currentTeams`teams
    ensures currentTeams.teams ==
      if |old(currentTeams.teams)| > MinTeams then Splice(old(currentTeams.teams), index)
      else old(currentTeams.teams)
    ensures |currentTeams.teams| == RemoveTeamCount(|old(currentTeams.teams)|, index)
  {
    if |currentTeams.teams| > MinTeams {
      SpliceRemovesOne(currentTeams.teams, index);
      currentTeams.teams := Splice(currentTeams.teams, index);
    }
  }

  /** `addPlayerToTeam`: below the maximum, appends a new default player
      named one past the current count; nothing else about the team changes. */
  method AddPlayerToTeam(settings: Settings, team: Team)
    modifies team`players
    ensures |old(team.players)| < MaxPlayers ==>
      |team.players| == |old(team.players)| + 1 &&
      team.players[..|old(team.players)|] == old(team.players) &&
      fresh(team.players[|old(team.players)|]) &&
      team.Value() == old(team.Value()).(players :=
        old(team.Value()).players + [DefaultPlayer(settings, |old(team.players)| + 1)])
    ensures |old(team.players)| >= MaxPlayers ==> team.players == old(team.players)
  {
    if |team.players| < MaxPlayers {
      var player := new Player(DefaultPlayer(settings, |team.players| + 1));
      team.players := team.players + [player];
    }
  }

  /** `removePlayerFromTeam`: above the minimum, splices out the player at
      `index`, so a team that has a player never loses its last one. */
  method RemovePlayerFromTeam(team: Team, index: int)
    modifies team`players
    ensures team.players ==
      if |old(team.players)| > MinPlayers then Splice(old(team.players), index)
      else old(team.players)
    ensures team.Value() ==
      if |old(team.players)| > MinPlayers then
        old(team.Value()).(players := Splice(old(team.Value()).players, index))
      else old(team.Value())
    ensures MinPlayers <= |old(team.players)| ==> MinPlayers <= |team.players|
  {
    if |team.players| > MinPlayers {
      SpliceRemovesOne(team.players, index);
      PlayerValuesSplice(team.players, index);
      team.players := Splice(team.players, index);
    }
  }

  /** The rank `updateTeamRanks` stores: 1 for a value below 1, 0 or NaN, the
      number of teams for a value above it, and the value itself otherwise. */
  function ClampRank(currentTeamsLength: int, newRank: Num): (rank: real)
    ensures Falsy(newRank) || Less(newRank, 1.0) ==> rank == 1.0
    ensures newRank.Real? && 1.0 <= newRank.value <= currentTeamsLength as real ==> rank == newRank.value
    ensures newRank.Real? && 1.0 <= newRank.value && currentTeamsLength as real < newRank.value ==>
      rank == currentTeamsLength as real
    ensures 1 <= currentTeamsLength ==> 1.0 <= rank <= currentTeamsLength as real
  {
    if Less(newRank, 1.0) || Falsy(newRank) then 1.0
    else if Greater(newRank, currentTeamsLength as real) then currentTeamsLength as real
    else newRank.value
  }

  /** `updateTeamRanks`: writes only the team's rank. */
  method UpdateTeamRanks(team: Team, currentTeamsLength: int, newRank: Num)
    modifies team`rank
    ensures team.rank == ClampRank(currentTeamsLength, newRank)
  {
    var rank := newRank;
    if Less(rank, 1.0) || Falsy(rank) {
      rank := Real(1.0);
    } else if Greater(rank, currentTeamsLength as real) {
      rank := Real(currentTeamsLength as real);
    }
    team.rank := rank.value;
  }

  /** Feeding a stored rank back in changes nothing. */
  lemma {:induction false} ClampRankIdempotent(currentTeamsLength: int, newRank: Num)
    requires 1 <= currentTeamsLength
    ensures ClampRank(currentTeamsLength, Real(ClampRank(currentTeamsLength, newRank)))
         == ClampRank(currentTeamsLength, newRank)
  {
  }

  // ---------------------------------------------------------------------
  // The team count under any sequence of edits
  // ---------------------------------------------------------------------

  /** An edit the UI can make to the list of teams. */
  datatype TeamEdit = Add | Remove(index: int)

  /** The number of teams after a sequence of edits, in order. */
  function CountAfter(n: nat, edits: seq<TeamEdit>): nat {
    if edits == [] then n
    else
      var m := CountAfter(n, edits[..|edits| - 1]);
      match edits[|edits| - 1]
      case Add => AddTeamCount(m)
      case Remove(index) => RemoveTeamCount(m, index)
  }

  /** Starting within [2, 256] teams — as the first two teams do — any
      sequence of additions and removals stays within [2, 256]. */
  lemma {:induction false} TeamCountStaysInBounds(n: nat, edits: seq<TeamEdit>)
    requires MinTeams <= n <= MaxTeams
    ensures MinTeams <= CountAfter(n, edits) <= MaxTeams
  {
    if edits != [] {
      TeamCountStaysInBounds(n, edits[..|edits| - 1]);
    }
  }

  lemma {:induction false} FirstTwoTeamsCount(settings: Settings)
    ensures |FirstTwoTeams(settings)| == MinTeams
  {
  }
}
