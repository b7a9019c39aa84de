/** The rating calculation: expected scores, the rating update with its
    whole-request fallback, and the match quality (utils/trueskill.ts). */
module TrueSkill {
  import opened Numbers
  import opened Config
  import opened Types
  import opened Engine
  import Lists

  // ---------------------------------------------------------------------
  // Projections of the roster handed to the library
  // ---------------------------------------------------------------------

  /** `currentTeams.every((c) => c.players.length > 0)` */
  predicate AllTeamsHavePlayers(teams: seq<InitialTeam>) {
    forall i :: 0 <= i < |teams| ==> |teams[i].players| > 0
  }

  /** One rank per team. */
  function RanksOf(teams: seq<InitialTeam>): seq<real> {
    seq(|teams|, i requires 0 <= i < |teams| => teams[i].rank)
  }

  function PlayerWeights(players: seq<InitialPlayer>): seq<real> {
    seq(|players|, j requires 0 <= j < |players| => players[j].weight)
  }

  function PlayerRatings(players: seq<InitialPlayer>): seq<Rating> {
    seq(|players|, j requires 0 <= j < |players| => players[j].rating)
  }

  /** One weight list per team. */
  function TeamWeights(teams: seq<InitialTeam>): seq<seq<real>> {
    seq(|teams|, i requires 0 <= i < |teams| => PlayerWeights(teams[i].players))
  }

  /** One rating list per team. */
  function TeamRatings(teams: seq<InitialTeam>): seq<seq<Rating>> {
    seq(|teams|, i requires 0 <= i < |teams| => PlayerRatings(teams[i].players))
  }

  /** The library receives one rank per team and, per team, a weight list and
      a rating list as long as that team's player list, in roster order. */
  lemma {:induction false} RateInputsFollowRoster(teams: seq<InitialTeam>)
    ensures |RanksOf(teams)| == |teams|
    ensures SameShape(TeamWeights(teams), TeamRatings(teams))
    ensures forall i :: 0 <= i < |teams| ==> |TeamRatings(teams)[i]| == |teams[i].players|
    ensures forall i, j :: 0 <= i < |teams| && 0 <= j < |teams[i].players| ==>
      TeamRatings(teams)[i][j] == teams[i].players[j].rating &&
      TeamWeights(teams)[i][j] == teams[i].players[j].weight
  {
  }

  // ---------------------------------------------------------------------
  // Rating update
  // ---------------------------------------------------------------------

  /** The library's new ratings for the roster, one per player, team by team. */
  function NewRatings(caps: Capabilities, config: TrueSkillConfig, teams: seq<InitialTeam>): seq<seq<Rating>> {
    caps.rate(config, TeamRatings(teams), RanksOf(teams), TeamWeights(teams))
  }

  /** The fallback copy of a player: same name, rating and weight, no change. */
  function Unrated(p: InitialPlayer): ResultingPlayer {
    ResultingPlayer(p.name, p.rating, p.weight, RatingChange(0.0, 0.0))
  }

  /** The players of team `i` on the rated path, pushed one by one with the
      new rating and its difference from the old one. */
  method MergeTeamRatings(team: InitialTeam, newRatings: seq<Rating>)
    returns (players: seq<ResultingPlayer>)
    requires |newRatings| == |team.players|
    ensures |players| == |team.players|
    ensures forall j :: 0 <= j < |players| ==>
      players[j].name == team.players[j].name &&
      players[j].weight == team.players[j].weight &&
      players[j].rating == newRatings[j] &&
      players[j].ratingChanges == RatingChange(
        newRatings[j].mu - team.players[j].rating.mu,
        newRatings[j].sigma - team.players[j].rating.sigma)
  {
    players := [];
    var j := 0;
    while j < |team.players|
      invariant j <= |team.players|
      invariant |players| == j
      invariant forall k :: 0 <= k < j ==>
        players[k].name == team.players[k].name &&
        players[k].weight == team.players[k].weight &&
        players[k].rating == newRatings[k] &&
        players[k].ratingChanges == RatingChange(
          newRatings[k].mu - team.players[k].rating.mu,
          newRatings[k].sigma - team.players[k].rating.sigma)
    {
      var player := team.players[j];
      var rating := newRatings[j];
      players := players + [ResultingPlayer(
        player.name,
        rating,
        player.weight,
        RatingChange(rating.mu - player.rating.mu, rating.sigma - player.rating.sigma))];
      j := j + 1;
    }
  }

  /** Team, rank and expected score copied, one resulting team per input
      team with as many players, in order. */
  ghost predicate CopiesTeams(teams: seq<InitialTeam>, expectedScores: seq<Num>, result: seq<ResultingTeam>)
    requires |expectedScores| == |teams|
  {
    |result| == |teams| &&
    forall i :: 0 <= i < |teams| ==>
      result[i].name == teams[i].name &&
      result[i].rank == teams[i].rank &&
      result[i].expectedScore == expectedScores[i] &&
      |result[i].players| == |teams[i].players|
  }

  /** The fallback for the whole request: every player copied unrated. */
  method KeepRatings(teams: seq<InitialTeam>, expectedScores: seq<Num>)
    returns (result: seq<ResultingTeam>)
    requires |expectedScores| == |teams|
    ensures CopiesTeams(teams, expectedScores, result)
    ensures forall i, j :: 0 <= i < |teams| && 0 <= j < |teams[i].players| ==>
      result[i].players[j] == Unrated(teams[i].players[j])
  {
    result := [];
    var i := 0;
    while i < |teams|
      invariant i <= |teams|
      invariant |result| == i
      invariant forall k :: 0 <= k < i ==>
        result[k].name == teams[k].name &&
        result[k].rank == teams[k].rank &&
        result[k].expectedScore == expectedScores[k] &&
        |result[k].players| == |teams[k].players|
      invariant forall k, j :: 0 <= k < i && 0 <= j < |teams[k].players| ==>
        result[k].players[j] == Unrated(teams[k].players[j])
    {
      var team := teams[i];
      var players := seq(|team.players|, j requires 0 <= j < |team.players| => Unrated(team.players[j]));
      result := result + [ResultingTeam(team.name, team.rank, players, expectedScores[i])];
      i := i + 1;
    }
  }

  /** The rated path: every player takes its new rating and the difference. */
  method MergeRatings(teams: seq<InitialTeam>, newRatings: seq<seq<Rating>>, expectedScores: seq<Num>)
    returns (result: seq<ResultingTeam>)
    requires |expectedScores| == |teams|
    requires SameShape(newRatings, TeamRatings(teams))
    ensures CopiesTeams(teams, expectedScores, result)
    ensures forall i, j :: 0 <= i < |teams| && 0 <= j < |teams[i].players| ==>
      result[i].players[j].name == teams[i].players[j].name &&
      result[i].players[j].weight == teams[i].players[j].weight &&
      result[i].players[j].rating == newRatings[i][j] &&
      result[i].players[j].ratingChanges == RatingChange(
        newRatings[i][j].mu - teams[i].players[j].rating.mu,
        newRatings[i][j].sigma - teams[i].players[j].rating.sigma)
  {
    result := [];
    var i := 0;
    while i < |teams|
      invariant i <= |teams|
      invariant |result| == i
      invariant forall k :: 0 <= k < i ==>
        result[k].name == teams[k].name &&
        result[k].rank == teams[k].rank &&
        result[k].expectedScore == expectedScores[k] &&
        |result[k].players| == |teams[k].players|
      invariant forall k, j :: 0 <= k < i && 0 <= j < |teams[k].players| ==>
        result[k].players[j].name == teams[k].players[j].name &&
        result[k].players[j].weight == teams[k].players[j].weight &&
        result[k].players[j].rating == newRatings[k][j] &&
        result[k].players[j].ratingChanges == RatingChange(
          newRatings[k][j].mu - teams[k].players[j].rating.mu,
          newRatings[k][j].sigma - teams[k].players[j].rating.sigma)
    {
      var team := teams[i];
      assert |newRatings[i]| == |TeamRatings(teams)[i]| == |team.players|;
      var players := MergeTeamRatings(team, newRatings[i]);
      result := result + [ResultingTeam(team.name, team.rank, players, expectedScores[i])];
      i := i + 1;
    }
  }

  /** `calculateRatings`: one resulting team per input team, in order, with
      its name, rank and expected score. If any team has no players the
      whole request falls back: every player keeps its rating and gets a
      zero change, even in teams that have players. Otherwise every player
      takes the library's new rating and the difference from the old one. */
  method CalculateRatings(caps: Capabilities, config: TrueSkillConfig, teams: seq<InitialTeam>)
    returns (result: seq<ResultingTeam>)
    requires RatePreservesShape(caps.rate)
    ensures CopiesTeams(teams, ExpectedScores(caps, config, teams), result)
    ensures forall i, j :: 0 <= i < |teams| && 0 <= j < |teams[i].players| ==>
      result[i].players[j].name == teams[i].players[j].name &&
      result[i].players[j].weight == teams[i].players[j].weight &&
      result[i].players[j].rating.mu == teams[i].players[j].rating.mu + result[i].players[j].ratingChanges.mu &&
      result[i].players[j].rating.sigma == teams[i].players[j].rating.sigma + result[i].players[j].ratingChanges.sigma
    ensures !AllTeamsHavePlayers(teams) ==>
      forall i, j :: 0 <= i < |teams| && 0 <= j < |teams[i].players| ==>
        result[i].players[j].rating == teams[i].players[j].rating &&
        result[i].players[j].ratingChanges == RatingChange(0.0, 0.0)
    ensures AllTeamsHavePlayers(teams) ==>
      forall i, j :: 0 <= i < |teams| && 0 <= j < |teams[i].players| ==>
        result[i].players[j].rating == NewRatings(caps, config, teams)[i][j]
  {
    if |teams| == 0 {
      return [];
    }

    var expectedScores := CalculateExpectedScores(caps, config, teams);

    if !AllTeamsHavePlayers(teams) {
      result := KeepRatings(teams, expectedScores);
      return;
    }

    var ranks := RanksOf(teams);
    var weights := TeamWeights(teams);
    var ratings := TeamRatings(teams);
    var newRatings := caps.rate(config, ratings, ranks, weights);
    result := MergeRatings(teams, newRatings, expectedScores);
  }

  // ---------------------------------------------------------------------
  // Match quality
  // ---------------------------------------------------------------------

  /** `calculateMatchQuality`: 0 for no teams or when a team has no players,
      otherwise the library's quality scaled to a percentage. */
  function CalculateMatchQuality(caps: Capabilities, config: TrueSkillConfig, teams: seq<InitialTeam>): (q: real)
    ensures |teams| == 0 || !AllTeamsHavePlayers(teams) ==> q == 0.0
  {
    if |teams| == 0 then 0.0
    else if !AllTeamsHavePlayers(teams) then 0.0
    else caps.quality(config, TeamRatings(teams), TeamWeights(teams)) * 100.0
  }

  /** The match quality is a percentage, and is the library's probability
      scaled by exactly 100 for a regular request. */
  lemma {:induction false} MatchQualityIsPercentage(caps: Capabilities, config: TrueSkillConfig, teams: seq<InitialTeam>)
    requires QualityIsProbability(caps.quality)
    ensures 0.0 <= CalculateMatchQuality(caps, config, teams) <= 100.0
    ensures 0 < |teams| && AllTeamsHavePlayers(teams) ==>
      CalculateMatchQuality(caps, config, teams) / 100.0 == caps.quality(config, TeamRatings(teams), TeamWeights(teams))
  {
  }

  /** Match quality reads only the players' ratings and weights: team names,
      player names and ranks never change it. */
  lemma {:induction false} MatchQualityReadsRatingsAndWeights(
    caps: Capabilities, config: TrueSkillConfig, a: seq<InitialTeam>, b: seq<InitialTeam>)
    requires TeamRatings(a) == TeamRatings(b) && TeamWeights(a) == TeamWeights(b)
    ensures CalculateMatchQuality(caps, config, a) == CalculateMatchQuality(caps, config, b)
  {
    assert |a| == |TeamRatings(a)| == |b|;
    assert AllTeamsHavePlayers(a) <==> AllTeamsHavePlayers(b) by {
      forall i | 0 <= i < |a|
        ensures |a[i].players| == |b[i].players|
      {
        assert |a[i].players| == |TeamRatings(a)[i]| == |TeamRatings(b)[i]| == |b[i].players|;
      }
    }
  }

  // ---------------------------------------------------------------------
  // Expected scores: the specification
  // ---------------------------------------------------------------------

  /** Total number of players over all teams. */
  function PlayerCount(teams: seq<InitialTeam>): nat {
    if teams == [] then 0 else PlayerCount(teams[..|teams| - 1]) + |teams[|teams| - 1].players|
  }

  /** The sum of the players' means (weights are not applied). */
  function MuSum(players: seq<InitialPlayer>): real {
    if players == [] then 0.0
    else MuSum(players[..|players| - 1]) + players[|players| - 1].rating.mu
  }

  /** The sum of the players' variances. */
  function SigmaSqSum(players: seq<InitialPlayer>): (r: real)
    ensures 0.0 <= r
  {
    if players == [] then 0.0
    else
      var s := players[|players| - 1].rating.sigma;
      SigmaSqSum(players[..|players| - 1]) + s * s
  }

  /** `cdf(delta / denom)`; a zero denominator yields NaN. */
  function WinProbability(cdf: real -> real, delta: real, denom: real): (p: Num)
    ensures p.Real? <==> denom != 0.0
  {
    if denom == 0.0 then NaN else Real(cdf(delta / denom))
  }

  /** `twoUncertainties + playerCount * beta ** 2 + oneUncertainties` */
  function CombinedVariance(twoUncertainties: real, playerCount: nat, beta: real, oneUncertainties: real): real {
    twoUncertainties + playerCount as real * (beta * beta) + oneUncertainties
  }

  /** The probability that team `one` beats team `two`:
      cdf((Σmu(one) - Σmu(two)) / sqrt(Σσ²(two) + playerCount·β² + Σσ²(one))).
      A zero denominator yields NaN. */
  function PairProbability(
    caps: Capabilities, config: TrueSkillConfig, playerCount: nat,
    one: InitialTeam, two: InitialTeam): Num
  {
    var delta := MuSum(one.players) - MuSum(two.players);
    var denom := caps.sqrt(CombinedVariance(
      SigmaSqSum(two.players), playerCount, config.beta, SigmaSqSum(one.players)));
    WinProbability(caps.cdf, delta, denom)
  }

  /** The probability that team i beats team j, within the whole roster. */
  function PairAt(caps: Capabilities, config: TrueSkillConfig, teams: seq<InitialTeam>, i: nat, j: nat): Num
    requires i < |teams| && j < |teams|
  {
    PairProbability(caps, config, PlayerCount(teams), teams[i], teams[j])
  }

  lemma {:induction false} PairAtUnfolds(caps: Capabilities, config: TrueSkillConfig, teams: seq<InitialTeam>, i: nat, j: nat)
    requires i < |teams| && j < |teams|
    ensures PairAt(caps, config, teams, i, j) == WinProbability(
      caps.cdf,
      MuSum(teams[i].players) - MuSum(teams[j].players),
      caps.sqrt(CombinedVariance(
        SigmaSqSum(teams[j].players), PlayerCount(teams), config.beta, SigmaSqSum(teams[i].players))))
  {
  }

  /** Team i's pairwise probabilities against teams 0 .. n-1 other than
      itself, added up in ascending order. */
  function RowSum(caps: Capabilities, config: TrueSkillConfig, teams: seq<InitialTeam>, i: nat, n: nat): Num
    requires i < |teams| && n <= |teams|
  {
    if n == 0 then Real(0.0)
    else if n - 1 == i then RowSum(caps, config, teams, i, n - 1)
    else Add(RowSum(caps, config, teams, i, n - 1),
             PairAt(caps, config, teams, i, n - 1))
  }

  lemma {:induction false} RowSumStep(caps: Capabilities, config: TrueSkillConfig, teams: seq<InitialTeam>, i: nat, j: nat)
    requires i < |teams| && j < |teams|
    ensures RowSum(caps, config, teams, i, j + 1) ==
      if i == j then RowSum(caps, config, teams, i, j)
      else Add(RowSum(caps, config, teams, i, j),
               PairAt(caps, config, teams, i, j))
  {
  }

  /** Each team's raw score: its pairwise probabilities against every other
      team, in roster order. */
  function RawScores(caps: Capabilities, config: TrueSkillConfig, teams: seq<InitialTeam>): (raws: seq<Num>)
    ensures |raws| == |teams|
  {
    seq(|teams|, i requires 0 <= i < |teams| => RowSum(caps, config, teams, i, |teams|))
  }

  /** The sum of every ordered pair's probability. */
  function TotalProbability(caps: Capabilities, config: TrueSkillConfig, teams: seq<InitialTeam>): Num {
    SumNums(RawScores(caps, config, teams))
  }

  /** Each team's raw score divided by the total, in roster order. */
  function ExpectedScores(caps: Capabilities, config: TrueSkillConfig, teams: seq<InitialTeam>): (scores: seq<Num>)
    ensures |scores| == |teams|
  {
    Normalise(RawScores(caps, config, teams))
  }

  // ---------------------------------------------------------------------
  // Expected scores: the computation
  // ---------------------------------------------------------------------

  /** The inner loop for team `i`: its probability against every other
      team in roster order, each also added to the running total. */
  method AccumulateRow(
    caps: Capabilities, config: TrueSkillConfig, teams: seq<InitialTeam>, i: nat, playerCount: nat,
    totalBefore: Num)
    returns (currentTeamProbabilities: seq<Num>, totalProbability: Num)
    requires i < |teams| && playerCount == PlayerCount(teams)
    ensures SumNums(currentTeamProbabilities) == RowSum(caps, config, teams, i, |teams|)
    ensures totalProbability == Add(totalBefore, RowSum(caps, config, teams, i, |teams|))
  {
    currentTeamProbabilities := [];
    totalProbability := totalBefore;
    var teamOneRatings := MuSum(teams[i].players);
    var teamOneUncertainties := SigmaSqSum(teams[i].players);

    var j := 0;
    while j < |teams|
      invariant j <= |teams|
      invariant SumNums(currentTeamProbabilities) == RowSum(caps, config, teams, i, j)
      invariant totalProbability == Add(totalBefore, SumNums(currentTeamProbabilities))
    {
      if i != j {
        var teamTwoRatings := MuSum(teams[j].players);
        var teamTwoUncertainties := SigmaSqSum(teams[j].players);
        var delta := teamOneRatings - teamTwoRatings;
        var denom := caps.sqrt(
          CombinedVariance(teamTwoUncertainties, playerCount, config.beta, teamOneUncertainties));
        var result := WinProbability(caps.cdf, delta, denom);
        PairAtUnfolds(caps, config, teams, i, j);
        RowSumStep(caps, config, teams, i, j);

        SumNumsAppend(currentTeamProbabilities, result);
        AddAssociative(totalBefore, SumNums(currentTeamProbabilities), result);
        currentTeamProbabilities := currentTeamProbabilities + [result];
        totalProbability := Add(totalProbability, result);
      } else {
        RowSumStep(caps, config, teams, i, j);
      }
      j := j + 1;
    }
  }

  /** The final loop: each row's sum divided by the total, in order. */
  method DivideByTotal(winProbabilities: seq<seq<Num>>, totalProbability: Num)
    returns (expectedScores: seq<Num>)
    ensures |expectedScores| == |winProbabilities|
    ensures forall k :: 0 <= k < |winProbabilities| ==>
      expectedScores[k] == Div(SumNums(winProbabilities[k]), totalProbability)
  {
    expectedScores := [];
    var k := 0;
    while k < |winProbabilities|
      invariant k <= |winProbabilities|
      invariant |expectedScores| == k
      invariant forall m :: 0 <= m < k ==>
        expectedScores[m] == Div(SumNums(winProbabilities[m]), totalProbability)
    {
      expectedScores := expectedScores + [Div(SumNums(winProbabilities[k]), totalProbability)];
      k := k + 1;
    }
  }

  /** Accumulates every ordered pair's probability into the team's row and
      into the grand total, then divides each row's sum by the total. */
  method CalculateExpectedScores(caps: Capabilities, config: TrueSkillConfig, teams: seq<InitialTeam>)
    returns (expectedScores: seq<Num>)
    ensures expectedScores == ExpectedScores(caps, config, teams)
  {
    ghost var raws := RawScores(caps, config, teams);
    var playerCount := PlayerCount(teams);
    var winProbabilities: seq<seq<Num>> := [];
    var totalProbability := Real(0.0);

    var i := 0;
    while i < |teams|
      invariant i <= |teams|
      invariant |winProbabilities| == i
      invariant forall k :: 0 <= k < i ==> SumNums(winProbabilities[k]) == raws[k]
      invariant totalProbability == SumNums(raws[..i])
    {
      var currentTeamProbabilities;
      currentTeamProbabilities, totalProbability :=
        AccumulateRow(caps, config, teams, i, playerCount, totalProbability);
      SumNumsPrefixStep(raws, i);
      winProbabilities := winProbabilities + [currentTeamProbabilities];
      i := i + 1;
    }

    assert raws[..|teams|] == raws;
    expectedScores := DivideByTotal(winProbabilities, totalProbability);
    NormalisedRows(raws, winProbabilities, expectedScores);
  }

  // ---------------------------------------------------------------------
  // Expected scores: properties
  // ---------------------------------------------------------------------

  /** Every ordered pair of distinct teams has a defined probability. */
  ghost predicate PairsDefined(caps: Capabilities, config: TrueSkillConfig, teams: seq<InitialTeam>) {
    forall i, j :: 0 <= i < |teams| && 0 <= j < |teams| && i != j ==>
      PairAt(caps, config, teams, i, j).Real?
  }

  /** The standard normal CDF never reaches 0 and never exceeds 1. */
  ghost predicate CdfIsPositiveProbability(cdf: real -> real) {
    forall x :: 0.0 < cdf(x) <= 1.0
  }

  lemma {:induction false} PlayerCountAtLeast(teams: seq<InitialTeam>, i: nat)
    requires i < |teams|
    ensures |teams[i].players| <= PlayerCount(teams)
  {
    if i < |teams| - 1 {
      PlayerCountAtLeast(teams[..|teams| - 1], i);
    }
  }

  lemma {:induction false} ProductPositive(x: real, y: real)
    requires 0.0 < x && 0.0 < y
    ensures 0.0 < x * y
  {
  }

  /** With a non-zero β and at least one player the variance under the
      square root is positive. */
  lemma {:induction false} CombinedVariancePositive(twoUncertainties: real, playerCount: nat, beta: real, oneUncertainties: real)
    requires 0.0 <= twoUncertainties && 0.0 <= oneUncertainties
    requires 0 < playerCount && beta != 0.0
    ensures 0.0 < CombinedVariance(twoUncertainties, playerCount, beta, oneUncertainties)
  {
    var count := playerCount as real;
    var magnitude := if beta < 0.0 then -beta else beta;
    assert beta * beta == magnitude * magnitude;
    ProductPositive(count, magnitude);
    ProductPositive(count * magnitude, magnitude);
    assert count * (beta * beta) == (count * magnitude) * magnitude;
  }

  /** A positive number has a non-zero square root. */
  lemma {:induction false} RootOfPositiveIsNonZero(sqrt: real -> real, x: real)
    requires SqrtIsRoot(sqrt) && 0.0 < x
    ensures sqrt(x) != 0.0
  {
    assert sqrt(x) * sqrt(x) == x;
  }

  /** With a non-zero β and at least one player, no denominator is zero. */
  lemma {:induction false} PairsDefinedWithPlayers(caps: Capabilities, config: TrueSkillConfig, teams: seq<InitialTeam>)
    requires SqrtIsRoot(caps.sqrt)
    requires config.beta != 0.0
    requires 0 < PlayerCount(teams)
    ensures PairsDefined(caps, config, teams)
  {
    var pc := PlayerCount(teams);
    forall i, j | 0 <= i < |teams| && 0 <= j < |teams| && i != j
      ensures PairAt(caps, config, teams, i, j).Real?
    {
      var one, two := teams[i].players, teams[j].players;
      var x := CombinedVariance(SigmaSqSum(two), pc, config.beta, SigmaSqSum(one));
      CombinedVariancePositive(SigmaSqSum(two), pc, config.beta, SigmaSqSum(one));
      RootOfPositiveIsNonZero(caps.sqrt, x);
    }
  }

  /** A defined pairwise probability is a value of the CDF. */
  lemma {:induction false} PairInUnit(caps: Capabilities, config: TrueSkillConfig, teams: seq<InitialTeam>, i: nat, j: nat)
    requires i < |teams| && j < |teams|
    requires PairAt(caps, config, teams, i, j).Real?
    ensures CdfIsProbability(caps.cdf) ==> 0.0 <= PairAt(caps, config, teams, i, j).value <= 1.0
    ensures CdfIsPositiveProbability(caps.cdf) ==> 0.0 < PairAt(caps, config, teams, i, j).value
  {
  }

  /** A row of defined probabilities is defined. */
  lemma {:induction false} RowSumDefined(
    caps: Capabilities, config: TrueSkillConfig, teams: seq<InitialTeam>, i: nat, n: nat)
    requires i < |teams| && n <= |teams|
    requires PairsDefined(caps, config, teams)
    ensures RowSum(caps, config, teams, i, n).Real?
  {
    if n > 0 {
      RowSumDefined(caps, config, teams, i, n - 1);
      RowSumStep(caps, config, teams, i, n - 1);
    }
  }

  /** A row of defined probabilities from the CDF is non-negative. */
  lemma {:induction false} RowSumNonNegative(
    caps: Capabilities, config: TrueSkillConfig, teams: seq<InitialTeam>, i: nat, n: nat)
    requires i < |teams| && n <= |teams|
    requires PairsDefined(caps, config, teams) && CdfIsProbability(caps.cdf)
    ensures RowSum(caps, config, teams, i, n).Real? && 0.0 <= RowSum(caps, config, teams, i, n).value
  {
    if n > 0 {
      RowSumNonNegative(caps, config, teams, i, n - 1);
      RowSumStep(caps, config, teams, i, n - 1);
      if n - 1 != i {
        PairInUnit(caps, config, teams, i, n - 1);
      }
    }
  }

  lemma {:induction false} PositiveCdfIsProbability(cdf: real -> real)
    requires CdfIsPositiveProbability(cdf)
    ensures CdfIsProbability(cdf)
  {
  }

  /** Once it holds a pair, a row of defined probabilities from a positive
      CDF is positive. */
  lemma {:induction false} RowSumPositive(
    caps: Capabilities, config: TrueSkillConfig, teams: seq<InitialTeam>, i: nat, n: nat)
    requires i < |teams| && 2 <= n <= |teams|
    requires PairsDefined(caps, config, teams) && CdfIsPositiveProbability(caps.cdf)
    ensures RowSum(caps, config, teams, i, n).Real? && 0.0 < RowSum(caps, config, teams, i, n).value
  {
    PositiveCdfIsProbability(caps.cdf);
    RowSumStep(caps, config, teams, i, n - 1);
    if n - 1 != i {
      RowSumNonNegative(caps, config, teams, i, n - 1);
      PairInUnit(caps, config, teams, i, n - 1);
    } else if n == 2 {
      RowSumStep(caps, config, teams, i, 0);
      PairInUnit(caps, config, teams, i, 0);
    } else {
      RowSumPositive(caps, config, teams, i, n - 1);
    }
  }

  lemma {:induction false} RawScoresDefined(caps: Capabilities, config: TrueSkillConfig, teams: seq<InitialTeam>)
    requires PairsDefined(caps, config, teams)
    ensures AllReal(RawScores(caps, config, teams))
    ensures CdfIsProbability(caps.cdf) ==> AllNonNegative(RawScores(caps, config, teams))
  {
    forall k | 0 <= k < |teams|
      ensures RawScores(caps, config, teams)[k].Real?
      ensures CdfIsProbability(caps.cdf) ==> 0.0 <= RawScores(caps, config, teams)[k].value
    {
      RowSumDefined(caps, config, teams, k, |teams|);
      if CdfIsProbability(caps.cdf) {
        RowSumNonNegative(caps, config, teams, k, |teams|);
      }
    }
  }

  /** When every pair is defined and the total is not zero, the expected
      scores are all defined and add up to exactly 1. */
  lemma {:induction false} ExpectedScoresSumToOne(caps: Capabilities, config: TrueSkillConfig, teams: seq<InitialTeam>)
    requires PairsDefined(caps, config, teams)
    requires TotalProbability(caps, config, teams) != Real(0.0)
    ensures forall k :: 0 <= k < |teams| ==> ExpectedScores(caps, config, teams)[k].Real?
    ensures SumNums(ExpectedScores(caps, config, teams)) == Real(1.0)
  {
    RawScoresDefined(caps, config, teams);
    NormaliseSumsToOne(RawScores(caps, config, teams));
  }

  /** With probabilities from the CDF, every expected score lies in [0, 1]. */
  lemma {:induction false} ExpectedScoresAreProbabilities(caps: Capabilities, config: TrueSkillConfig, teams: seq<InitialTeam>)
    requires CdfIsProbability(caps.cdf)
    requires PairsDefined(caps, config, teams)
    requires TotalProbability(caps, config, teams) != Real(0.0)
    ensures forall k :: 0 <= k < |teams| ==>
      ExpectedScores(caps, config, teams)[k].Real? &&
      0.0 <= ExpectedScores(caps, config, teams)[k].value <= 1.0
  {
    RawScoresDefined(caps, config, teams);
    NormaliseBounds(RawScores(caps, config, teams));
  }

  /** For a regular request (β ≠ 0, at least two teams, every team with a
      player) the expected scores are probabilities that add up to 1. */
  lemma {:induction false} ExpectedScoresNormalised(caps: Capabilities, config: TrueSkillConfig, teams: seq<InitialTeam>)
    requires SqrtIsRoot(caps.sqrt) && CdfIsPositiveProbability(caps.cdf)
    requires config.beta != 0.0
    requires 2 <= |teams| && 0 < PlayerCount(teams)
    ensures forall k :: 0 <= k < |teams| ==>
      ExpectedScores(caps, config, teams)[k].Real? &&
      0.0 <= ExpectedScores(caps, config, teams)[k].value <= 1.0
    ensures SumNums(ExpectedScores(caps, config, teams)) == Real(1.0)
  {
    var raws := RawScores(caps, config, teams);
    PairsDefinedWithPlayers(caps, config, teams);
    assert CdfIsProbability(caps.cdf);
    RawScoresDefined(caps, config, teams);
    RowSumPositive(caps, config, teams, 0, |teams|);
    SumNumsAtLeastEach(raws);
    assert 0.0 < raws[0].value <= SumNums(raws).value;
    ExpectedScoresSumToOne(caps, config, teams);
    ExpectedScoresAreProbabilities(caps, config, teams);
  }

  /** Two teams with equal mean sums each get exactly one half, whatever
      their sizes and uncertainties. */
  lemma {:induction false} TwoEvenTeamsSplitEvenly(caps: Capabilities, config: TrueSkillConfig, a: InitialTeam, b: InitialTeam)
    requires MuSum(a.players) == MuSum(b.players)
    requires PairsDefined(caps, config, [a, b])
    requires caps.cdf(0.0) != 0.0
    ensures ExpectedScores(caps, config, [a, b]) == [Real(0.5), Real(0.5)]
  {
    var teams := [a, b];
    var pc := PlayerCount(teams);
    var p01 := PairAt(caps, config, teams, 0, 1);
    var p10 := PairAt(caps, config, teams, 1, 0);
    assert teams[0] == a && teams[1] == b;
    assert p01.Real? && p10.Real?;
    assert CombinedVariance(SigmaSqSum(b.players), pc, config.beta, SigmaSqSum(a.players))
        == CombinedVariance(SigmaSqSum(a.players), pc, config.beta, SigmaSqSum(b.players));
    var c := caps.cdf(0.0);
    assert p01 == p10 == Real(c);
    assert RowSum(caps, config, teams, 0, 1) == Real(0.0);
    assert RowSum(caps, config, teams, 0, 2) == Real(c);
    assert RowSum(caps, config, teams, 1, 1) == Real(c);
    assert RowSum(caps, config, teams, 1, 2) == Real(c);
    var raws := RawScores(caps, config, teams);
    assert raws == [Real(c), Real(c)];
    SumNumsPrefixStep(raws, 0);
    SumNumsPrefixStep(raws, 1);
    assert raws[..0] == [] && raws[..2] == raws;
    assert SumNums(raws) == Real(c + c);
    HalfOfDouble(c);
  }

  lemma {:induction false} HalfOfDouble(c: real)
    requires c != 0.0
    ensures c / (c + c) == 0.5
  {
    assert (c + c) * 0.5 == c;
  }

  /** A lone team has no opponents: its score is 0 / 0, i.e. NaN. */
  lemma {:induction false} SingleTeamScoreIsNaN(caps: Capabilities, config: TrueSkillConfig, t: InitialTeam)
    ensures ExpectedScores(caps, config, [t]) == [NaN]
  {
    assert RowSum(caps, config, [t], 0, 0) == Real(0.0);
    assert RowSum(caps, config, [t], 0, 1) == Real(0.0);
    assert RawScores(caps, config, [t]) == [Real(0.0)];
    assert [Real(0.0)][..0] == [];
  }

  // Independence from names, ranks and weights

  lemma {:induction false} SumsFollowRatings(ps: seq<InitialPlayer>, qs: seq<InitialPlayer>)
    requires PlayerRatings(ps) == PlayerRatings(qs)
    ensures MuSum(ps) == MuSum(qs) && SigmaSqSum(ps) == SigmaSqSum(qs)
  {
    assert |ps| == |PlayerRatings(ps)| == |qs|;
    if ps != [] {
      var n := |ps| - 1;
      assert PlayerRatings(ps[..n]) == PlayerRatings(ps)[..n];
      assert PlayerRatings(qs[..n]) == PlayerRatings(qs)[..n];
      assert ps[n].rating == PlayerRatings(ps)[n] == PlayerRatings(qs)[n] == qs[n].rating;
      SumsFollowRatings(ps[..n], qs[..n]);
    }
  }

  /** Two rosters whose teams, position by position, have the same size,
      the same sum of means and the same sum of variances. */
  ghost predicate SameStrengths(a: seq<InitialTeam>, b: seq<InitialTeam>) {
    |a| == |b| &&
    forall i :: 0 <= i < |a| ==>
      |a[i].players| == |b[i].players| &&
      MuSum(a[i].players) == MuSum(b[i].players) &&
      SigmaSqSum(a[i].players) == SigmaSqSum(b[i].players)
  }

  lemma {:induction false} PlayerCountFollowsSizes(a: seq<InitialTeam>, b: seq<InitialTeam>)
    requires |a| == |b|
    requires forall i :: 0 <= i < |a| ==> |a[i].players| == |b[i].players|
    ensures PlayerCount(a) == PlayerCount(b)
  {
    if a != [] {
      var n := |a| - 1;
      PlayerCountFollowsSizes(a[..n], b[..n]);
    }
  }

  lemma {:induction false} RowSumFollowsStrengths(
    caps: Capabilities, config: TrueSkillConfig, a: seq<InitialTeam>, b: seq<InitialTeam>, i: nat, n: nat)
    requires SameStrengths(a, b)
    requires i < |a| && n <= |a|
    ensures RowSum(caps, config, a, i, n) == RowSum(caps, config, b, i, n)
  {
    if n > 0 {
      RowSumFollowsStrengths(caps, config, a, b, i, n - 1);
      RowSumStep(caps, config, a, i, n - 1);
      RowSumStep(caps, config, b, i, n - 1);
      if n - 1 != i {
        PlayerCountFollowsSizes(a, b);
        var one, two := a[i].players, a[n - 1].players;
        assert MuSum(one) == MuSum(b[i].players) && SigmaSqSum(one) == SigmaSqSum(b[i].players);
        assert MuSum(two) == MuSum(b[n - 1].players) && SigmaSqSum(two) == SigmaSqSum(b[n - 1].players);
        assert PairAt(caps, config, a, i, n - 1) == PairAt(caps, config, b, i, n - 1);
      }
    }
  }

  /** Expected scores read each team only through its size, its sum of
      means and its sum of variances. */
  lemma {:induction false} ExpectedScoresFollowStrengths(
    caps: Capabilities, config: TrueSkillConfig, a: seq<InitialTeam>, b: seq<InitialTeam>)
    requires SameStrengths(a, b)
    ensures ExpectedScores(caps, config, a) == ExpectedScores(caps, config, b)
  {
    forall k | 0 <= k < |a|
      ensures RawScores(caps, config, a)[k] == RawScores(caps, config, b)[k]
    {
      RowSumFollowsStrengths(caps, config, a, b, k, |a|);
    }
    assert RawScores(caps, config, a) == RawScores(caps, config, b);
  }

  /** Expected scores read only the ratings: team and player names, ranks
      and weights never change them. */
  lemma {:induction false} ExpectedScoresReadOnlyRatings(
    caps: Capabilities, config: TrueSkillConfig, a: seq<InitialTeam>, b: seq<InitialTeam>)
    requires TeamRatings(a) == TeamRatings(b)
    ensures ExpectedScores(caps, config, a) == ExpectedScores(caps, config, b)
  {
    assert |a| == |TeamRatings(a)| == |b|;
    forall i | 0 <= i < |a|
      ensures |a[i].players| == |b[i].players|
      ensures MuSum(a[i].players) == MuSum(b[i].players)
      ensures SigmaSqSum(a[i].players) == SigmaSqSum(b[i].players)
    {
      assert |a[i].players| == |TeamRatings(a)[i]| == |TeamRatings(b)[i]| == |b[i].players|;
      SumsFollowRatings(a[i].players, b[i].players);
    }
    ExpectedScoresFollowStrengths(caps, config, a, b);
  }

  // Independence from the order of players and of teams

  function MuValues(players: seq<InitialPlayer>): seq<Num> {
    seq(|players|, j requires 0 <= j < |players| => Real(players[j].rating.mu))
  }

  function Variance(player: InitialPlayer): real {
    player.rating.sigma * player.rating.sigma
  }

  function SigmaSqValues(players: seq<InitialPlayer>): seq<Num> {
    seq(|players|, j requires 0 <= j < |players| => Real(Variance(players[j])))
  }

  lemma {:induction false} TeamSumsAsSums(players: seq<InitialPlayer>)
    ensures SumNums(MuValues(players)) == Real(MuSum(players))
    ensures SumNums(SigmaSqValues(players)) == Real(SigmaSqSum(players))
  {
    if players != [] {
      var n := |players| - 1;
      TeamSumsAsSums(players[..n]);
      assert MuValues(players[..n]) == MuValues(players)[..n];
      assert SigmaSqValues(players[..n]) == SigmaSqValues(players)[..n];
    }
  }

  /** A team's sum of means and sum of variances do not depend on the order
      of its players. */
  lemma {:induction false} SumsIgnorePlayerOrder(ps: seq<InitialPlayer>, qs: seq<InitialPlayer>)
    requires multiset(ps) == multiset(qs)
    ensures |ps| == |qs| && MuSum(ps) == MuSum(qs) && SigmaSqSum(ps) == SigmaSqSum(qs)
  {
    assert |ps| == |multiset(ps)| == |multiset(qs)| == |qs|;
    Lists.CorrespondingMultisets(ps, qs, MuValues(ps), MuValues(qs));
    Lists.CorrespondingMultisets(ps, qs, SigmaSqValues(ps), SigmaSqValues(qs));
    SumNumsPermutation(MuValues(ps), MuValues(qs));
    SumNumsPermutation(SigmaSqValues(ps), SigmaSqValues(qs));
    TeamSumsAsSums(ps);
    TeamSumsAsSums(qs);
  }

  /** Reordering the players inside the teams changes no expected score. */
  lemma {:induction false} ExpectedScoresIgnorePlayerOrder(
    caps: Capabilities, config: TrueSkillConfig, a: seq<InitialTeam>, b: seq<InitialTeam>)
    requires |a| == |b|
    requires forall i :: 0 <= i < |a| ==> multiset(a[i].players) == multiset(b[i].players)
    ensures ExpectedScores(caps, config, a) == ExpectedScores(caps, config, b)
  {
    forall i | 0 <= i < |a|
      ensures |a[i].players| == |b[i].players|
      ensures MuSum(a[i].players) == MuSum(b[i].players)
      ensures SigmaSqSum(a[i].players) == SigmaSqSum(b[i].players)
    {
      SumsIgnorePlayerOrder(a[i].players, b[i].players);
    }
    ExpectedScoresFollowStrengths(caps, config, a, b);
  }

  function Sizes(teams: seq<InitialTeam>): seq<Num> {
    seq(|teams|, i requires 0 <= i < |teams| => Real(|teams[i].players| as real))
  }

  lemma {:induction false} PlayerCountAsSum(teams: seq<InitialTeam>)
    ensures SumNums(Sizes(teams)) == Real(PlayerCount(teams) as real)
  {
    if teams != [] {
      var n := |teams| - 1;
      PlayerCountAsSum(teams[..n]);
      assert Sizes(teams[..n]) == Sizes(teams)[..n];
    }
  }

  /** The player count does not depend on the order of the teams. */
  lemma {:induction false} PlayerCountIgnoresTeamOrder(a: seq<InitialTeam>, b: seq<InitialTeam>)
    requires multiset(a) == multiset(b)
    ensures PlayerCount(a) == PlayerCount(b)
  {
    assert |a| == |multiset(a)| == |multiset(b)| == |b|;
    Lists.CorrespondingMultisets(a, b, Sizes(a), Sizes(b));
    SumNumsPermutation(Sizes(a), Sizes(b));
    PlayerCountAsSum(a);
    PlayerCountAsSum(b);
  }

  /** The probabilities of `one` beating each of `others`, in order. */
  function Against(
    caps: Capabilities, config: TrueSkillConfig, playerCount: nat, one: InitialTeam, others: seq<InitialTeam>)
    : seq<Num>
  {
    seq(|others|, j requires 0 <= j < |others| => PairProbability(caps, config, playerCount, one, others[j]))
  }

  /** Teams 0 .. n-1 other than team i. */
  function Opponents(teams: seq<InitialTeam>, i: nat, n: nat): seq<InitialTeam>
    requires i < |teams| && n <= |teams|
  {
    if n <= i then teams[..n] else teams[..i] + teams[i + 1..n]
  }

  lemma {:induction false} AgainstAppend(
    caps: Capabilities, config: TrueSkillConfig, playerCount: nat, one: InitialTeam,
    others: seq<InitialTeam>, two: InitialTeam)
    ensures Against(caps, config, playerCount, one, others + [two]) ==
      Against(caps, config, playerCount, one, others) + [PairProbability(caps, config, playerCount, one, two)]
  {
  }

  lemma {:induction false} OpponentsStep(teams: seq<InitialTeam>, i: nat, n: nat)
    requires i < |teams| && 0 < n <= |teams|
    ensures Opponents(teams, i, n) ==
      if n - 1 == i then Opponents(teams, i, n - 1) else Opponents(teams, i, n - 1) + [teams[n - 1]]
  {
    if n - 1 < i {
      assert teams[..n] == teams[..n - 1] + [teams[n - 1]];
    } else if n - 1 > i {
      assert teams[i + 1..n] == teams[i + 1..n - 1] + [teams[n - 1]];
    }
  }

  /** Team i's row is the sum of its probabilities against its opponents. */
  lemma {:induction false} RowSumOverOpponents(
    caps: Capabilities, config: TrueSkillConfig, teams: seq<InitialTeam>, i: nat, n: nat)
    requires i < |teams| && n <= |teams|
    ensures RowSum(caps, config, teams, i, n) ==
      SumNums(Against(caps, config, PlayerCount(teams), teams[i], Opponents(teams, i, n)))
  {
    if n > 0 {
      RowSumOverOpponents(caps, config, teams, i, n - 1);
      RowSumStep(caps, config, teams, i, n - 1);
      OpponentsStep(teams, i, n);
      if n - 1 != i {
        var pc := PlayerCount(teams);
        var prev := Opponents(teams, i, n - 1);
        var pair := PairAt(caps, config, teams, i, n - 1);
        AgainstAppend(caps, config, pc, teams[i], prev, teams[n - 1]);
        assert Against(caps, config, pc, teams[i], Opponents(teams, i, n)) ==
          Against(caps, config, pc, teams[i], prev) + [pair];
        SumNumsAppend(Against(caps, config, pc, teams[i], prev), pair);
      }
    }
  }

  /** A team's raw score is the same wherever it stands in a reordering of
      the roster. */
  lemma {:induction false} RawScoreFollowsTeam(
    caps: Capabilities, config: TrueSkillConfig, a: seq<InitialTeam>, b: seq<InitialTeam>, l: nat, k: nat)
    requires multiset(a) == multiset(b)
    requires l < |a| && k < |b| && a[l] == b[k]
    ensures RawScores(caps, config, a)[l] == RawScores(caps, config, b)[k]
  {
    PlayerCountIgnoresTeamOrder(a, b);
    var pc := PlayerCount(a);
    var oa, ob := Opponents(a, l, |a|), Opponents(b, k, |b|);
    assert oa == a[..l] + a[l + 1..];
    assert ob == b[..k] + b[k + 1..];
    Lists.RemoveAt(a, l);
    Lists.RemoveAt(b, k);
    Lists.MultisetCancel(multiset(oa), multiset(ob), a[l]);
    Lists.CorrespondingMultisets(oa, ob, Against(caps, config, pc, a[l], oa), Against(caps, config, pc, b[k], ob));
    SumNumsPermutation(Against(caps, config, pc, a[l], oa), Against(caps, config, pc, b[k], ob));
    RowSumOverOpponents(caps, config, a, l, |a|);
    RowSumOverOpponents(caps, config, b, k, |b|);
  }

  /** Shuffling the teams moves each team's expected score with it: a team
      at position l of one roster and at position k of a reordering of it
      gets the same score in both. */
  lemma {:induction false} ExpectedScoresFollowTeams(
    caps: Capabilities, config: TrueSkillConfig, a: seq<InitialTeam>, b: seq<InitialTeam>, l: nat, k: nat)
    requires multiset(a) == multiset(b)
    requires l < |a| && k < |b| && a[l] == b[k]
    ensures ExpectedScores(caps, config, a)[l] == ExpectedScores(caps, config, b)[k]
  {
    var ra, rb := RawScores(caps, config, a), RawScores(caps, config, b);
    forall l', k' | 0 <= l' < |a| && 0 <= k' < |b| && a[l'] == b[k']
      ensures ra[l'] == rb[k']
    {
      RawScoreFollowsTeam(caps, config, a, b, l', k');
    }
    Lists.CorrespondingMultisets(a, b, ra, rb);
    SumNumsPermutation(ra, rb);
  }
}
