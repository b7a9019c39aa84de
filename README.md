# TrueSkill Calculator — a verified model of the rating core

The TrueSkill Calculator is a web tool. A user builds a roster of teams of players, each
player with a TrueSkill rating (mean `mu`, deviation `sigma`) and a participation weight,
gives each team a rank, and asks for new ratings, expected scores and the match quality.
This project models, in Dafny, the part of the program that does that work:

- **The rating calculation** (`utils/trueskill.ts`), in module `TrueSkill`:
  - `calculateExpectedScores`: the pairwise win probability
    `cdf((Σmu₁ − Σmu₂) / sqrt(Σσ²₂ + playerCount·β² + Σσ²₁))`, summed per team and divided
    by the grand total;
  - `calculateRatings`, with its whole-request fallback when any team is empty;
  - `calculateMatchQuality`, as a percentage.
- **The roster editors** (`utils/teams.ts`, `utils/players.ts`), in modules `Teams`,
  `Players` and `Lists`:
  - default players and teams, and the first two teams;
  - adding and removing teams and players, with JavaScript `splice` semantics;
  - clamping ranks, weights and ratings.
- **The older helper copies** (`src/helpers/players.ts`, `src/helpers/teams.ts`), in modules
  `LegacyPlayers` and `LegacyTeams`, each related by a lemma to the current version.

Supporting modules:

- `Numbers`: JavaScript numbers (`NaN` or a real), falsiness, comparisons, division, the
  left-fold sum, normalisation, and the decimal rendering used by `Player ${i}`.
- `Config`: the default settings and the roster bounds (2..256 teams, 1..128 players).
- `Types`: the records exchanged with the calculation.
- `Engine`: what the external TrueSkill library contributes.

The external library's Bayesian update (`rate`), its quality measure (`quality`), the
normal CDF and `Math.sqrt` are parameters of the model. They are fields of a `Capabilities`
value. Ghost predicates state the only facts the proofs assume about them:

- `rate` returns one rating per input rating;
- `quality` and `cdf` lie in [0, 1], and for some lemmas `cdf` is positive;
- `sqrt` returns the non-negative root.

Code that changes state in place is imperative Dafny:

- the player, team and team-list objects the UI edits are classes;
- `updatePlayerMuSigma`, `updatePlayerWeight`, `updateTeamRanks`, `addTeam`, `removeTeam`,
  `addPlayerToTeam` and `removePlayerFromTeam` are methods whose `modifies` clause names
  the one field they write;
- the loops of `calculateExpectedScores`, `calculateRatings` and `getDefaultTeam` are
  `while` loops with invariants, proved against specification functions.

Those specification functions are `ExpectedScores`, `MuSigmaUpdate`, `ClampWeight`,
`ClampRank`, `Splice` and `DefaultTeam`. The properties the program promises are proved as
lemmas about them.

## Model

| member | source | states |
|---|---|---|
| `TrueSkill.RateInputsFollowRoster` | utils/trueskill.ts:50-58 | the library receives one rank per team and, per team, a rating list and a weight list as long as its player list, entry (i, j) being player j of team i's rating and weight |
| `TrueSkill.MergeTeamRatings` | utils/trueskill.ts:70-82 | every player of a team, in order, keeps its name and weight, takes the new rating and records new minus old for mu and for sigma |
| `TrueSkill.KeepRatings` | utils/trueskill.ts:22-39 | the fallback: one team per input team with name, rank and expected score copied, every player kept with its rating and weight and a zero change |
| `TrueSkill.MergeRatings` | utils/trueskill.ts:62-85 | the rated path: one team per input team with name, rank and expected score copied, every player (i, j) given `newRatings[i][j]` and the difference from its old rating |
| `TrueSkill.CalculateRatings` | utils/trueskill.ts:12-86 | one result per input team in order (none for no teams) with name, rank, player count and the i-th expected score; names and weights kept and old rating plus change equal to the new rating; if any team is empty every player in every team keeps its rating with a zero change; otherwise every player gets the library's new rating |
| `TrueSkill.CalculateMatchQuality` | utils/trueskill.ts:95-105 | 0 when there are no teams or some team has no players |
| `TrueSkill.MatchQualityIsPercentage` | utils/trueskill.ts:88-124 | the quality always lies in [0, 100], and for a regular request it is exactly 100 times the library's quality |
| `TrueSkill.MatchQualityReadsRatingsAndWeights` | utils/trueskill.ts:115-123 | rosters with the same ratings and weights get the same quality, whatever their names and ranks |
| `TrueSkill.AccumulateRow` | utils/trueskill.ts:155-187 | the inner loop's list of probabilities sums to team i's raw score, and the running total grows by exactly that score |
| `TrueSkill.DivideByTotal` | utils/trueskill.ts:192-198 | one score per row, in order, each the row's sum divided by the total |
| `TrueSkill.CalculateExpectedScores` | utils/trueskill.ts:135-201 | the loops compute exactly `ExpectedScores`: each team's raw score divided by the sum of all raw scores |
| `TrueSkill.PairsDefinedWithPlayers` | utils/trueskill.ts:176-183 | with at least one player and β ≠ 0 every pairwise probability is a number |
| `TrueSkill.RowSumDefined` | utils/trueskill.ts:164-187 | a row of defined pairwise probabilities has a defined sum |
| `TrueSkill.RowSumNonNegative` | utils/trueskill.ts:164-187 | a row of CDF values has a non-negative sum |
| `TrueSkill.RowSumPositive` | utils/trueskill.ts:154-187 | with at least two teams and a positive CDF every team's raw score is positive |
| `TrueSkill.RawScoresDefined` | utils/trueskill.ts:154-190 | every raw score is a number, and non-negative when the CDF lies in [0, 1] |
| `TrueSkill.ExpectedScoresSumToOne` | utils/trueskill.ts:192-198 | when every pair is defined and the total is non-zero, every score is a number and the scores add up to exactly 1 |
| `TrueSkill.ExpectedScoresAreProbabilities` | utils/trueskill.ts:186-198 | with CDF values in [0, 1] and a non-zero total every score lies in [0, 1] |
| `TrueSkill.ExpectedScoresNormalised` | utils/trueskill.ts:135-201 | for two or more teams with at least one player in the whole roster and β ≠ 0, the scores are probabilities that add up to 1 |
| `TrueSkill.TwoEvenTeamsSplitEvenly` | utils/trueskill.ts:176-198 | two teams with equal mean sums each get exactly 1/2, whatever their sizes and deviations |
| `TrueSkill.SingleTeamScoreIsNaN` | utils/trueskill.ts:164-196 | a lone team has no opponent, so its score is 0 / 0, which is NaN |
| `TrueSkill.SumsFollowRatings` | utils/trueskill.ts:157-174 | a team's mean sum and variance sum depend only on its players' ratings |
| `TrueSkill.ExpectedScoresFollowStrengths` | utils/trueskill.ts:139-187 | expected scores read each team only through its size, its mean sum and its variance sum: rosters that agree on those, team by team, get the same scores |
| `TrueSkill.ExpectedScoresReadOnlyRatings` | utils/trueskill.ts:135-201 | expected scores never read names, ranks or weights: rosters with the same ratings get the same scores |
| `TrueSkill.SumsIgnorePlayerOrder` | utils/trueskill.ts:157-174 | two player lists that are reorderings of each other have the same size, mean sum and variance sum |
| `TrueSkill.ExpectedScoresIgnorePlayerOrder` | utils/trueskill.ts:135-201 | reordering the players inside any of the teams changes no expected score |
| `TrueSkill.PlayerCountIgnoresTeamOrder` | utils/trueskill.ts:139-141 | rosters that are reorderings of each other have the same player count |
| `TrueSkill.RowSumOverOpponents` | utils/trueskill.ts:164-187 | team i's raw score over the first n teams is the sum of its pairwise probabilities against each of them other than itself, in roster order |
| `TrueSkill.RawScoreFollowsTeam` | utils/trueskill.ts:154-190 | a team's raw score is the same at whatever position a reordering of the roster puts it |
| `TrueSkill.ExpectedScoresFollowTeams` | utils/trueskill.ts:135-201 | reordering the teams moves each team's expected score with it: a team at position l of one roster and at position k of a reordering gets the same score in both |
| `Numbers.SumNumsPermutation` | utils/trueskill.ts:194-197 | the left-fold sum of a list of numbers does not depend on the order of its values |
| `Numbers.NormaliseSumsToOne` | utils/trueskill.ts:192-198 | dividing defined values by their non-zero sum gives values adding up to 1 |
| `Numbers.NormaliseBounds` | utils/trueskill.ts:192-198 | dividing non-negative values by their non-zero sum gives values in [0, 1] |
| `Numbers.NatToStringInjective` | utils/players.ts:16 | distinct numbers render as distinct decimal strings |
| `Numbers.LabelInjective` | utils/teams.ts:29 | `${prefix}${n}` labels are distinct for distinct n |
| `Players.DefaultPlayerFields` | utils/players.ts:11-20 | a default player is named `Player i`, has the default mu and sigma and weight 1, and two of them share a name only for the same index |
| `Players.CoerceMu` | utils/players.ts:34-36 | a falsy mean (0 or NaN) becomes 0, any other is kept |
| `Players.MuSigmaUpdate` | utils/players.ts:29-43 | a falsy sigma leaves the rating unchanged; otherwise the rating becomes the coerced mean with the new, non-zero, possibly negative sigma |
| `Players.UpdatePlayerMuSigma` | utils/players.ts:29-43 | writes only the rating, and the new rating is `MuSigmaUpdate` of the old one |
| `Players.MuSigmaUpdateKeepsSigmaNonZero` | utils/players.ts:38-42 | a rating with non-zero sigma keeps a non-zero sigma under any update |
| `Players.MuSigmaUpdateIdempotent` | utils/players.ts:29-43 | repeating the same update changes nothing more |
| `Players.MuSigmaUpdateFixesStoredRating` | utils/players.ts:29-43 | writing back a stored rating with non-zero sigma leaves it unchanged |
| `Players.ClampWeight` | utils/players.ts:51-60 | the stored weight lies in [0, 1]; it is 0 exactly for negative, 0 or NaN input, 1 exactly for input at least 1, and the input itself in between |
| `Players.UpdatePlayerWeight` | utils/players.ts:51-60 | writes only the weight, and the new weight is `ClampWeight` of the input |
| `Players.ClampWeightIdempotent` | utils/players.ts:53-59 | feeding the stored weight back in changes nothing |
| `Players.ClampWeightKeepsValidWeights` | utils/players.ts:53-59 | a weight in (0, 1] is stored as given |
| `Lists.SpliceStart` | utils/teams.ts:113 | where `splice(index, 1)` starts: the index itself when in range, counted from the end when negative, clamped to 0 or to the length otherwise |
| `Lists.SpliceRemovesOne` | utils/teams.ts:111-115 | `splice(index, 1)` removes exactly the element at the start position, if any, keeping the others in order |
| `Lists.SplicePermutation` | utils/teams.ts:138-142 | what `splice` keeps plus what it removes is the original list up to order |
| `Lists.SpliceLength` | utils/teams.ts:111-115 | an index in [−n, n) removes one element, one at or past the end removes none, one before −n removes the first |
| `Teams.PlayerValuesSplice` | utils/teams.ts:138-142 | splicing the player objects and then reading them is the same as reading them and then splicing the values |
| `Teams.DefaultTeamFields` | utils/teams.ts:18-34 | a default team is named `Team k` with rank k and holds `defaultTeamSize` players (none for a non-positive size), the j-th named `Player j` at the default rating, all names distinct |
| `Teams.TeamNameInjective` | utils/teams.ts:29 | two default teams share a name only for the same index |
| `Teams.NewDefaultPlayers` | utils/teams.ts:22-26 | the loop creates new player objects holding exactly the default players, in order |
| `Teams.GetDefaultTeam` | utils/teams.ts:18-34 | returns a new team of new players whose contents are exactly `DefaultTeam(settings, teamIndex)` |
| `Teams.FirstTwoTeamsAreDefaultTeams` | utils/teams.ts:41-87 | the first two teams are the default teams 1 and 2 whenever the default team size is 2 |
| `Teams.AddTeam` | utils/teams.ts:95-103 | below 256 teams appends exactly one new team, made of new player objects and equal to `DefaultTeam(settings, n + 1)`, and keeps the others; at 256 changes nothing |
| `Teams.RemoveTeam` | utils/teams.ts:111-115 | above 2 teams the list becomes its `splice(index, 1)`; at 2 or fewer it is unchanged |
| `Teams.AddPlayerToTeam` | utils/teams.ts:123-130 | below 128 players appends one new player, `Player n+1` at the default rating, and changes nothing else; at 128 changes nothing |
| `Teams.RemovePlayerFromTeam` | utils/teams.ts:138-142 | above 1 player the player list becomes its `splice(index, 1)`, so a team that has a player never loses its last one; otherwise unchanged |
| `Teams.ClampRank` | utils/teams.ts:159-163 | a rank below 1, 0 or NaN becomes 1, one above the team count becomes the count, the rest is kept; with at least one team the result lies in [1, count] |
| `Teams.UpdateTeamRanks` | utils/teams.ts:151-166 | writes only the rank, and the new rank is `ClampRank` of the input |
| `Teams.ClampRankIdempotent` | utils/teams.ts:159-165 | feeding the stored rank back in changes nothing |
| `Teams.TeamCountStaysInBounds` | utils/teams.ts:95-115 | from any count in [2, 256], every sequence of `addTeam`/`removeTeam` calls keeps the count in [2, 256] |
| `LegacyPlayers.UpdatePlayerMuSigma` | src/helpers/players.ts:18-28 | writes only the rating, and the new rating is `MuSigmaUpdate` of the old one, as in the current version |
| `LegacyPlayers.UpdatePlayerWeight` | src/helpers/players.ts:37-46 | writes only the weight, and the new weight is `ClampWeight` of the input, as in the current version |
| `LegacyPlayers.DefaultPlayerMatchesCurrent` | src/helpers/players.ts:56-68 | `getDefaultPlayer(n, mu, sigma)` is the current default player `Player n` for settings with that mu and sigma, weight 1 |
| `LegacyTeams.GetDefaultTeam` | src/helpers/teams.ts:9-27 | the loop builds exactly `DefaultTeam(teamNumber, teamSize, mu, sigma)` |
| `LegacyTeams.DefaultTeamFields` | src/helpers/teams.ts:9-27 | no two players of an older default team share a name; besides, it has `teamSize` players (none when that is not positive), the k-th named `Player k` at `[mu, sigma]` with weight 1, in a team named `Team n` with rank n |
| `LegacyTeams.DefaultTeamMatchesCurrent` | src/helpers/teams.ts:9-27 | the older default team equals the current one for settings with the same size and rating |
| `LegacyTeams.FirstTwoTeamsAreDefaultTeams` | src/helpers/teams.ts:29-63 | the older first two teams are the older default teams 1 and 2 of size 2 at [25, 25/3], and so differ from the current first teams, whose default sigma is 25/6 |

## Left out

- The TrueSkill library is not modelled: `rate`, `quality`, the normal CDF and `Math.sqrt`
  are parameters. The rating and quality values it computes are therefore unconstrained,
  apart from the facts stated as predicates in module `Engine`.
- Floating point is not modelled: numbers are exact reals or NaN, with no rounding.
  Where JavaScript would produce ±Infinity (a division by zero), the model yields NaN.
  Sums are therefore exact, and the order-independence lemmas hold for exact sums; in
  JavaScript a reordering can change the last bits of a result.
- `TrueSkill.PairProbability`: for a zero denominator (β = 0 and both teams' sigmas 0),
  JavaScript computes `cdf(±Infinity)` when the mean sums differ. The model yields NaN for
  every zero denominator. The proved properties assume β ≠ 0 or defined pairs.
- `TrueSkill.CalculateRatings`: the library's `Rating` objects are not modelled. The model
  takes `new Rating(mu, sigma)` (utils/trueskill.ts:54-58, 115-119) to read back exactly mu
  and sigma. The library may normalise them, for example by reading sigma back as its
  absolute value or by rejecting sigma 0. The rating change (utils/trueskill.ts:77-80) is
  computed from the values read back, so "old rating plus change equals new rating" rests
  on that assumption.
- `TrueSkill.CalculateRatings`, `TrueSkill.CalculateMatchQuality`: exceptions the library
  may throw are not modelled. Both always return a result.
- `TrueSkill.CalculateRatings`: the model cannot state that `rate` is never called for an
  empty roster. It states that the result is empty. It relies on `rate` returning one
  rating per player, which is stated as `RatePreservesShape`.
- `TrueSkill.CalculateMatchQuality`: its own contract covers only the zero cases. The
  percentage and scaling are stated by `TrueSkill.MatchQualityIsPercentage`.
- A single team gives the expected score NaN (0 / 0), as the code computes. Nothing in the
  code guards that case.
- `Teams.RemoveTeam`, `Teams.RemovePlayerFromTeam`: a fractional `index` is not modelled.
  The index is an integer, and `splice` semantics for negative and out-of-range indices
  are modelled.
- `Teams.GetDefaultTeam`, `Teams.AddPlayerToTeam`: the team and player numbers are
  naturals. A fractional default team size is not modelled. Ranks, weights and ratings are
  reals, so a fractional rank is kept as given.
- `LegacyTeams.GetDefaultTeam`, `LegacyTeams.DefaultTeamFields`: the team number is a
  natural number and the team size an integer. The older player constructor takes a
  natural player number. Fractional, negative or NaN arguments are not modelled.
- The fallback path of `calculateRatings` shares each player's rating array with the
  input; the model copies the value. The updaters replace that array and never change it
  in place, so the sharing is not observable through the modelled operations.
- src/helpers/trueskill.ts and src/TrueSkill.ts are not part of this model. They are thin
  wrappers around the library and text formatting.
- src/Teams.ts, src/Players.ts, src/Copy.ts and the server, build and benchmark files are
  not part of this model. They are string formatting, DOM, HTTP or tooling code.
- Some test files expect a default sigma of 25/3 and an unscaled match quality. The model
  follows the code: `getDefaultConfig` returns 25/6, and `calculateMatchQuality`
  multiplies by 100.
