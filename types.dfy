/** The records exchanged with the rating calculation. */
module Types {
  import opened Numbers

  /** A skill belief: mean `mu` and standard deviation `sigma`. */
  datatype Rating = Rating(mu: real, sigma: real)

  /** A player as handed to the calculation. */
  datatype InitialPlayer = InitialPlayer(name: string, rating: Rating, weight: real)

  /** A team as handed to the calculation; a lower rank is a better placing. */
  datatype InitialTeam = InitialTeam(name: string, rank: real, players: seq<InitialPlayer>)

  /** The change of a rating, component by component. */
  datatype RatingChange = RatingChange(mu: real, sigma: real)

  /** A player after the calculation. */
  datatype ResultingPlayer = ResultingPlayer(
    name: string,
    rating: Rating,
    weight: real,
    ratingChanges: RatingChange)

  /** A team after the calculation, with its expected score. */
  datatype ResultingTeam = ResultingTeam(
    name: string,
    rank: real,
    players: seq<ResultingPlayer>,
    expectedScore: Num)
}
