/** Default players and the two in-place player updaters (utils/players.ts). */
module Players {
  import opened Numbers
  import opened Config
  import opened Types

  /** A player of the roster. The UI edits its rating and weight in place. */
  class Player {
    var name: string
    var rating: Rating
    var weight: real

    /** The player's current fields as a value. */
    function Value(): InitialPlayer
      reads this
    {
      InitialPlayer(name, rating, weight)
    }

    constructor (v: InitialPlayer)
      ensures Value() == v
    {
      name := v.name;
      rating := v.rating;
      weight := v.weight;
    }
  }

  /** The name `Player ${playerIndex}`. */
  function PlayerName(playerIndex: nat): string {
    "Player " + NatToString(playerIndex)
  }

  /** `getDefaultPlayer(settings, playerIndex)`. */
  function DefaultPlayer(settings: Settings, playerIndex: nat): InitialPlayer {
    InitialPlayer(PlayerName(playerIndex), Rating(settings.defaultMu, settings.defaultSigma), 1.0)
  }

  /** A default player is named after its index, starts at the default
      rating and has full weight; distinct indices give distinct names. */
  lemma {:induction false} DefaultPlayerFields(settings: Settings, i: nat, k: nat)
    ensures DefaultPlayer(settings, i).rating == Rating(settings.defaultMu, settings.defaultSigma)
    ensures DefaultPlayer(settings, i).weight == 1.0
    ensures DefaultPlayer(settings, i).name[..7] == "Player "
    ensures DefaultPlayer(settings, i).name == DefaultPlayer(settings, k).name <==> i == k
  {
    if DefaultPlayer(settings, i).name == DefaultPlayer(settings, k).name {
      LabelInjective("Player ", i, k);
    }
  }

  // ---------------------------------------------------------------------
  // updatePlayerMuSigma
  // ---------------------------------------------------------------------

  /** `if (!newMu) newMu = 0`: a falsy mean (0 or NaN) becomes 0. */
  function CoerceMu(newMu: Num): (mu: real)
    ensures Falsy(newMu) ==> mu == 0.0
    ensures newMu.Real? ==> mu == newMu.value
  {
    if Falsy(newMu) then 0.0 else newMu.value
  }

  /** The rating `updatePlayerMuSigma` leaves behind: unchanged for a falsy
      sigma, otherwise the coerced mean and the new sigma. */
  function MuSigmaUpdate(current: Rating, newMu: Num, newSigma: Num): (r: Rating)
    ensures Falsy(newSigma) ==> r == current
    ensures !Falsy(newSigma) ==> r.sigma == newSigma.value && r.sigma != 0.0
    ensures !Falsy(newSigma) && newMu.Real? ==> r.mu == newMu.value
    ensures !Falsy(newSigma) && newMu == NaN ==> r.mu == 0.0
  {
    var mu := CoerceMu(newMu);
    if !Falsy(newSigma) then Rating(mu, newSigma.value) else current
  }

  /** Updates a player's rating in place; only `rating` is written. */
  method UpdatePlayerMuSigma(player: Player, newMu: Num, newSigma: Num)
    modifies player`rating
    ensures player.rating == MuSigmaUpdate(old(player.rating), newMu, newSigma)
  {
    var mu := newMu;
    if Falsy(mu) {
      mu := Real(0.0);
    }
    if !Falsy(newSigma) {
      player.rating := Rating(mu.value, newSigma.value);
    }
  }

  /** A rating whose sigma is non-zero keeps a non-zero sigma. */
  lemma {:induction false} MuSigmaUpdateKeepsSigmaNonZero(current: Rating, newMu: Num, newSigma: Num)
    requires current.sigma != 0.0
    ensures MuSigmaUpdate(current, newMu, newSigma).sigma != 0.0
  {
  }

  /** Applying the same update twice is the same as applying it once. */
  lemma {:induction false} MuSigmaUpdateIdempotent(current: Rating, newMu: Num, newSigma: Num)
    ensures MuSigmaUpdate(MuSigmaUpdate(current, newMu, newSigma), newMu, newSigma)
         == MuSigmaUpdate(current, newMu, newSigma)
  {
  }

  /** Writing back a stored rating with a non-zero sigma changes nothing. */
  lemma {:induction false} MuSigmaUpdateFixesStoredRating(current: Rating)
    requires current.sigma != 0.0
    ensures MuSigmaUpdate(current, Real(current.mu), Real(current.sigma)) == current
  {
  }

  // ---------------------------------------------------------------------
  // updatePlayerWeight
  // ---------------------------------------------------------------------

  /** The weight `updatePlayerWeight` stores: negative, 0 or NaN become 0,
      anything above 1 becomes 1, the rest is kept. */
  function ClampWeight(newWeight: Num): (w: real)
    ensures 0.0 <= w <= 1.0
    ensures w == 0.0 <==> Falsy(newWeight) || Less(newWeight, 0.0)
    ensures w == 1.0 <==> newWeight.Real? && 1.0 <= newWeight.value
    ensures 0.0 < w < 1.0 <==> newWeight.Real? && 0.0 < newWeight.value < 1.0
    ensures 0.0 < w < 1.0 ==> w == newWeight.value
  {
    if Less(newWeight, 0.0) || Falsy(newWeight) then 0.0
    else if Greater(newWeight, 1.0) then 1.0
    else newWeight.value
  }

  /** Updates a player's weight in place; only `weight` is written. */
  method UpdatePlayerWeight(player: Player, newWeight: Num)
    modifies player`weight
    ensures player.weight == ClampWeight(newWeight)
  {
    var w := newWeight;
    if Less(w, 0.0) || Falsy(w) {
      w := Real(0.0);
    } else if Greater(w, 1.0) {
      w := Real(1.0);
    }
    player.weight := w.value;
  }

  /** Feeding the stored weight back in changes nothing. */
  lemma {:induction false} ClampWeightIdempotent(newWeight: Num)
    ensures ClampWeight(Real(ClampWeight(newWeight))) == ClampWeight(newWeight)
  {
  }

  /** Every weight in [0, 1] other than 0 is stored as given. */
  lemma {:induction false} ClampWeightKeepsValidWeights(w: real)
    requires 0.0 < w <= 1.0
    ensures ClampWeight(Real(w)) == w
  {
  }
}
