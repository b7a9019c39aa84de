/** The older player helpers (src/helpers/players.ts): the same two in-place
    updaters as the current ones, and a default player built from explicit
    rating values instead of the settings. */
module LegacyPlayers {
  import opened Numbers
  import opened Config
  import opened Types
  import Players

  /** The older `updatePlayerMuSigma`: the same rule as the current one,
      writing only the player's rating. */
  method UpdatePlayerMuSigma(player: Players.Player, newMu: Num, newSigma: Num)
    modifies player`rating
    ensures player.rating == Players.MuSigmaUpdate(old(player.rating), newMu, newSigma)
  {
    var mu := newMu;
    if Falsy(mu) {
      mu := Real(0.0);
    }
    if !Falsy(newSigma) {
      player.rating := Rating(mu.value, newSigma.value);
    }
  }

  /** The older `updatePlayerWeight`: the same clamp to [0, 1] as the
      current one, writing only the player's weight. */
  method UpdatePlayerWeight(player: Players.Player, newWeight: Num)
    modifies player`weight
    ensures player.weight == Players.ClampWeight(newWeight)
  {
    var w := newWeight;
    if Less(w, 0.0) || Falsy(w) {
      w := Real(0.0);
    } else if Greater(w, 1.0) {
      w := Real(1.0);
    }
    player.weight := w.value;
  }

  /** `getDefaultPlayer(playerNumber, defaultMu, defaultSigma)`. */
  function DefaultPlayer(playerNumber: nat, defaultMu: real, defaultSigma: real): InitialPlayer {
    InitialPlayer("Player " + NatToString(playerNumber), Rating(defaultMu, defaultSigma), 1.0)
  }

  /** The older constructor builds exactly the player the current one builds
      from settings holding the same default rating. */
  lemma DefaultPlayerMatchesCurrent(settings: Settings, playerNumber: nat)
    ensures DefaultPlayer(playerNumber, settings.defaultMu, settings.defaultSigma)
         == Players.DefaultPlayer(settings, playerNumber)
  {
  }
}
