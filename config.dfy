/** The parameters of the rating engine, the UI's default settings and the
    roster bounds. */
module Config {

  /** The parameters handed to the rating engine. */
  datatype TrueSkillConfig = TrueSkillConfig(beta: real, tau: real, drawProbability: real)

  /** The UI settings: the engine parameters plus the defaults for new
      players and teams. */
  datatype Settings = Settings(
    config: TrueSkillConfig,
    defaultMu: real,
    defaultSigma: real,
    defaultTeamSize: int)

  /** The settings the UI starts with. */
  function DefaultSettings(): Settings
  {
    Settings(TrueSkillConfig(25.0 / 6.0, 25.0 / 300.0, 0.1), 25.0, 25.0 / 6.0, 2)
  }

  /** Bounds on the number of teams and of players per team. */
  const MinTeams: nat := 2
  const MaxTeams: nat := 256
  const MinPlayers: nat := 1
  const MaxPlayers: nat := 128
}
