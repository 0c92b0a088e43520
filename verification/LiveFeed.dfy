/** Typed views of the two upstream JSON documents the live-game commands read: the
    season schedule (one entry per date, each with its games) and the live snapshot of
    one game. Only the fields the bot consults are kept; a field the bot reads with
    `as_i64()` / `as_str()` and compares against `Some(..)` is an `Option`, so that a
    missing field compares unequal exactly as it does in the bot. */
module LiveFeed {
  import opened Wrappers

  /** The configured team (the Atlanta Braves). */
  const BRAVES_TEAM_ID: int := 144

  /** The only terminal value of `abstractGameState` the bot inspects. */
  const FINAL: string := "Final"

  /** One game of the schedule: `gamePk`, the home and away team ids and the coarse state. */
  datatype ScheduleGame = ScheduleGame(
    gamePk: nat,
    homeTeamId: Option<int>,
    awayTeamId: Option<int>,
    abstractGameState: Option<string>)

  /** One element of the schedule's `dates` array. */
  datatype ScheduleDate = ScheduleDate(games: seq<ScheduleGame>)

  /** One element of the snapshot's `exit_velocity` array. The distance is kept as the
      text the feed sends, because the bot parses it itself. */
  datatype BattedBallEvent = BattedBallEvent(
    des: string,
    abNumber: nat,
    capIndex: nat,
    hitSpeed: string,
    hitAngle: string,
    hitDistance: string,
    xba: string,
    homeRunBallparks: Option<nat>)

  /** One element of `scoreboard.stats.wpa.gameWpa`: the at-bat and cap indices (absent
      when the feed does not give an unsigned integer) and the home team's win
      probability added. The feed sends that delta as a float; the model keeps only its
      sign and magnitude as an integer. */
  datatype WpaEntry = WpaEntry(
    atBatIndex: Option<nat>,
    capIndex: Option<nat>,
    homeTeamWinProbabilityAdded: int)

  /** The live snapshot of one game. */
  datatype Snapshot = Snapshot(
    abstractGameState: Option<string>,
    homeName: string,
    awayName: string,
    homeId: int,
    exitVelocity: seq<BattedBallEvent>,
    gameWpa: seq<WpaEntry>)

  predicate IsFinal(s: Snapshot) {
    s.abstractGameState == Some(FINAL)
  }
}
