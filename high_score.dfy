/**
 * One finished run as the leaderboard keeps it (model/HighScore.kt): an immutable record,
 * compared field by field, so the leaderboard may hold equal duplicates. The timestamp
 * defaults to the creation time in the source and is an explicit field here; the
 * location is optional and absent unless the caller gives one.
 */
module HighScoreModel {

  datatype Option<T> = None | Some(value: T)

  datatype HighScore = HighScore(
    playerName: string,
    score: int,
    coins: int,
    gameMode: string,
    timestamp: int,
    latitude: Option<real>,
    longitude: Option<real>)
}
