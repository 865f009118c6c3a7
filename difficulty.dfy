/** The difficulty table (difficultySettings, index.js:31-35). */
module Difficulty {
  import opened Wrappers

  /** Number of pairs on the board and the time limit in seconds. */
  datatype Settings = Settings(pairs: int, time: int)

  /**
   * The settings for a level name; the table has an entry for exactly
   * "easy", "medium" and "hard", and no other name has one.
   */
  function Lookup(level: string): (s: Option<Settings>)
    ensures s.Some? <==> level in ["easy", "medium", "hard"]
    ensures s.Some? ==> 0 < s.value.pairs && 0 < s.value.time
    ensures level == "easy" ==> s == Some(Settings(3, 60))
    ensures level == "medium" ==> s == Some(Settings(5, 90))
    ensures level == "hard" ==> s == Some(Settings(8, 120))
  {
    match level
    case "easy" => Some(Settings(3, 60))
    case "medium" => Some(Settings(5, 90))
    case "hard" => Some(Settings(8, 120))
    case _ => None
  }
}
