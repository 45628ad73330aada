/** The parts of a match record and of a match result that the core reads
    (autoleague/match.py). */
module Matches {
  import opened Bots

  /** The two teams of a match. The record's name, timestamp and arena are left out. */
  datatype MatchDetails = MatchDetails(blue: seq<BotId>, orange: seq<BotId>)

  /** The final score; the other statistics of a result are left out. */
  datatype MatchResult = MatchResult(blueGoals: int, orangeGoals: int)
}
