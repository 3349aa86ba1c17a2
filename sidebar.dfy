/** The fixed list of tables the CRUD page lets a user pick
    (4_Crud_Operations.py:101-110). Table names are the one part of a
    statement that is spliced into its text rather than bound. */
module Sidebar {
  const Tables: seq<string> := [
    "cricket_series_2024", "highest_scores", "indian_players",
    "international_teams", "match_results", "players_with_stats",
    "recent_matches", "teams_players", "top_odi_runs",
    "top_test_runs", "venues",
    "matches", "test_teams", "recent_innings", "recent_batting_scorecard",
    "partnerships",
    "batting_2", "bowling_2", "indian_matches"
  ]

  /** The list has 19 entries, among them the two tables the fixed
      lookups read, and no listed name has a `%` that the driver would
      read as part of a placeholder. */
  lemma ListedTables()
    ensures |Tables| == 19
    ensures Tables[1] == "highest_scores" && Tables[5] == "players_with_stats"
    ensures forall i :: 0 <= i < |Tables| ==> '%' !in Tables[i]
  {
  }
}
