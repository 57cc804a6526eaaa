/** `getScoreColor` of the dashboard's recent-activity table (components/dashboard/RecentActivityTable.tsx). */
module RecentActivityTable {

  const Green := "bg-green-500"
  const Orange := "bg-orange-500"
  const Red := "bg-red-500"

  /** The bar colour for a score: green from 85, orange from 75, red below. */
  function ScoreColor(score: real): (color: string)
    ensures color == Green <==> score >= 85.0
    ensures color == Orange <==> 75.0 <= score < 85.0
    ensures color == Red <==> score < 75.0
  {
    if score >= 85.0 then Green
    else if score >= 75.0 then Orange
    else Red
  }

  /** The bands in increasing order of score. */
  function Band(color: string): (rank: nat)
    ensures color == Red ==> rank == 0
    ensures color == Orange ==> rank == 1
    ensures color == Green ==> rank == 2
  {
    if color == Green then 2 else if color == Orange then 1 else 0
  }

  /** Raising a score never moves it to a lower band. */
  lemma ScoreColorMonotone(low: real, high: real)
    requires low <= high
    ensures Band(ScoreColor(low)) <= Band(ScoreColor(high))
  {
  }
}

/** `getScoreColor` of a competitor card (components/url-audit/CompetitorCard.tsx). */
module CompetitorCard {

  const Green := "bg-green-500"
  const Orange := "bg-orange-500"
  const LightOrange := "bg-orange-400"

  /** The colour for a competitor's score: green from 90, orange-500 from 85, orange-400 below. */
  function ScoreColor(score: real): (color: string)
    ensures color == Green <==> score >= 90.0
    ensures color == Orange <==> 85.0 <= score < 90.0
    ensures color == LightOrange <==> score < 85.0
  {
    if score >= 90.0 then Green
    else if score >= 85.0 then Orange
    else LightOrange
  }

  /** The card's three colours in increasing order of score. */
  function Band(color: string): (rank: nat)
    ensures color == LightOrange ==> rank == 0
    ensures color == Orange ==> rank == 1
    ensures color == Green ==> rank == 2
  {
    if color == LightOrange then 0 else if color == Orange then 1 else 2
  }

  /** Raising a score never moves it to a lower band. */
  lemma ScoreColorMonotone(low: real, high: real)
    requires low <= high
    ensures Band(ScoreColor(low)) <= Band(ScoreColor(high))
  {
  }
}
