/**
 * The dashboard's required column lists and its two default datasets, and the
 * facts that make the fallback to them safe.
 */
module Defaults {
  import opened Tables

  const RequiredCapColumns: seq<string> := ["Category", "Description", "Level (1-5)"]
  const RequiredMemColumns: seq<string> := ["Section", "Description", "Editable"]

  const DefCapabilities: seq<Column> := [
    Column("Category", [
      Str("Research & Analysis"), Str("Creative Thinking"), Str("Execution Support"),
      Str("Memory & Alignment"), Str("Self-Auditing")]),
    Column("Description", [
      Str("Synthesizing complex info, strategy analysis, fact-checking"),
      Str("Ideation, frameworks, lateral thinking"),
      Str("Docs, coding, automation, reports"),
      Str("Long-term memory of user goals and preferences"),
      Str("Output accuracy checks, feedback-driven improvement")]),
    Column("Level (1-5)", [Int(4), Int(4), Int(3), Int(5), Int(3)])
  ]

  const DefMemoryStack: seq<Column> := [
    Column("Section", [
      Str("Identity Core"), Str("Vision & Long-Term Objectives"), Str("Values Stack"),
      Str("Strategic Preferences"), Str("Feedback Loop"), Str("Memory Containers")]),
    Column("Description", [
      Str("Your role, tone, and expectations of me"),
      Str("Your long-term vision, mission, and goals"),
      Str("Core values guiding your decision-making"),
      Str("How you prefer to work and think"),
      Str("How we iterate and improve over time"),
      Str("Categories of memory I will store and update")]),
    Column("Editable", [Str("Yes"), Str("Yes"), Str("Yes"), Str("Yes"), Str("Yes"), Str("Yes")])
  ]

  /**
   * The default capabilities literal has exactly the required columns, in
   * order, each with five entries, so the table built from it has five rows
   * and passes the capabilities schema check.
   */
  lemma DefaultCapabilitiesShape()
    ensures Rectangular(DefCapabilities)
    ensures Names(DefCapabilities) == RequiredCapColumns
    ensures forall j :: 0 <= j < |DefCapabilities| ==> |DefCapabilities[j].values| == 5
    ensures |FromColumns(DefCapabilities).rows| == 5
    ensures HasColumns(FromColumns(DefCapabilities), RequiredCapColumns)
  {
  }

  /**
   * The default memory-stack literal has exactly the required columns, in
   * order, each with six entries, and every row of the table built from it
   * is marked editable.
   */
  lemma DefaultMemoryStackShape()
    ensures Rectangular(DefMemoryStack)
    ensures Names(DefMemoryStack) == RequiredMemColumns
    ensures forall j :: 0 <= j < |DefMemoryStack| ==> |DefMemoryStack[j].values| == 6
    ensures |FromColumns(DefMemoryStack).rows| == 6
    ensures HasColumns(FromColumns(DefMemoryStack), RequiredMemColumns)
    ensures forall i :: 0 <= i < 6 ==> FromColumns(DefMemoryStack).rows[i][2] == Str("Yes")
  {
  }
}
