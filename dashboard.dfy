/**
 * The dashboard's two table panels: loading each table on each run of the
 * script, and the rule that decides, after the user's edits, whether a save
 * is offered, made and reported.
 */
module Dashboard {
  import opened Tables
  import opened Store
  import opened Defaults

  /** The two kinds of table the dashboard shows. */
  datatype TableKind = Capabilities | MemoryStack

  const CapabilitiesFile: string := "capabilities.csv"
  const MemoryStackFile: string := "memory_stack.csv"

  function FileOf(k: TableKind): string
  {
    match k
    case Capabilities => CapabilitiesFile
    case MemoryStack => MemoryStackFile
  }

  function RequiredOf(k: TableKind): seq<string>
  {
    match k
    case Capabilities => RequiredCapColumns
    case MemoryStack => RequiredMemColumns
  }

  function DefaultOf(k: TableKind): seq<Column>
  {
    match k
    case Capabilities => DefCapabilities
    case MemoryStack => DefMemoryStack
  }

  /** Number of rows of each default dataset. */
  function DefaultRows(k: TableKind): nat
  {
    match k
    case Capabilities => 5
    case MemoryStack => 6
  }

  lemma DefaultShape(k: TableKind)
    ensures Rectangular(DefaultOf(k))
    ensures |FromColumns(DefaultOf(k)).rows| == DefaultRows(k)
    ensures HasColumns(FromColumns(DefaultOf(k)), RequiredOf(k))
  {
    match k
    case Capabilities => DefaultCapabilitiesShape();
    case MemoryStack => DefaultMemoryStackShape();
  }

  /**
   * Loads one kind of table, as each run of the script does, from whatever
   * its file read gave. An accepted table is the one read; when the read is
   * rejected, that kind's default with its fixed number of rows is shown
   * instead. Either way the table shown has every required column.
   */
  function LoadKind(k: TableKind, read: ReadResult): (r: Loaded)
    ensures HasColumns(r.table, RequiredOf(k))
    ensures WellFormed(r.table) || (read.Read? && r.table == read.table)
    ensures r.messages != [] ==> |r.table.rows| == DefaultRows(k)
    ensures r.messages == [] <==> read.Read? && HasColumns(read.table, RequiredOf(k))
    ensures read.Read? && HasColumns(read.table, RequiredOf(k)) ==> r.table == read.table
    ensures r.messages != [] ==> r.table == FromColumns(DefaultOf(k))
  {
    DefaultShape(k);
    LoadData(read, DefaultOf(k), RequiredOf(k))
  }

  /** Whether a save was made when the panel rendered, and if so of what, where, and how it went. */
  datatype Attempt = NotAttempted | Attempted(path: string, table: Table, ok: bool)

  /** What one render of a panel produced. */
  datatype Panel = Panel(saveOffered: bool, attempt: Attempt, messages: seq<Message>)

  /**
   * One render of a panel: `edited` is what the editor returns for the
   * `loaded` table, `pressed` whether the save button was pressed in this
   * render, and `outcome` how the write would go. An unchanged table shows
   * only "no changes"; a changed one offers a save, which is made only when
   * the button was pressed, and success is reported only when it was made
   * and the write completed.
   */
  function RenderDashboard(k: TableKind, loaded: Table, edited: Table, pressed: bool,
                           outcome: WriteOutcome): (p: Panel)
    ensures edited == loaded ==> p == Panel(false, NotAttempted, [Info])
    ensures p.saveOffered <==> edited != loaded
    ensures p.attempt.Attempted? <==> edited != loaded && pressed
    ensures p.attempt.Attempted? ==>
              p.attempt.path == FileOf(k) && p.attempt.table == edited &&
              (p.attempt.ok <==> outcome.Written?)
    ensures Success in p.messages <==> p.attempt.Attempted? && p.attempt.ok
    ensures Error in p.messages <==> p.attempt.Attempted? && !p.attempt.ok
    ensures Info in p.messages <==> edited == loaded
    ensures edited != loaded && !pressed ==> p.messages == []
    ensures p.attempt.Attempted? ==> p.messages == (if p.attempt.ok then [Success] else [Error])
  {
    if !SameTable(edited, loaded) then
      if pressed then
        var saved := SaveData(outcome);
        Panel(true, Attempted(FileOf(k), edited, saved.ok),
              saved.messages + (if saved.ok then [Success] else []))
      else
        Panel(true, NotAttempted, [])
    else
      Panel(false, NotAttempted, [Info])
  }

  /**
   * After a successful save of an edited table that kept the required
   * columns, the next run of the script that reads that table back shows it
   * unchanged.
   */
  lemma SavedTableReloads(k: TableKind, loaded: Table, edited: Table, outcome: WriteOutcome)
    requires HasColumns(edited, RequiredOf(k))
    requires Success in RenderDashboard(k, loaded, edited, true, outcome).messages
    ensures RenderDashboard(k, loaded, edited, true, outcome).attempt.table == edited
    ensures LoadKind(k, Read(edited)) == Loaded(edited, [])
  {
  }

  /**
   * A capabilities file whose only column is "Category" is rejected with a
   * warning, and the five-row default capabilities table is shown instead.
   */
  lemma MalformedCapabilitiesFile(rows: seq<seq<Value>>)
    ensures var r := LoadKind(Capabilities, Read(Table(["Category"], rows)));
            r.messages == [Warning] && r.table == FromColumns(DefCapabilities) &&
            |r.table.rows| == 5 && r.table.columns == RequiredCapColumns
  {
  }
}
