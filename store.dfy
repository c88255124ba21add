/**
 * The table store: loading a table with a schema check and a fallback to a
 * default, and saving a table. The CSV read and write themselves are not
 * modelled; their outcomes are inputs.
 */
module Store {
  import opened Tables

  /** What reading the CSV file produced: a failure of any kind, or a table. */
  datatype ReadResult = ReadFailed | Read(table: Table)

  /** Whether writing the CSV file raised or completed. */
  datatype WriteOutcome = WriteFailed | Written

  /** The kinds of status message shown to the user. */
  datatype Message = Info | Warning | Error | Success

  /** A loaded table and the messages the load signalled. */
  datatype Loaded = Loaded(table: Table, messages: seq<Message>)

  /**
   * Loads a table: the table read is returned as it is when it has every
   * required column; otherwise the default literal is turned into a table,
   * with a warning when columns were missing and an error when the read
   * failed. No failure escapes. The default is turned into a table outside
   * the guarded region, so it must be rectangular.
   */
  function LoadData(read: ReadResult, default: seq<Column>, required: seq<string>): (r: Loaded)
    requires Rectangular(default)
    ensures read.Read? && HasColumns(read.table, required) ==>
              r.table == read.table && r.messages == []
    ensures read.Read? && !HasColumns(read.table, required) ==>
              r.table == FromColumns(default) && r.messages == [Warning]
    ensures read.ReadFailed? ==> r.table == FromColumns(default) && r.messages == [Error]
    ensures HasColumns(FromColumns(default), required) ==> HasColumns(r.table, required)
  {
    match read
    case Read(t) =>
      if HasColumns(t, required) then Loaded(t, []) else Loaded(FromColumns(default), [Warning])
    case ReadFailed =>
      Loaded(FromColumns(default), [Error])
  }

  /** The result of a save: whether it succeeded, and the messages it signalled. */
  datatype Saved = Saved(ok: bool, messages: seq<Message>)

  /** Saves a table: reports success exactly when the write completed, and an error otherwise. */
  function SaveData(outcome: WriteOutcome): (r: Saved)
    ensures r.ok <==> outcome.Written?
    ensures r.ok ==> r.messages == []
    ensures !r.ok ==> r.messages == [Error]
  {
    match outcome
    case Written => Saved(true, [])
    case WriteFailed => Saved(false, [Error])
  }

  /**
   * A table with the required columns that was saved and is read back
   * unchanged is loaded as it is, without any message.
   */
  lemma SaveThenLoad(t: Table, default: seq<Column>, required: seq<string>)
    requires Rectangular(default) && HasColumns(t, required)
    ensures LoadData(Read(t), default, required) == Loaded(t, [])
  {
  }

  /** A load signals at most one message, and never a success or an info message. */
  lemma LoadSignalsAtMostOneProblem(read: ReadResult, default: seq<Column>, required: seq<string>)
    requires Rectangular(default)
    ensures var r := LoadData(read, default, required);
            |r.messages| <= 1 && Success !in r.messages && Info !in r.messages
  {
  }
}
