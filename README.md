# AI Partner Dashboard: table loading and saving

A Dafny model of the data layer of the AI Partner Dashboard, a small form that
shows two editable tables: the "capabilities" table (columns `Category`,
`Description`, `Level (1-5)`) and the "memory stack" table (columns `Section`,
`Description`, `Editable`), each kept in a CSV file.

The model covers:

- **Tables and the schema check** (`tables.dfy`). A table is an ordered list
  of column names plus rows of string or integer cells. The defaults are
  written column by column; `FromColumns` builds a table from such a literal.
  The required-column check `AllIn` follows the generator over the required
  names. It is a pure subset test: column order does not matter and extra
  columns are allowed. `SameTable` is the structural equality that decides
  whether the user edited a table.
- **Load and save** (`store.dfy`). The CSV read is an input
  (`ReadFailed | Read(table)`) and so is the write (`WriteFailed | Written`).
  `LoadData` returns the table read when it has every required column.
  Otherwise it returns the default, with a warning when columns were missing
  and an error when the read failed. `SaveData` turns the write outcome into
  the boolean the panels test.
- **The defaults** (`defaults.dfy`). These are the two literal datasets and
  the required-column lists, with lemmas showing that each default is
  rectangular and passes its own schema check. This is what makes the
  fallback safe.
- **The panels** (`dashboard.dfy`). The two render functions differ only in
  their constants, so one `RenderDashboard` models both. An unchanged table
  shows only "no changes". A changed one offers a save, which is made when
  the button is pressed. Success is reported only when the save was made and
  the write completed. `LoadKind` is the load of each table on each run of
  the script (Streamlit re-runs the whole file on every interaction).

Messages are modelled by kind only (`Info`, `Warning`, `Error`, `Success`).

## Model

| member | source | states |
|---|---|---|
| Tables.FromColumns | ai_partner_dashboard.py:30 | building a table from a rectangular column literal keeps the column order, gives as many rows as each column has values, and puts the i-th value of column j in cell (i, j) |
| Tables.FromColumnsKeepsColumns | ai_partner_dashboard.py:30 | reading column j back out of the built table gives exactly the literal's name and values for column j |
| Tables.AllIn | ai_partner_dashboard.py:24 | the short-circuit walk over the required names is true exactly when every required name is among the columns |
| Tables.HasColumns | ai_partner_dashboard.py:24 | the schema check holds exactly when every required name is a column of the table |
| Tables.SchemaAllowsExtraColumns | ai_partner_dashboard.py:24 | a table whose columns include another's passes the check whenever that other one does, so extra columns never cause rejection |
| Tables.SchemaIgnoresColumnOrder | ai_partner_dashboard.py:24 | two tables whose columns are permutations of each other get the same schema verdict |
| Tables.SameRows | ai_partner_dashboard.py:79 | the row-by-row comparison is true exactly when the two row sequences are equal |
| Tables.SameTable | ai_partner_dashboard.py:79 | the edit test is true exactly when the two tables have equal columns and equal rows |
| Tables.ChangeDetection | ai_partner_dashboard.py:90 | a table compared with itself shows no change; a table differing in any cell shows a change |
| Store.LoadData | ai_partner_dashboard.py:21-30 | a read table with every required column is returned unchanged with no message; one missing a column gives the default table with a warning; a failed read gives the default table with an error; if the default passes the schema, so does every result |
| Store.SaveData | ai_partner_dashboard.py:33-39 | the save reports true exactly when the write completed; a failed write reports false with an error message and raises nothing |
| Store.SaveThenLoad | ai_partner_dashboard.py:22-25 | a table with the required columns that was written and is read back is loaded unchanged with no message |
| Store.LoadSignalsAtMostOneProblem | ai_partner_dashboard.py:21-30 | a load signals at most one message, and never a success or an info message |
| Defaults.DefaultCapabilitiesShape | ai_partner_dashboard.py:42-53 | the default capabilities literal is rectangular, its columns are exactly the required capabilities columns in order, each has 5 values, and its table has 5 rows and passes the schema check |
| Defaults.DefaultMemoryStackShape | ai_partner_dashboard.py:55-69 | the default memory-stack literal is rectangular, its columns are exactly the required memory-stack columns in order, each has 6 values, its table has 6 rows and passes the schema check, and every `Editable` cell is "Yes" |
| Dashboard.DefaultShape | ai_partner_dashboard.py:11-12 | the default of each table kind is rectangular, has that kind's fixed row count and passes that kind's required-column check |
| Dashboard.LoadKind | ai_partner_dashboard.py:72-73 | whatever the read gave, the table loaded on each run of the script has every required column; no message is signalled exactly when the read table passes the check, and then the table is the one read; a signalled load shows exactly that kind's default table, with its fixed number of rows |
| Dashboard.RenderDashboard | ai_partner_dashboard.py:76-96 | an unedited table shows only "no changes" and nothing is saved; a save is offered exactly when the table was edited and made exactly when it was edited and the button pressed, writing the edited table to that kind's file; success is reported exactly when the save was made and the write completed, an error exactly when the save was made and the write failed; an edited table with the button not pressed shows no message, and a save shows exactly one message, the success or the error |
| Dashboard.SavedTableReloads | ai_partner_dashboard.py:80-83 | after a reported successful save of an edited table that has the required columns, reading that table back on the next run of the script loads it unchanged with no message |
| Dashboard.MalformedCapabilitiesFile | ai_partner_dashboard.py:72 | a capabilities file whose only column is `Category` is rejected with a warning and the five-row default capabilities table is loaded |

## Left out

- Streamlit page setup, tabs, the table editor, buttons and message text (lines 15-18 and 76-105) are UI. Only the decisions they show are modelled: which messages, whether a save is offered and whether it is made.
- CSV parsing and writing (`read_csv`, `to_csv`) are library internals. Their quoting, type inference and index handling are not modelled. A read is an input that gives a table or a failure, and a write is an input that completes or fails.
- Store.SaveThenLoad and Dashboard.SavedTableReloads assume that reading the written CSV gives back the same table. The model does not show this, because the CSV format is not modelled.
- Tables.SameTable is plain structural equality. Data-frame equality details such as dtypes and NaN handling are not modelled.
- File paths only appear in message text and as the save target. The load does not use its path, because the read result is an input.
- The two render functions are one member, `RenderDashboard`, parameterised by table kind, because they differ only in their constants.
- A Python dictionary cannot repeat a key. The column literals are sequences, so this is not enforced, but both defaults have distinct names.
- No credential store or login gate appears in `ai_partner_dashboard.py`; none is modelled.
- `save_data` returns only a boolean and shows the failure's cause in its error message; the model keeps the boolean and the message kind.
- Store.LoadData requires a rectangular default: building a data frame from lists of different lengths raises, and that happens outside the guarded region, so such a default would make the load fail. Both defaults are rectangular (Dashboard.DefaultShape), so no call in the script reaches that case.
- Neither `Level (1-5)` ranges nor `Editable` values are checked. The code checks neither.
