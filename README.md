# Cricket database CRUD page — a Dafny model

This project models the logic of the table-editing page of a cricket
statistics dashboard (`4_Crud_Operations.py`). The page has three parts:

* **`CricketCRUD`**. A data-access object that owns one database
  connection. Its builders turn a table name, a key column and an ordered
  row into an SQL text with `%s` placeholders and a parameter tuple.
  `execute_query` runs the statement, commits, and returns the fetched rows
  or the row count. On any failure it returns `None`.
* **Column heuristics**. These guess a table's key column from column names,
  sort a player's columns into batting, bowling and personal groups, and
  choose an input widget for each column of the create and update forms.
* **Form submission**. This drops `None` values from a filled-in form and
  decides whether an insert or update statement is sent.

Modules:

| file | module | what it holds |
|---|---|---|
| `text.dfy` | `Text` | ASCII `lower()`, substring tests (`in`), `', '.join` |
| `statements.dfy` | `Statements` | the statement builders, placeholder counting, and `Bind`/`Interpolate`, a reference binding of parameters to placeholders |
| `crud.dfy` | `Crud` | `CricketCrud`, a class with the connection, a commit counter and the log of sent statements; the outcome of `execute_query` |
| `forms.dfy` | `Forms` | key guess, column grouping, create/update/player forms, the `None` filter and the submit guards |
| `sidebar.dfy` | `Sidebar` | the fixed list of tables offered to the user |

The builders are pure functions, as in the source, where they are
comprehensions and joins. `CricketCRUD` updates its connection by
committing, so it is a class whose methods have `modifies` clauses. The
loops that fill the form dictionaries step by step are methods with loop
invariants. Each such method is proved equal to a recursive specification
function, and lemmas state what that function guarantees. Python
dictionaries are sequences of pairs, so that insertion order (which
decides parameter order) is kept.

`Interpolate` is what the server would see if each `%s` were replaced, left
to right, by the literal form `lit(v)` of the matching parameter. `lit` is
any function, so no escaping rule is assumed. A statement without a
parameter tuple is sent as written. The binding lemmas use `Interpolate` to
state which value ends up next to which column. Their hypotheses say that
the table, key and column names contain no `%`. A `%` in a spliced name
would be read by the driver's `%` formatting: it can add a placeholder, or
make the statement fail. The source does not guard against that.

## Model

| member | source | states |
|---|---|---|
| `Statements.SelectAll` | 4_Crud_Operations.py:44-46 | The text is `` SELECT * FROM `table` `` plus a space, then the where clause character for character, then ` LIMIT 1000`. No parameters are bound. |
| `Statements.UnboundSentVerbatim` | 4_Crud_Operations.py:44-46 | Statements with no parameter tuple (`get_table_data`, `get_all_player_ids`) reach the server unchanged, including any `%` in the where clause. |
| `Statements.HighestScoresByFormat` | 4_Crud_Operations.py:48-50 | The parameter tuple is the one-element tuple `(format_type,)`. |
| `Statements.PlayerById` | 4_Crud_Operations.py:52-54 | The parameter tuple is the one-element tuple `(player_id,)`. |
| `Statements.HighestScoresBinds` | 4_Crud_Operations.py:48-50 | Its single parameter is bound as the value compared with `Format` in `highest_scores`. |
| `Statements.PlayerByIdBinds` | 4_Crud_Operations.py:52-54 | Its single parameter is bound as the `playerId` looked up in `players_with_stats`. |
| `Statements.Insert` | 4_Crud_Operations.py:56-60 | The parameter tuple has one entry per row entry: the row's values, in the row's order. |
| `Statements.InsertBinds` | 4_Crud_Operations.py:56-60 | After binding, the VALUES list holds the literals of the row's values in the same order as the backticked column list. |
| `Statements.InsertPlaceholders` | 4_Crud_Operations.py:56-60 | The insert text contains exactly one `%s` per column. |
| `Statements.Update` | 4_Crud_Operations.py:62-66 | The parameters are the row's values in order, then `pk_value`: one more than the number of SET items. The key value is last. |
| `Statements.UpdateBinds` | 4_Crud_Operations.py:62-66 | After binding, the i-th SET item gives the i-th column the literal of its own value. The WHERE clause compares the key column with the key value. |
| `Statements.UpdatePlaceholders` | 4_Crud_Operations.py:62-66 | The update text contains one `%s` per SET item plus one for the key. |
| `Statements.Delete` | 4_Crud_Operations.py:68-70 | The only parameter is `pk_value`. |
| `Statements.DeleteBinds` | 4_Crud_Operations.py:68-70 | After binding, the WHERE clause compares the key column with the key value. The text has exactly one `%s`. |
| `Statements.AllPlayerIds` | 4_Crud_Operations.py:72-74 | The fixed player listing binds no parameters. |
| `Statements.BindDefinedIff` | 4_Crud_Operations.py:32 | Binding succeeds exactly when there is one argument for each `%s` in the text. |
| `Statements.BindAssignments` | 4_Crud_Operations.py:63-65 | Binding the joined SET items puts the i-th argument after the i-th column, whatever follows the clause. |
| `Crud.Outcome` | 4_Crud_Operations.py:29-42 | The result is `None` unless there is a connection, the driver answered and the commit succeeded. On success it is the fetched rows when `fetch` is set and the row count otherwise. |
| `Crud.CricketCrud.constructor` | 4_Crud_Operations.py:26-27 | The object keeps the connection it was given, or none, with no commits and nothing sent. |
| `Crud.CricketCrud.ExecuteQuery` | 4_Crud_Operations.py:29-42 | It returns `Outcome`. A commit is recorded exactly when the result is not `None`. The statement is sent whenever there is a connection. The connection is unchanged. |
| `Crud.CricketCrud.GetTableData` | 4_Crud_Operations.py:44-46 | Sends `SelectAll(table, where)` and fetches rows. |
| `Crud.CricketCrud.GetHighestScoresByFormat` | 4_Crud_Operations.py:48-50 | Sends the format lookup and fetches rows. |
| `Crud.CricketCrud.GetPlayerById` | 4_Crud_Operations.py:52-54 | Sends the player lookup and fetches rows. |
| `Crud.CricketCrud.InsertData` | 4_Crud_Operations.py:56-60 | Sends `Insert(table, data)` and returns a row count, never rows. |
| `Crud.CricketCrud.UpdateData` | 4_Crud_Operations.py:62-66 | Sends `Update(...)` and returns a row count, never rows. |
| `Crud.CricketCrud.DeleteData` | 4_Crud_Operations.py:68-70 | Sends `Delete(...)` and returns a row count, never rows. |
| `Crud.CricketCrud.GetAllPlayerIds` | 4_Crud_Operations.py:72-74 | Sends the fixed player listing and fetches rows. |
| `Forms.PrimaryKeyColumn` | 4_Crud_Operations.py:81-85 | If some column's lower-cased name contains `id`, `pk` or `primary`, the result is the first such column in order. Otherwise it is the first column, or `None` when the frame has no rows or no columns. |
| `Forms.GroupColumns` | 4_Crud_Operations.py:170-180 | The three groups are the entries of the player's row whose column falls in each group, in row order. |
| `Forms.GroupOf` | 4_Crud_Operations.py:175-180 | A column is batting exactly when its lower-cased name contains a batting hint. It is bowling exactly when it contains no batting hint and some bowling hint. Otherwise it is personal. |
| `Forms.GroupsPartition` | 4_Crud_Operations.py:174-180 | Together, the batting, bowling and personal groups are a rearrangement of the row. Every column lands in exactly one group. |
| `Forms.InGroupMembership` | 4_Crud_Operations.py:174-180 | An entry is in a group exactly when it is in the row and its name selects that group. |
| `Forms.RunsBeatBowl` | 4_Crud_Operations.py:175-177 | A name containing both `runs` and `bowl` is filed under batting, because batting hints are tried first. |
| `Forms.RunsConcededIsBatting` | 4_Crud_Operations.py:175-177 | `Runs_Conceded_bowl` is filed under batting. |
| `Forms.CreateWidget` | 4_Crud_Operations.py:278-287 | An integer input exactly when the dtype text mentions `int`. A float input exactly when it mentions `float` or `decimal` but not `int`. A date input exactly when no number input applies and it mentions `date`. Text exactly when it mentions none of `int`, `float`, `decimal`, `date` or `datetime`. |
| `Forms.DateTimeUnreachable` | 4_Crud_Operations.py:278-285 | No dtype text reaches the `datetime` branch. `datetime` contains `date`, which is checked first. |
| `Forms.BuildCreateForm` | 4_Crud_Operations.py:271-287 | The fields are the non-timestamp columns in order, each with the widget its dtype text selects. No field is a timestamp and none is a datetime input. |
| `Forms.CreateFieldsMembership` | 4_Crud_Operations.py:274-287 | Every column whose name mentions neither `created_at` nor `updated_at` is on the create form with its dtype's widget. Conversely, every field on the form is such a column with its dtype's widget, so no timestamp column is on it. |
| `Forms.UpdateWidget` | 4_Crud_Operations.py:318-335 | A number input (float, never integral) exactly when the column is numeric. A date input exactly when it is a non-numeric datetime column. Never a date-time input. |
| `Forms.BuildUpdateForm` | 4_Crud_Operations.py:313-335 | The fields are the columns other than the key and the timestamps, in order. The key column and timestamp columns are never on the form. |
| `Forms.UpdateFieldsMembership` | 4_Crud_Operations.py:314-335 | Every column other than the key and the timestamps is on the update form with its `UpdateWidget`. Conversely, every field on the form is such a column with its `UpdateWidget`. |
| `Forms.BuildPlayerForm` | 4_Crud_Operations.py:182-225 | The player form lists the personal fields first, then batting, then bowling. |
| `Forms.PersonalFieldsShape` | 4_Crud_Operations.py:186-197 | `playerId` is never on the personal part. A field there is a number input exactly when its column is numeric and its name does not mention `id`. Every other field there is text. |
| `Forms.PersonalFieldsMembership` | 4_Crud_Operations.py:186-197 | Every personal column other than `playerId` is on the form: a number input when it is numeric and its name does not mention `id`, text otherwise. |
| `Forms.StatFieldsMembership` | 4_Crud_Operations.py:199-225 | Every batting or bowling column is on the form: a number input when it is numeric, text otherwise. |
| `Forms.DropNulls` | 4_Crud_Operations.py:229 | Keeps exactly the entries whose value is not `None`. The form is unchanged exactly when it holds no `None`. |
| `Forms.DropNullsAppend` | 4_Crud_Operations.py:229 | Filtering a concatenation is concatenating the filtered parts, so the kept entries stay in insertion order. |
| `Forms.DropNullsSingle` | 4_Crud_Operations.py:229 | A single entry is kept exactly when its value is not `None`. |
| `Forms.PlayerUpdate` | 4_Crud_Operations.py:227-237 | No statement is sent exactly when every field is `None`. Otherwise the statement is `Update` of `players_with_stats` by `playerId` on the entries `DropNulls` keeps, so `UpdateBinds` and `DropNullsAppend` describe the text sent. |
| `Forms.PlayerUpdateBindsNoNull` | 4_Crud_Operations.py:229-231 | A statement the player form sends binds no `None` in its SET clause. It binds the player id last. |
| `Forms.CreateInsert` | 4_Crud_Operations.py:289-297 | The insert is built exactly when every input holds a value. It is then `Insert(table, inputs)`, so `InsertBinds` describes the text sent, and it binds no `None`. |
| `Forms.LookupTablesListed` | 4_Crud_Operations.py:101-110 | The tables read by the two fixed lookups are both on the sidebar's list. |
| `Sidebar.ListedTables` | 4_Crud_Operations.py:101-110 | The list has 19 entries. `highest_scores` and `players_with_stats` are among them. No listed name contains `%`, so every table the page offers meets the table hypothesis of the binding lemmas. |

## Left out

- The database and its driver. Row counts, constraint errors, whether a key matches a row, and the driver's escaping of values are not modelled. What the driver does with a statement is an input (`Crud.Response`, plus whether the commit succeeds).
- `get_connection` and `close`, and the credentials. The constructor receives a connection handle or none.
- The Streamlit widgets, messages, `time.sleep` and `st.rerun`. The forms are modelled down to which widget kind each column gets, not the values a user types.
- The default values widgets start with: `float(value)` and `str(value)` on existing values (190, 195, 204, 209, 218, 223, 321, 333) are not modelled, and neither is the `datetime.now().date()` default of the date input (327).
- The player's columns: `df.columns` is taken to be the keys of the first fetched row, in order. The grouping loop reads its values from that row.
- pandas. `is_numeric_dtype` and `is_datetime64_any_dtype` are per-column booleans given as input. `str(df[col].dtype)` is given as a text. A frame's `empty` is modelled as "no rows or no columns".
- The page's flow in `main` (88-376): which branch the sidebar selection leads to, the player selection box (147-153), the record selection (302-307, 351-356) and the delete confirmation (361-364). This is presentation logic. The statements that flow leads to are modelled.
- Text.Lower: folds only ASCII letters, while Python's `str.lower()` folds all of Unicode. Column names on these tables are ASCII.
- Statements.Bind: only `%s` is treated as a placeholder. The Python `%` operator used by the driver also reads `%%` and other conversions. The binding lemmas therefore assume table, key and column names contain no `%`. For the table name, `Sidebar.ListedTables` proves this of every table the page offers.
- The 1000-row cap on fetched rows: `LIMIT 1000` is in the statement text (stated by `SelectAll`), but the database enforces the cap, and the database is not modelled.
