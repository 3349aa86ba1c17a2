/** The column heuristics of the CRUD page (4_Crud_Operations.py:80-372):
    which column is taken as the key, how a player's columns are grouped,
    which input each column of a create or update form gets, and which
    statement a filled-in form turns into.

    A column is described by its name, the text of its pandas dtype (the
    create form inspects that text) and pandas' verdicts on it: whether it
    is numeric and whether it is a datetime (the update forms ask pandas).
    Those two verdicts are inputs: pandas is not part of this model. */
module Forms {
  import opened Text
  import opened Statements
  import Sidebar

  datatype Column = Column(name: string, dtype: string, numeric: bool, datetime: bool)

  /** The input a form shows for a column. `NumberInput(true)` is started
      at the integer 0, `NumberInput(false)` at a float. */
  datatype Widget = NumberInput(integral: bool) | DateInput | DateTimeInput | TextInput

  type Field = (string, Widget)

  // ---------------------------------------------------------------------
  // Primary key guess

  const KeyHints: seq<string> := ["id", "pk", "primary"]

  predicate KeyLike(name: string)
  {
    ContainsAny(Lower(name), KeyHints)
  }

  /** `get_primary_key_column`: the first column whose lower-cased name
      contains `id`, `pk` or `primary`; failing that the first column,
      unless the frame is empty (no rows or no columns), when there is no
      key. */
  method PrimaryKeyColumn(columns: seq<string>, rowCount: nat) returns (r: Option<string>)
    ensures (exists i :: 0 <= i < |columns| && KeyLike(columns[i])) ==>
              exists i :: 0 <= i < |columns| && r == Some(columns[i]) && KeyLike(columns[i])
                          && forall j :: 0 <= j < i ==> !KeyLike(columns[j])
    ensures (forall i :: 0 <= i < |columns| ==> !KeyLike(columns[i])) ==>
              r == if rowCount == 0 || |columns| == 0 then None else Some(columns[0])
  {
    var k := 0;
    while k < |columns|
      invariant 0 <= k <= |columns|
      invariant forall j :: 0 <= j < k ==> !KeyLike(columns[j])
    {
      if KeyLike(columns[k]) {
        return Some(columns[k]);
      }
      k := k + 1;
    }
    if rowCount == 0 || |columns| == 0 {
      r := None;
    } else {
      r := Some(columns[0]);
    }
  }

  // ---------------------------------------------------------------------
  // Grouping a player's columns (4_Crud_Operations.py:170-180)

  datatype Group = Batting | Bowling | Personal

  const BattingHints: seq<string> := ["bat", "runs", "average", "sr", "50s", "100s", "innings", "matches"]
  const BowlingHints: seq<string> := ["bowl", "wickets", "eco", "maiden", "overs"]

  /** Batting hints are tried first, bowling hints second. */
  function GroupOf(name: string): (r: Group)
    ensures r == Batting <==> ContainsAny(Lower(name), BattingHints)
    ensures r == Bowling <==> !ContainsAny(Lower(name), BattingHints) && ContainsAny(Lower(name), BowlingHints)
    ensures r == Personal <==> !ContainsAny(Lower(name), BattingHints) && !ContainsAny(Lower(name), BowlingHints)
  {
    if ContainsAny(Lower(name), BattingHints) then Batting
    else if ContainsAny(Lower(name), BowlingHints) then Bowling
    else Personal
  }

  /** The entries of `row` whose column falls in group `g`, in order. */
  function InGroup(row: Row, g: Group): (r: Row)
    ensures |r| <= |row|
  {
    if row == [] then []
    else InGroup(row[..|row| - 1], g)
         + (if GroupOf(row[|row| - 1].0) == g then [row[|row| - 1]] else [])
  }

  /** The loop of 174-180: each column of the player's row goes to the
      first group whose hints it matches. */
  method GroupColumns(player: Row) returns (batting: Row, bowling: Row, personal: Row)
    ensures batting == InGroup(player, Batting)
    ensures bowling == InGroup(player, Bowling)
    ensures personal == InGroup(player, Personal)
  {
    batting, bowling, personal := [], [], [];
    var k := 0;
    while k < |player|
      invariant 0 <= k <= |player|
      invariant batting == InGroup(player[..k], Batting)
      invariant bowling == InGroup(player[..k], Bowling)
      invariant personal == InGroup(player[..k], Personal)
    {
      assert player[..k + 1][..k] == player[..k];
      var (col, value) := player[k];
      var g := GroupOf(col);
      if g == Batting {
        batting := batting + [(col, value)];
      } else if g == Bowling {
        bowling := bowling + [(col, value)];
      } else {
        personal := personal + [(col, value)];
      }
      k := k + 1;
    }
    assert player[..k] == player;
  }

  /** Every entry lands in exactly one group: the three groups together are
      a rearrangement of the row. */
  lemma {:induction false} GroupsPartition(row: Row)
    ensures multiset(InGroup(row, Batting)) + multiset(InGroup(row, Bowling))
            + multiset(InGroup(row, Personal)) == multiset(row)
  {
    if row != [] {
      var init, last := row[..|row| - 1], row[|row| - 1];
      GroupsPartition(init);
      assert row == init + [last];
    }
  }

  /** An entry is in a group exactly when it is in the row and its column
      belongs to that group. */
  lemma {:induction false} InGroupMembership(row: Row, g: Group, e: (string, Value))
    ensures e in InGroup(row, g) <==> e in row && GroupOf(e.0) == g
  {
    if row != [] {
      var init, last := row[..|row| - 1], row[|row| - 1];
      InGroupMembership(init, g, e);
      assert row == init + [last];
    }
  }

  /** A column mentioning runs goes to the batting group even when it also
      mentions bowling: the batting hints are tried first. */
  lemma RunsBeatBowl(name: string)
    requires Contains(Lower(name), "runs") && Contains(Lower(name), "bowl")
    ensures GroupOf(name) == Batting
  {
    assert BattingHints[1] == "runs";
  }

  /** For instance, runs conceded by a bowler are filed as batting. */
  lemma RunsConcededIsBatting()
    ensures GroupOf("Runs_Conceded_bowl") == Batting
  {
    var low := Lower("Runs_Conceded_bowl");
    assert low[0..4] == "runs";
    assert OccursAt(low, "runs", 0);
    assert BattingHints[1] == "runs";
  }

  // ---------------------------------------------------------------------
  // Create form (4_Crud_Operations.py:271-287)

  const TimestampHints: seq<string> := ["created_at", "updated_at"]

  /** Columns the database fills in itself, judged by name. */
  predicate Timestamp(name: string)
  {
    ContainsAny(Lower(name), TimestampHints)
  }

  /** The input for a dtype text, tried in the source's order. */
  function CreateWidget(dtype: string): (r: Widget)
    ensures r == NumberInput(true) <==> Contains(dtype, "int")
    ensures r == NumberInput(false) <==>
              !Contains(dtype, "int") && (Contains(dtype, "float") || Contains(dtype, "decimal"))
    ensures r == DateInput <==> !r.NumberInput? && Contains(dtype, "date")
    ensures r == TextInput <==>
              !Contains(dtype, "int") && !Contains(dtype, "float") && !Contains(dtype, "decimal")
              && !Contains(dtype, "date") && !Contains(dtype, "datetime")
  {
    if Contains(dtype, "int") then NumberInput(true)
    else if Contains(dtype, "float") || Contains(dtype, "decimal") then NumberInput(false)
    else if Contains(dtype, "date") then DateInput
    else if Contains(dtype, "datetime") then DateTimeInput
    else TextInput
  }

  /** The datetime branch is dead: every dtype text that mentions
      `datetime` also mentions `date`, which is checked first. */
  lemma DateTimeUnreachable(dtype: string)
    ensures CreateWidget(dtype) != DateTimeInput
  {
    if Contains(dtype, "datetime") {
      assert OccursAt("datetime", "date", 0);
      ContainsTrans(dtype, "datetime", "date");
    }
  }

  /** The create form's fields: every non-timestamp column, in order. */
  function CreateFields(columns: seq<Column>): seq<Field>
  {
    if columns == [] then []
    else
      var c := columns[|columns| - 1];
      CreateFields(columns[..|columns| - 1])
      + (if Timestamp(c.name) then [] else [(c.name, CreateWidget(c.dtype))])
  }

  /** The loop of 274-287. */
  method BuildCreateForm(columns: seq<Column>) returns (fields: seq<Field>)
    ensures fields == CreateFields(columns)
    ensures forall k :: 0 <= k < |fields| ==> !Timestamp(fields[k].0) && fields[k].1 != DateTimeInput
  {
    fields := [];
    var k := 0;
    while k < |columns|
      invariant 0 <= k <= |columns|
      invariant fields == CreateFields(columns[..k])
      invariant forall j :: 0 <= j < |fields| ==> !Timestamp(fields[j].0) && fields[j].1 != DateTimeInput
    {
      assert columns[..k + 1][..k] == columns[..k];
      var c := columns[k];
      if !Timestamp(c.name) {
        DateTimeUnreachable(c.dtype);
        fields := fields + [(c.name, CreateWidget(c.dtype))];
      }
      k := k + 1;
    }
    assert columns[..k] == columns;
  }

  /** Every non-timestamp column is on the create form with the input its
      dtype selects, and every field on it comes from such a column. */
  lemma {:induction false} CreateFieldsMembership(columns: seq<Column>, c: Column)
    ensures c in columns && !Timestamp(c.name) ==> (c.name, CreateWidget(c.dtype)) in CreateFields(columns)
    ensures forall f :: f in CreateFields(columns) ==>
              exists d :: d in columns && !Timestamp(d.name) && f == (d.name, CreateWidget(d.dtype))
  {
    if columns != [] {
      var init := columns[..|columns| - 1];
      var last := columns[|columns| - 1];
      assert columns == init + [last];
      CreateFieldsMembership(init, c);
      forall f | f in CreateFields(columns)
        ensures exists d :: d in columns && !Timestamp(d.name) && f == (d.name, CreateWidget(d.dtype))
      {
        if f in CreateFields(init) {
          var d :| d in init && !Timestamp(d.name) && f == (d.name, CreateWidget(d.dtype));
          assert d in columns;
        } else {
          assert last in columns;
        }
      }
    }
  }

  // ---------------------------------------------------------------------
  // Update form for any table (4_Crud_Operations.py:313-335)

  /** Numeric first, then datetime, then text. */
  function UpdateWidget(c: Column): (r: Widget)
    ensures r.NumberInput? <==> c.numeric
    ensures r.NumberInput? ==> !r.integral
    ensures r == DateInput <==> !c.numeric && c.datetime
    ensures r != DateTimeInput
  {
    if c.numeric then NumberInput(false)
    else if c.datetime then DateInput
    else TextInput
  }

  function UpdateFields(columns: seq<Column>, primaryKey: string): seq<Field>
  {
    if columns == [] then []
    else
      var c := columns[|columns| - 1];
      UpdateFields(columns[..|columns| - 1], primaryKey)
      + (if c.name == primaryKey || Timestamp(c.name) then [] else [(c.name, UpdateWidget(c))])
  }

  /** The loop of 314-335. */
  method BuildUpdateForm(columns: seq<Column>, primaryKey: string) returns (fields: seq<Field>)
    ensures fields == UpdateFields(columns, primaryKey)
    ensures forall k :: 0 <= k < |fields| ==> fields[k].0 != primaryKey && !Timestamp(fields[k].0)
  {
    fields := [];
    var k := 0;
    while k < |columns|
      invariant 0 <= k <= |columns|
      invariant fields == UpdateFields(columns[..k], primaryKey)
      invariant forall j :: 0 <= j < |fields| ==> fields[j].0 != primaryKey && !Timestamp(fields[j].0)
    {
      assert columns[..k + 1][..k] == columns[..k];
      var c := columns[k];
      if c.name != primaryKey && !Timestamp(c.name) {
        fields := fields + [(c.name, UpdateWidget(c))];
      }
      k := k + 1;
    }
    assert columns[..k] == columns;
  }

  /** Every column other than the key and the timestamps is on the update
      form, numeric columns as number inputs, datetime columns as date
      inputs, the rest as text. */
  lemma {:induction false} UpdateFieldsMembership(columns: seq<Column>, primaryKey: string, c: Column)
    ensures c in columns && c.name != primaryKey && !Timestamp(c.name) ==>
              (c.name, UpdateWidget(c)) in UpdateFields(columns, primaryKey)
    ensures forall f :: f in UpdateFields(columns, primaryKey) ==>
              exists d :: d in columns && d.name != primaryKey && !Timestamp(d.name) && f == (d.name, UpdateWidget(d))
  {
    if columns != [] {
      var init := columns[..|columns| - 1];
      var last := columns[|columns| - 1];
      assert columns == init + [last];
      UpdateFieldsMembership(init, primaryKey, c);
      forall f | f in UpdateFields(columns, primaryKey)
        ensures exists d :: d in columns && d.name != primaryKey && !Timestamp(d.name) && f == (d.name, UpdateWidget(d))
      {
        if f in UpdateFields(init, primaryKey) {
          var d :| d in init && d.name != primaryKey && !Timestamp(d.name) && f == (d.name, UpdateWidget(d));
          assert d in columns;
        } else {
          assert last in columns;
        }
      }
    }
  }

  // ---------------------------------------------------------------------
  // Update form for a player (4_Crud_Operations.py:182-237)

  const PlayerKey := "playerId"

  /** Personal columns: the player id is left out, and a numeric column
      whose name mentions `id` is edited as text. */
  function PersonalFields(personal: Row, numeric: set<string>): seq<Field>
  {
    if personal == [] then []
    else
      var col := personal[|personal| - 1].0;
      PersonalFields(personal[..|personal| - 1], numeric)
      + (if col == PlayerKey then []
         else if col in numeric && !Contains(Lower(col), "id") then [(col, NumberInput(false))]
         else [(col, TextInput)])
  }

  /** Batting and bowling columns: numeric columns as numbers, the rest as
      text. */
  function StatFields(stats: Row, numeric: set<string>): seq<Field>
  {
    if stats == [] then []
    else
      var col := stats[|stats| - 1].0;
      StatFields(stats[..|stats| - 1], numeric)
      + [(col, if col in numeric then NumberInput(false) else TextInput)]
  }

  /** The three loops of 186-225, personal columns first. */
  method BuildPlayerForm(personal: Row, batting: Row, bowling: Row, numeric: set<string>)
    returns (fields: seq<Field>)
    ensures fields == PersonalFields(personal, numeric) + StatFields(batting, numeric)
                      + StatFields(bowling, numeric)
  {
    fields := [];
    var k := 0;
    while k < |personal|
      invariant 0 <= k <= |personal|
      invariant fields == PersonalFields(personal[..k], numeric)
    {
      assert personal[..k + 1][..k] == personal[..k];
      var col := personal[k].0;
      if col != PlayerKey {
        if col in numeric && !Contains(Lower(col), "id") {
          fields := fields + [(col, NumberInput(false))];
        } else {
          fields := fields + [(col, TextInput)];
        }
      }
      k := k + 1;
    }
    assert personal[..k] == personal;
    var afterPersonal := fields;
    k := 0;
    while k < |batting|
      invariant 0 <= k <= |batting|
      invariant fields == afterPersonal + StatFields(batting[..k], numeric)
    {
      assert batting[..k + 1][..k] == batting[..k];
      var col := batting[k].0;
      fields := fields + [(col, if col in numeric then NumberInput(false) else TextInput)];
      k := k + 1;
    }
    assert batting[..k] == batting;
    var afterBatting := fields;
    k := 0;
    while k < |bowling|
      invariant 0 <= k <= |bowling|
      invariant fields == afterBatting + StatFields(bowling[..k], numeric)
    {
      assert bowling[..k + 1][..k] == bowling[..k];
      var col := bowling[k].0;
      fields := fields + [(col, if col in numeric then NumberInput(false) else TextInput)];
      k := k + 1;
    }
    assert bowling[..k] == bowling;
  }

  /** The player id is never on the personal part of the form, and a
      personal column is a number input only when it is numeric and its
      name does not mention `id`. */
  lemma {:induction false} PersonalFieldsShape(personal: Row, numeric: set<string>)
    ensures forall f :: f in PersonalFields(personal, numeric) ==>
              f.0 != PlayerKey
              && (f.1 == NumberInput(false) <==> f.0 in numeric && !Contains(Lower(f.0), "id"))
              && (f.1 == NumberInput(false) || f.1 == TextInput)
  {
    if personal != [] {
      PersonalFieldsShape(personal[..|personal| - 1], numeric);
    }
  }

  /** Every personal column other than `playerId` is on the personal part
      of the form, with a number input when it is numeric and its name does
      not mention `id`, and a text input otherwise. */
  lemma {:induction false} PersonalFieldsMembership(personal: Row, numeric: set<string>, k: nat)
    requires k < |personal| && personal[k].0 != PlayerKey
    ensures var col := personal[k].0;
            (col, if col in numeric && !Contains(Lower(col), "id") then NumberInput(false) else TextInput)
              in PersonalFields(personal, numeric)
    decreases |personal|
  {
    if k < |personal| - 1 {
      PersonalFieldsMembership(personal[..|personal| - 1], numeric, k);
    }
  }

  /** Every batting or bowling column is on its part of the form, as a
      number input when it is numeric and as text otherwise. */
  lemma {:induction false} StatFieldsMembership(stats: Row, numeric: set<string>, k: nat)
    requires k < |stats|
    ensures var col := stats[k].0;
            (col, if col in numeric then NumberInput(false) else TextInput) in StatFields(stats, numeric)
    decreases |stats|
  {
    if k < |stats| - 1 {
      StatFieldsMembership(stats[..|stats| - 1], numeric, k);
    }
  }

  // ---------------------------------------------------------------------
  // From a filled-in form to a statement

  /** The dict comprehension of 229: the entries whose value is not
      `None`, in order. */
  function DropNulls(fields: Row): (r: Row)
    ensures |r| <= |fields|
    ensures forall e :: e in r <==> e in fields && e.1 != NullVal
    ensures r == fields <==> forall k :: 0 <= k < |fields| ==> fields[k].1 != NullVal
  {
    if fields == [] then []
    else
      var rest := DropNulls(fields[..|fields| - 1]);
      var last := fields[|fields| - 1];
      assert fields == fields[..|fields| - 1] + [last];
      if last.1 == NullVal then rest else rest + [last]
  }

  /** Filtering keeps the order of the entries: filtering a concatenation
      is concatenating the filtered parts. */
  lemma {:induction false} DropNullsAppend(a: Row, b: Row)
    ensures DropNulls(a + b) == DropNulls(a) + DropNulls(b)
    decreases |b|
  {
    if b != [] {
      var init, last := b[..|b| - 1], b[|b| - 1];
      assert (a + b)[..|a + b| - 1] == a + init;
      assert (a + b)[|a + b| - 1] == last;
      DropNullsAppend(a, init);
    } else {
      assert a + b == a;
    }
  }

  /** A single entry is kept exactly when its value is not `None`. */
  lemma DropNullsSingle(e: (string, Value))
    ensures DropNulls([e]) == if e.1 == NullVal then [] else [e]
  {
    assert [e][..0] == [];
  }

  /** The update button of the player form (227-237): without a field
      left there is nothing to send; otherwise the player's row is
      updated by `playerId`. */
  function PlayerUpdate(fields: Row, playerId: Value): (r: Option<Statement>)
    ensures r.None? <==> forall k :: 0 <= k < |fields| ==> fields[k].1 == NullVal
    ensures r.Some? ==> r.value == Update(PlayersTable, PlayerKey, playerId, DropNulls(fields))
  {
    var kept := DropNulls(fields);
    if kept == [] then None
    else Some(Update(PlayersTable, PlayerKey, playerId, kept))
  }

  /** A statement the player form sends binds no `None` in its SET
      clause, and binds the player id last. */
  lemma PlayerUpdateBindsNoNull(fields: Row, playerId: Value)
    requires PlayerUpdate(fields, playerId).Some?
    ensures var ps := PlayerUpdate(fields, playerId).value.params.value;
            |ps| >= 2 && ps[|ps| - 1] == playerId
            && forall k :: 0 <= k < |ps| - 1 ==> ps[k] != NullVal
  {
  }

  /** The add button of the create form (289-297): the insert is sent
      only when every input holds a value. */
  function CreateInsert(table: string, inputs: Row): (r: Option<Statement>)
    ensures r.Some? <==> forall k :: 0 <= k < |inputs| ==> inputs[k].1 != NullVal
    ensures r.Some? ==> r.value.params.Some? && forall v :: v in r.value.params.value ==> v != NullVal
    ensures r.Some? ==> r.value == Insert(table, inputs)
  {
    if forall k :: 0 <= k < |inputs| ==> inputs[k].1 != NullVal
    then Some(Insert(table, inputs))
    else None
  }

  // ---------------------------------------------------------------------
  // The table allow-list

  /** The two fixed lookups read tables the sidebar also offers. */
  lemma LookupTablesListed()
    ensures HighestScoresTable in Sidebar.Tables && PlayersTable in Sidebar.Tables
  {
  }
}
