/** The SQL statements `CricketCRUD` sends to the database
    (4_Crud_Operations.py:44-74). Every builder is pure: it turns a table
    name, a key column and an ordered row into a statement text with `%s`
    placeholders and the tuple of parameters the driver binds to them.

    `Interpolate` is a reference for what binding means: the i-th `%s`
    of the text, read left to right, is replaced by the literal form of
    the i-th parameter. It is used to state, for each builder, which
    column each parameter ends up next to. */
module Statements {
  import opened Text

  datatype Option<T> = None | Some(value: T)

  /** A scalar cell value as the driver receives it. */
  datatype Value =
    | IntVal(i: int)
    | RealVal(x: real)
    | TextVal(s: string)
    | DateVal(year: int, month: int, day: int)
    | NullVal

  /** A Python dict from column name to value; insertion order is kept. */
  type Row = seq<(string, Value)>

  /** A statement text and its parameters; `None` is a call of
      `execute_query` that passes no parameter tuple at all. */
  datatype Statement = Statement(sql: string, params: Option<seq<Value>>)

  function Values(row: Row): (r: seq<Value>)
    ensures |r| == |row| && forall i :: 0 <= i < |row| ==> r[i] == row[i].1
  {
    seq(|row|, i requires 0 <= i < |row| => row[i].1)
  }

  /** An identifier in MySQL backticks. */
  function Quote(name: string): string
  {
    "`" + name + "`"
  }

  /** `', '.join([f"`{key}`" for key in data.keys()])` */
  function ColumnList(data: Row): string
  {
    Join(", ", seq(|data|, i requires 0 <= i < |data| => Quote(data[i].0)))
  }

  /** `', '.join(['%s'] * n)` */
  function PlaceholderList(n: nat): string
  {
    Join(", ", seq(n, _ => "%s"))
  }

  /** The items of `', '.join([f"`{key}` = %s" for key in data.keys()])` */
  function Assignments(data: Row): seq<string>
  {
    seq(|data|, i requires 0 <= i < |data| => Quote(data[i].0) + " = %s")
  }

  /** `get_table_data`: every column of up to 1000 rows, with the caller's
      clause copied in unchanged and no parameters. */
  function SelectAll(table: string, whereClause: string): (r: Statement)
    ensures r.params == None
    ensures |r.sql| == 15 + |table| + 2 + |whereClause| + 11
    ensures r.sql[..15] == "SELECT * FROM `" && r.sql[15..15 + |table|] == table
    ensures r.sql[15 + |table|..15 + |table| + 2] == "` "
    ensures r.sql[15 + |table| + 2..|r.sql| - 11] == whereClause
    ensures r.sql[|r.sql| - 11..] == " LIMIT 1000"
  {
    Statement("SELECT * FROM `" + table + "` " + whereClause + " LIMIT 1000", None)
  }

  /** The two tables the fixed lookups read. */
  const HighestScoresTable := "highest_scores"
  const PlayersTable := "players_with_stats"

  /** `get_highest_scores_by_format` */
  function HighestScoresByFormat(formatType: Value): (r: Statement)
    ensures r.params == Some([formatType])
  {
    Statement("SELECT * FROM `" + HighestScoresTable + "` WHERE Format = %s", Some([formatType]))
  }

  /** `get_player_by_id` */
  function PlayerById(playerId: Value): (r: Statement)
    ensures r.params == Some([playerId])
  {
    Statement("SELECT * FROM `" + PlayersTable + "` WHERE playerId = %s", Some([playerId]))
  }

  /** `get_all_player_ids` */
  function AllPlayerIds(): (r: Statement)
    ensures r.params == None
  {
    Statement("SELECT playerId, playerName FROM `" + PlayersTable + "` ORDER BY playerId LIMIT 1000", None)
  }

  /** `insert_data`: one backticked column per key and one parameter per
      value, both in the row's order. */
  function Insert(table: string, data: Row): (r: Statement)
    ensures r.params.Some? && |r.params.value| == |data|
    ensures forall i :: 0 <= i < |data| ==> r.params.value[i] == data[i].1
  {
    Statement("INSERT INTO `" + table + "` (" + ColumnList(data) + ") VALUES ("
              + PlaceholderList(|data|) + ")",
              Some(Values(data)))
  }

  /** `update_data`: the row's values, then the key value last. */
  function Update(table: string, primaryKey: string, pkValue: Value, data: Row): (r: Statement)
    ensures r.params.Some? && |r.params.value| == |data| + 1
    ensures forall i :: 0 <= i < |data| ==> r.params.value[i] == data[i].1
    ensures r.params.value[|data|] == pkValue
  {
    Statement("UPDATE `" + table + "` SET " + Join(", ", Assignments(data))
              + " WHERE `" + primaryKey + "` = %s",
              Some(Values(data) + [pkValue]))
  }

  /** `delete_data`: the key value is the only parameter. */
  function Delete(table: string, primaryKey: string, pkValue: Value): (r: Statement)
    ensures r.params == Some([pkValue])
  {
    Statement("DELETE FROM `" + table + "` WHERE `" + primaryKey + "` = %s", Some([pkValue]))
  }

  // ---------------------------------------------------------------------
  // Placeholders and the reference binding

  /** The number of `%s` occurrences, counted left to right without
      overlap. */
  function CountPlaceholders(s: string): nat
    decreases |s|
  {
    if s == [] then 0
    else if |s| >= 2 && s[0] == '%' && s[1] == 's' then 1 + CountPlaceholders(s[2..])
    else CountPlaceholders(s[1..])
  }

  function Prepend(prefix: string, o: Option<string>): Option<string>
  {
    match o
    case None => None
    case Some(s) => Some(prefix + s)
  }

  /** Replaces the i-th `%s` of `s` by `args[i]`; `None` when the counts
      differ (too few or too many arguments). The replacement text is not
      scanned again. */
  function Bind(s: string, args: seq<string>): Option<string>
    decreases |s|
  {
    if s == [] then (if args == [] then Some([]) else None)
    else if |s| >= 2 && s[0] == '%' && s[1] == 's' then
      (if args == [] then None else Prepend(args[0], Bind(s[2..], args[1..])))
    else Prepend([s[0]], Bind(s[1..], args))
  }

  /** The text the server would see: a statement without parameters is
      sent as it is; otherwise each parameter's literal `lit(v)` takes the
      place of its `%s`. */
  function Interpolate(st: Statement, lit: Value -> string): Option<string>
  {
    match st.params
    case None => Some(st.sql)
    case Some(ps) => Bind(st.sql, seq(|ps|, i requires 0 <= i < |ps| => lit(ps[i])))
  }

  /** Binding succeeds exactly when there is one argument per `%s`. */
  lemma {:induction false} BindDefinedIff(s: string, args: seq<string>)
    ensures Bind(s, args).Some? <==> CountPlaceholders(s) == |args|
    decreases |s|
  {
    if s == [] {
    } else if |s| >= 2 && s[0] == '%' && s[1] == 's' {
      if args != [] {
        BindDefinedIff(s[2..], args[1..]);
      }
    } else {
      BindDefinedIff(s[1..], args);
    }
  }

  /** Text without `%` passes through binding unchanged. */
  lemma {:induction false} BindPlainText(s: string, r: string, args: seq<string>)
    requires '%' !in s
    ensures Bind(s + r, args) == Prepend(s, Bind(r, args))
    decreases |s|
  {
    if s != [] {
      assert (s + r)[0] == s[0] && (s + r)[1..] == s[1..] + r;
      BindPlainText(s[1..], r, args);
      assert [s[0]] + s[1..] == s;
      match Bind(r, args) {
        case None =>
        case Some(t) => assert [s[0]] + (s[1..] + t) == s + t;
      }
    } else {
      assert s + r == r;
      match Bind(r, args) {
        case None =>
        case Some(t) => assert s + t == t;
      }
    }
  }

  /** A leading `%s` consumes the first argument. */
  lemma BindPlaceholder(r: string, a: string, args: seq<string>)
    ensures Bind("%s" + r, [a] + args) == Prepend(a, Bind(r, args))
  {
    var s := "%s" + r;
    assert s[0] == '%' && s[1] == 's' && s[2..] == r;
    assert ([a] + args)[0] == a && ([a] + args)[1..] == args;
  }

  lemma PrependTwice(a: string, b: string, o: Option<string>)
    ensures Prepend(a, Prepend(b, o)) == Prepend(a + b, o)
  {
    match o {
      case None =>
      case Some(t) => assert a + (b + t) == (a + b) + t;
    }
  }

  /** Binding `', '.join(['%s'] * n)` to n literals gives the literals
      joined in the same order. */
  lemma {:induction false} BindPlaceholderList(lits: seq<string>, tail: string, rest: seq<string>)
    ensures Bind(PlaceholderList(|lits|) + tail, lits + rest)
         == Prepend(Join(", ", lits), Bind(tail, rest))
    decreases |lits|
  {
    var n := |lits|;
    var ps := seq(n, _ => "%s");
    if n == 0 {
      assert PlaceholderList(0) + tail == tail;
      assert lits + rest == rest;
      PrependTwice([], [], Bind(tail, rest));
      match Bind(tail, rest) {
        case None =>
        case Some(t) => assert [] + t == t;
      }
    } else if n == 1 {
      assert PlaceholderList(1) == "%s";
      assert lits + rest == [lits[0]] + rest;
      BindPlaceholder(tail, lits[0], rest);
    } else {
      var more := seq(n - 1, _ => "%s");
      assert ps[1..] == more;
      assert PlaceholderList(n) == "%s" + ", " + PlaceholderList(n - 1);
      var inner := PlaceholderList(n - 1) + tail;
      assert PlaceholderList(n) + tail == "%s" + (", " + inner);
      assert lits + rest == [lits[0]] + (lits[1..] + rest);
      BindPlaceholder(", " + inner, lits[0], lits[1..] + rest);
      BindPlainText(", ", inner, lits[1..] + rest);
      BindPlaceholderList(lits[1..], tail, rest);
      PrependTwice(", ", Join(", ", lits[1..]), Bind(tail, rest));
      PrependTwice(lits[0], ", " + Join(", ", lits[1..]), Bind(tail, rest));
      assert lits[0] + (", " + Join(", ", lits[1..])) == Join(", ", lits);
    }
  }

  /** Every column name of the row is free of `%`. */
  predicate PlainNames(data: Row)
  {
    forall i :: 0 <= i < |data| ==> '%' !in data[i].0
  }

  /** The SET items once bound: each column next to the literal of its
      own value. */
  function BoundAssignments(data: Row, lits: seq<string>): seq<string>
    requires |lits| == |data|
  {
    seq(|data|, i requires 0 <= i < |data| => Quote(data[i].0) + " = " + lits[i])
  }

  /** Binding the SET clause assigns the i-th literal to the i-th column. */
  lemma {:induction false} BindAssignments(data: Row, lits: seq<string>, tail: string, rest: seq<string>)
    requires |lits| == |data| && PlainNames(data)
    ensures Bind(Join(", ", Assignments(data)) + tail, lits + rest)
         == Prepend(Join(", ", BoundAssignments(data, lits)), Bind(tail, rest))
    decreases |data|
  {
    var n := |data|;
    if n == 0 {
      assert Join(", ", Assignments(data)) + tail == tail;
      assert lits + rest == rest;
      match Bind(tail, rest) {
        case None =>
        case Some(t) => assert [] + t == t;
      }
    } else {
      var head := Quote(data[0].0) + " = ";
      assert '%' !in head;
      assert Assignments(data)[0] == head + "%s";
      assert BoundAssignments(data, lits)[0] == head + lits[0];
      assert lits + rest == [lits[0]] + (lits[1..] + rest);
      if n == 1 {
        assert Join(", ", Assignments(data)) == head + "%s";
        assert Join(", ", BoundAssignments(data, lits)) == head + lits[0];
        assert head + "%s" + tail == head + ("%s" + tail);
        assert lits + rest == [lits[0]] + rest;
        BindPlainText(head, "%s" + tail, [lits[0]] + rest);
        BindPlaceholder(tail, lits[0], rest);
        PrependTwice(head, lits[0], Bind(tail, rest));
      } else {
        assert Assignments(data)[1..] == Assignments(data[1..]);
        assert BoundAssignments(data, lits)[1..] == BoundAssignments(data[1..], lits[1..]);
        var inner := Join(", ", Assignments(data[1..])) + tail;
        assert Join(", ", Assignments(data)) + tail == head + ("%s" + (", " + inner));
        BindPlainText(head, "%s" + (", " + inner), [lits[0]] + (lits[1..] + rest));
        BindPlaceholder(", " + inner, lits[0], lits[1..] + rest);
        BindPlainText(", ", inner, lits[1..] + rest);
        BindAssignments(data[1..], lits[1..], tail, rest);
        var boundRest := Join(", ", BoundAssignments(data[1..], lits[1..]));
        PrependTwice(", ", boundRest, Bind(tail, rest));
        PrependTwice(lits[0], ", " + boundRest, Bind(tail, rest));
        PrependTwice(head, lits[0] + (", " + boundRest), Bind(tail, rest));
        assert head + (lits[0] + (", " + boundRest)) == Join(", ", BoundAssignments(data, lits));
      }
    }
  }

  /** The literal forms of a row's values, in the row's order. */
  function Literals(vs: seq<Value>, lit: Value -> string): (r: seq<string>)
    ensures |r| == |vs| && forall i :: 0 <= i < |vs| ==> r[i] == lit(vs[i])
  {
    seq(|vs|, i requires 0 <= i < |vs| => lit(vs[i]))
  }

  // ---------------------------------------------------------------------
  // What each builder binds where

  /** With a single parameter, a statement whose text is `prefix + "%s"`
      reads as `prefix` followed by that parameter's literal. */
  lemma BindTrailingPlaceholder(prefix: string, a: string)
    requires '%' !in prefix
    ensures Bind(prefix + "%s", [a]) == Some(prefix + a)
  {
    BindPlainText(prefix, "%s", [a]);
    assert "%s" + [] == "%s";
    BindPlaceholder([], a, []);
    assert [a] + [] == [a];
    assert Bind([], []) == Some([]);
    assert a + [] == a;
  }

  /** `insert_data`: after binding, the VALUES list holds the literals of
      the row's values in the order of the column list. */
  lemma InsertBinds(table: string, data: Row, lit: Value -> string)
    requires '%' !in table && PlainNames(data)
    ensures Interpolate(Insert(table, data), lit)
         == Some("INSERT INTO `" + table + "` (" + ColumnList(data) + ") VALUES ("
                 + Join(", ", Literals(Values(data), lit)) + ")")
  {
    var cols := seq(|data|, i requires 0 <= i < |data| => Quote(data[i].0));
    JoinOmits(", ", cols, '%');
    var head := "INSERT INTO `" + table + "` (" + ColumnList(data) + ") VALUES (";
    assert '%' !in head;
    var lits := Literals(Values(data), lit);
    var vs := Values(data);
    assert Insert(table, data).params == Some(vs);
    assert seq(|vs|, i requires 0 <= i < |vs| => lit(vs[i])) == lits;
    assert Insert(table, data).sql == head + (PlaceholderList(|lits|) + ")");
    BindPlainText(head, PlaceholderList(|lits|) + ")", lits);
    assert lits + [] == lits;
    BindPlaceholderList(lits, ")", []);
    assert ")"[1..] == [] && Bind([], []) == Some([]);
    assert [')'] + [] == ")";
    assert Bind(")", []) == Some(")");
    PrependTwice(head, Join(", ", lits), Some(")"));
  }

  /** `insert_data` writes exactly one `%s` per column. */
  lemma InsertPlaceholders(table: string, data: Row)
    requires '%' !in table && PlainNames(data)
    ensures CountPlaceholders(Insert(table, data).sql) == |data|
  {
    var lit := (v: Value) => "";
    InsertBinds(table, data, lit);
    BindDefinedIff(Insert(table, data).sql, Literals(Values(data), lit));
    var vs := Values(data);
    assert seq(|vs|, i requires 0 <= i < |vs| => lit(vs[i])) == Literals(vs, lit);
  }

  /** `update_data`: after binding, each SET item gives a column the
      literal of its own value, and the key column is compared with the
      key value, which is bound last. */
  lemma UpdateBinds(table: string, primaryKey: string, pkValue: Value, data: Row, lit: Value -> string)
    requires '%' !in table && '%' !in primaryKey && PlainNames(data)
    ensures Interpolate(Update(table, primaryKey, pkValue, data), lit)
         == Some("UPDATE `" + table + "` SET "
                 + Join(", ", BoundAssignments(data, Literals(Values(data), lit)))
                 + " WHERE `" + primaryKey + "` = " + lit(pkValue))
  {
    var head := "UPDATE `" + table + "` SET ";
    var where := " WHERE `" + primaryKey + "` = ";
    assert '%' !in head && '%' !in where;
    var lits := Literals(Values(data), lit);
    var ps := Values(data) + [pkValue];
    var args := seq(|ps|, i requires 0 <= i < |ps| => lit(ps[i]));
    assert args == lits + [lit(pkValue)];
    var body := Join(", ", Assignments(data));
    assert "` = %s" == "` = " + "%s";
    assert Update(table, primaryKey, pkValue, data).sql == head + (body + (where + "%s"));
    var st := Update(table, primaryKey, pkValue, data);
    assert Interpolate(st, lit) == Bind(head + (body + (where + "%s")), args);
    BindPlainText(head, body + (where + "%s"), args);
    BindAssignments(data, lits, where + "%s", [lit(pkValue)]);
    BindTrailingPlaceholder(where, lit(pkValue));
    var bound := Join(", ", BoundAssignments(data, lits));
    assert Bind(body + (where + "%s"), args) == Some(bound + (where + lit(pkValue)));
    PrependTwice(head, bound, Some(where + lit(pkValue)));
    assert head + (bound + (where + lit(pkValue)))
        == "UPDATE `" + table + "` SET " + bound + " WHERE `" + primaryKey + "` = " + lit(pkValue);
  }

  /** `update_data` writes one `%s` per SET item plus one for the key. */
  lemma UpdatePlaceholders(table: string, primaryKey: string, pkValue: Value, data: Row)
    requires '%' !in table && '%' !in primaryKey && PlainNames(data)
    ensures CountPlaceholders(Update(table, primaryKey, pkValue, data).sql) == |data| + 1
  {
    var lit := (v: Value) => "";
    UpdateBinds(table, primaryKey, pkValue, data, lit);
    var ps := Values(data) + [pkValue];
    BindDefinedIff(Update(table, primaryKey, pkValue, data).sql,
                   seq(|ps|, i requires 0 <= i < |ps| => lit(ps[i])));
  }

  /** A statement `prefix + "%s"` with one parameter reads as `prefix`
      followed by that parameter's literal. */
  lemma SingleParameterBinds(st: Statement, prefix: string, v: Value, lit: Value -> string)
    requires '%' !in prefix && st.sql == prefix + "%s" && st.params == Some([v])
    ensures Interpolate(st, lit) == Some(prefix + lit(v))
  {
    var ps := [v];
    assert seq(|ps|, i requires 0 <= i < |ps| => lit(ps[i])) == [lit(v)];
    BindTrailingPlaceholder(prefix, lit(v));
  }

  /** `delete_data`: the only parameter is compared with the key column. */
  lemma DeleteBinds(table: string, primaryKey: string, pkValue: Value, lit: Value -> string)
    requires '%' !in table && '%' !in primaryKey
    ensures Interpolate(Delete(table, primaryKey, pkValue), lit)
         == Some("DELETE FROM `" + table + "` WHERE `" + primaryKey + "` = " + lit(pkValue))
    ensures CountPlaceholders(Delete(table, primaryKey, pkValue).sql) == 1
  {
    var prefix := "DELETE FROM `" + table + "` WHERE `" + primaryKey + "` = ";
    assert '%' !in prefix;
    var st := Delete(table, primaryKey, pkValue);
    assert "` = %s" == "` = " + "%s";
    assert st.sql == prefix + "%s";
    SingleParameterBinds(st, prefix, pkValue, lit);
    BindTrailingPlaceholder(prefix, lit(pkValue));
    BindDefinedIff(st.sql, [lit(pkValue)]);
  }

  /** `get_highest_scores_by_format` binds its one argument as the format. */
  lemma HighestScoresBinds(formatType: Value, lit: Value -> string)
    ensures Interpolate(HighestScoresByFormat(formatType), lit)
         == Some("SELECT * FROM `" + HighestScoresTable + "` WHERE Format = " + lit(formatType))
  {
    var prefix := "SELECT * FROM `" + HighestScoresTable + "` WHERE Format = ";
    assert '%' !in prefix;
    var st := HighestScoresByFormat(formatType);
    assert "` WHERE Format = %s" == "` WHERE Format = " + "%s";
    assert st.sql == prefix + "%s";
    SingleParameterBinds(st, prefix, formatType, lit);
  }

  /** `get_player_by_id` binds its one argument as the player id. */
  lemma PlayerByIdBinds(playerId: Value, lit: Value -> string)
    ensures Interpolate(PlayerById(playerId), lit)
         == Some("SELECT * FROM `" + PlayersTable + "` WHERE playerId = " + lit(playerId))
  {
    var prefix := "SELECT * FROM `" + PlayersTable + "` WHERE playerId = ";
    assert '%' !in prefix;
    var st := PlayerById(playerId);
    assert "` WHERE playerId = %s" == "` WHERE playerId = " + "%s";
    assert st.sql == prefix + "%s";
    SingleParameterBinds(st, prefix, playerId, lit);
  }

  /** Statements without parameters reach the server as written, so a
      `%` or `%s` inside the caller's where clause is not a placeholder. */
  lemma UnboundSentVerbatim(table: string, whereClause: string, lit: Value -> string)
    ensures Interpolate(SelectAll(table, whereClause), lit)
         == Some("SELECT * FROM `" + table + "` " + whereClause + " LIMIT 1000")
    ensures Interpolate(AllPlayerIds(), lit) == Some(AllPlayerIds().sql)
  {
  }
}
