/** The data-access object of the CRUD page (4_Crud_Operations.py:25-74):
    it holds one connection, runs one statement per call, commits after
    every statement that ran, and turns every failure into Python's `None`.

    The database driver is not modelled: what it does with a statement is
    an input to each call (`Response`), and so is whether the commit that
    follows goes through. */
module Crud {
  import opened Statements

  /** An open connection, known only by an identity. */
  datatype Handle = Handle(id: nat)

  /** What the driver does with one statement: it raises, or it runs the
      statement and has result rows and a row count ready. */
  datatype Response =
    | Raised(message: string)
    | Answered(rows: seq<Row>, rowcount: int)

  /** The value `execute_query` returns: the fetched rows, the row count,
      or `None`. */
  datatype QueryResult =
    | Rows(rows: seq<Row>)
    | RowCount(count: int)
    | Failed

  /** What `execute_query` returns, given whether there is a connection,
      what the driver answers and whether the commit succeeds. */
  function Outcome(connected: bool, response: Response, commitOk: bool, fetch: bool): (r: QueryResult)
    ensures r != Failed <==> connected && response.Answered? && commitOk
    ensures r.Rows? <==> r != Failed && fetch
    ensures r.Rows? ==> r.rows == response.rows
    ensures r.RowCount? ==> r.count == response.rowcount
  {
    if !connected then Failed
    else match response
      case Raised(_) => Failed
      case Answered(rows, rowcount) =>
        if !commitOk then Failed
        else if fetch then Rows(rows)
        else RowCount(rowcount)
  }

  class CricketCrud {
    /** `self.conn`: `None` when the connection could not be opened. */
    var conn: Option<Handle>
    /** Commits that went through on this connection. */
    var commits: nat
    /** Every statement handed to the driver, in order. */
    var sent: seq<Statement>

    constructor (connection: Option<Handle>)
      ensures conn == connection && commits == 0 && sent == []
    {
      conn := connection;
      commits := 0;
      sent := [];
    }

    /** `execute_query`: with no connection the call fails before
        anything is sent; otherwise the statement is sent, and the
        connection is committed only when the driver answered. */
    method ExecuteQuery(query: string, params: Option<seq<Value>>, fetch: bool,
                        response: Response, commitOk: bool)
      returns (r: QueryResult)
      modifies this
      ensures conn == old(conn)
      ensures r == Outcome(conn.Some?, response, commitOk, fetch)
      ensures commits == old(commits) + (if r == Failed then 0 else 1)
      ensures sent == if conn.Some? then old(sent) + [Statement(query, params)] else old(sent)
    {
      if conn.None? {
        return Failed;
      }
      sent := sent + [Statement(query, params)];
      match response {
        case Raised(_) =>
          r := Failed;
        case Answered(rows, rowcount) =>
          if !commitOk {
            r := Failed;
          } else if fetch {
            commits := commits + 1;
            r := Rows(rows);
          } else {
            commits := commits + 1;
            r := RowCount(rowcount);
          }
      }
    }

    /** Runs a built statement through `ExecuteQuery`. */
    method Run(st: Statement, fetch: bool, response: Response, commitOk: bool)
      returns (r: QueryResult)
      modifies this
      ensures conn == old(conn)
      ensures r == Outcome(conn.Some?, response, commitOk, fetch)
      ensures commits == old(commits) + (if r == Failed then 0 else 1)
      ensures sent == if conn.Some? then old(sent) + [st] else old(sent)
    {
      r := ExecuteQuery(st.sql, st.params, fetch, response, commitOk);
    }

    /** `get_table_data` */
    method GetTableData(table: string, whereClause: string, response: Response, commitOk: bool)
      returns (r: QueryResult)
      modifies this
      ensures conn == old(conn)
      ensures r == Outcome(conn.Some?, response, commitOk, true)
      ensures commits == old(commits) + (if r == Failed then 0 else 1)
      ensures sent == if conn.Some? then old(sent) + [SelectAll(table, whereClause)] else old(sent)
    {
      r := Run(SelectAll(table, whereClause), true, response, commitOk);
    }

    /** `get_highest_scores_by_format` */
    method GetHighestScoresByFormat(formatType: Value, response: Response, commitOk: bool)
      returns (r: QueryResult)
      modifies this
      ensures conn == old(conn)
      ensures r == Outcome(conn.Some?, response, commitOk, true)
      ensures commits == old(commits) + (if r == Failed then 0 else 1)
      ensures sent == if conn.Some? then old(sent) + [HighestScoresByFormat(formatType)] else old(sent)
    {
      r := Run(HighestScoresByFormat(formatType), true, response, commitOk);
    }

    /** `get_player_by_id` */
    method GetPlayerById(playerId: Value, response: Response, commitOk: bool)
      returns (r: QueryResult)
      modifies this
      ensures conn == old(conn)
      ensures r == Outcome(conn.Some?, response, commitOk, true)
      ensures commits == old(commits) + (if r == Failed then 0 else 1)
      ensures sent == if conn.Some? then old(sent) + [PlayerById(playerId)] else old(sent)
    {
      r := Run(PlayerById(playerId), true, response, commitOk);
    }

    /** `get_all_player_ids` */
    method GetAllPlayerIds(response: Response, commitOk: bool)
      returns (r: QueryResult)
      modifies this
      ensures conn == old(conn)
      ensures r == Outcome(conn.Some?, response, commitOk, true)
      ensures commits == old(commits) + (if r == Failed then 0 else 1)
      ensures sent == if conn.Some? then old(sent) + [AllPlayerIds()] else old(sent)
    {
      r := Run(AllPlayerIds(), true, response, commitOk);
    }

    /** `insert_data`: returns the row count, never rows. */
    method InsertData(table: string, data: Row, response: Response, commitOk: bool)
      returns (r: QueryResult)
      modifies this
      ensures conn == old(conn)
      ensures r == Outcome(conn.Some?, response, commitOk, false)
      ensures commits == old(commits) + (if r == Failed then 0 else 1)
      ensures sent == if conn.Some? then old(sent) + [Insert(table, data)] else old(sent)
    {
      r := Run(Insert(table, data), false, response, commitOk);
    }

    /** `update_data`: returns the row count, never rows. */
    method UpdateData(table: string, primaryKey: string, pkValue: Value, data: Row,
                      response: Response, commitOk: bool)
      returns (r: QueryResult)
      modifies this
      ensures conn == old(conn)
      ensures r == Outcome(conn.Some?, response, commitOk, false)
      ensures commits == old(commits) + (if r == Failed then 0 else 1)
      ensures sent == if conn.Some? then old(sent) + [Update(table, primaryKey, pkValue, data)] else old(sent)
    {
      r := Run(Update(table, primaryKey, pkValue, data), false, response, commitOk);
    }

    /** `delete_data`: returns the row count, never rows. */
    method DeleteData(table: string, primaryKey: string, pkValue: Value,
                      response: Response, commitOk: bool)
      returns (r: QueryResult)
      modifies this
      ensures conn == old(conn)
      ensures r == Outcome(conn.Some?, response, commitOk, false)
      ensures commits == old(commits) + (if r == Failed then 0 else 1)
      ensures sent == if conn.Some? then old(sent) + [Delete(table, primaryKey, pkValue)] else old(sent)
    {
      r := Run(Delete(table, primaryKey, pkValue), false, response, commitOk);
    }
  }
}
