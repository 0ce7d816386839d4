/**
 * The legacy class `Database`: the same eight builders as the namespaced class, written with
 * concatenation, its hard-coded connection fields, the data source name and session command
 * its constructor builds, and what its methods return with the driver's errors silenced.
 */
module Database {
  import opened Clauses
  import opened Driver

  /** The connection fields' initial values. */
  const Host: string := "localhost"
  const Db: string := "database"
  const Port: string := "3306"
  const Charset: string := "utf8mb4"
  const Collation: string := "utf8mb4_0900_ai_ci"

  /** Default `$order_col` and `$order` of `GetAllFromTable`. */
  const DefaultOrderCol: string := "ID"
  const DefaultOrder: string := "ASC"

  /** The text after `ORDER BY` in `GetColFromTable`; the default glues `ASC` to the column. */
  function OrderFragment(col: string, order: string): (o: string)
    ensures o != ""
    ensures order != "" ==> o == order
    ensures order == "" ==> |o| == |col| + 3 && o[..|col|] == col && o[|col|..] == "ASC"
  {
    if |order| > 0 then order else col + "ASC"
  }

  function GetColFromTableSql(table: string, col: string, where: string, order: string, limit: string): (sql: string)
    ensures where == "" && limit == "" ==>
      sql == "SELECT " + col + " FROM " + table + "  ORDER BY " + OrderFragment(col, order) + " "
  {
    "SELECT " + col + " FROM " + table + " " + WhereFragment(where) + " ORDER BY " + OrderFragment(col, order) + " " + LimitFragment(limit)
  }

  function GetAllFromTableSql(table: string, where: string, orderCol: string, order: string, limit: string): (sql: string)
    ensures sql == GetAllFromTablePrep<int>(table, where, []).sql + " ORDER BY " + orderCol + " " + order + " " + LimitFragment(limit)
  {
    "SELECT * FROM " + table + " " + WhereFragment(where) + " ORDER BY " + orderCol + " " + order + " " + LimitFragment(limit)
  }

  function GetAllRandomFromTableSql(table: string, where: string): (sql: string)
    ensures sql == GetAllFromTablePrep<int>(table, where, []).sql + " ORDER BY RAND() LIMIT 1"
  {
    "SELECT * FROM " + table + " " + WhereFragment(where) + " ORDER BY RAND() LIMIT 1"
  }

  function GetAllFromTablePrep<P>(table: string, where: string, bound: seq<P>): (st: Statement<P>)
    ensures st.bound == bound
    ensures where == "" ==> st.sql == "SELECT * FROM " + table + " "
    ensures where != "" ==> st.sql == "SELECT * FROM " + table + " WHERE " + where
  {
    Statement("SELECT * FROM " + table + " " + WhereFragment(where), bound)
  }

  function QuerySql(query: string): (sql: string)
    ensures sql == query
  {
    query
  }

  function InsertIntoTableSql(table: string, cols: string, values: string): (sql: string)
    ensures |sql| == 25 + |table| + |cols| + |values|
    ensures sql[..12] == "INSERT INTO " && sql[|sql| - 1] == ')'
    ensures sql[12..12 + |table|] == table
    ensures sql[12 + |table|..14 + |table|] == " ("
    ensures sql[14 + |table|..14 + |table| + |cols|] == cols
    ensures sql[14 + |table| + |cols|..24 + |table| + |cols|] == ") VALUES ("
    ensures sql[24 + |table| + |cols|..|sql| - 1] == values
  {
    "INSERT INTO " + table + " (" + cols + ") VALUES (" + values + ")"
  }

  function DeleteFromTableSql(table: string, where: string): (sql: string)
    ensures where == "" ==> sql == "DELETE FROM " + table + " "
    ensures where != "" ==> sql == "DELETE FROM " + table + " WHERE " + where
  {
    "DELETE FROM " + table + " " + WhereFragment(where)
  }

  function UpdateTableSql(table: string, assignments: string, where: string): (sql: string)
    ensures where == "" ==> sql == "UPDATE " + table + " SET " + assignments + " "
    ensures where != "" ==> sql == "UPDATE " + table + " SET " + assignments + " WHERE " + where
  {
    "UPDATE " + table + " SET " + assignments + " " + WhereFragment(where)
  }

  /** The constructor's data source name: no `;` separates the port from `charset=`. */
  function Dsn(host: string, db: string, port: string, charset: string): (dsn: string)
    ensures |dsn| == 33 + |host| + |db| + |port| + |charset| && dsn[..11] == "mysql:host="
  {
    "mysql:host=" + host + ";dbname=" + db + ";port=" + port + "charset=" + charset
  }

  /** The command the constructor runs once connected. */
  function SessionCommand(charset: string, collation: string): (cmd: string)
    ensures |cmd| == 19 + |charset| + |collation| && cmd[..10] == "set names "
    ensures cmd[10..10 + |charset|] == charset && cmd[|cmd| - |collation|..] == collation
  {
    "set names " + charset + " COLLATE " + collation
  }

  /**
   * What a read method returns. The driver is in silent error mode, so a failed `execute`
   * throws nothing and `fetchAll` on the failed statement yields no rows.
   */
  function ReadResult<Row>(e: Execution<Row>): (rows: seq<Row>)
    ensures e.Ok? ==> rows == e.rows
    ensures e.Fail? ==> rows == []
  {
    match e
    case Ok(rows) => rows
    case Fail => []
  }

  /** What a write method returns: `true`, whether or not `execute` succeeded. */
  function WriteResult<Row>(e: Execution<Row>): (ok: bool)
    ensures ok
  {
    true
  }

  /** The defaults of `GetAllFromTable` give ascending order on `ID`. */
  lemma GetAllFromTableDefaults(table: string)
    ensures GetAllFromTableSql(table, "", DefaultOrderCol, DefaultOrder, "") == "SELECT * FROM " + table + "  ORDER BY ID ASC "
  {
  }

  /** A failed write is reported as a success. */
  lemma WriteFailureLooksSuccessful<Row>()
    ensures WriteResult<Row>(Fail) == WriteResult<Row>(Ok([]))
  {
  }

  /** The legacy constructor's own charset and collation give `set names utf8mb4 COLLATE utf8mb4_0900_ai_ci`. */
  lemma DefaultSessionCommand()
    ensures SessionCommand(Charset, Collation) == "set names utf8mb4 COLLATE utf8mb4_0900_ai_ci"
  {
    assert "set names " + "utf8mb4" + " COLLATE " == "set names utf8mb4 COLLATE ";
  }
}
