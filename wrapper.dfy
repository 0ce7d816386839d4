/**
 * The namespaced class `Spaniakos\SimplePhpDbWrapper`: the SQL text each public method
 * prepares, the connection strings its constructor builds, and what each method returns
 * once the driver has run the statement. Every argument is caller text spliced in as is.
 */
module SimplePhpDbWrapper {
  import opened Clauses
  import opened Driver
  import Strings

  /** Default `$order_col` and `$order` of `GetAllFromTable`. */
  const DefaultOrderCol: string := "ID"
  const DefaultOrder: string := "ASC"

  /** The text after `ORDER BY` in `GetColFromTable`: the caller's, or the column ascending. */
  function OrderFragment(col: string, order: string): (o: string)
    ensures o != ""
    ensures order != "" ==> o == order
    ensures order == "" ==> |o| == |col| + 4 && o[..|col|] == col && o[|col|..] == " ASC"
  {
    if |order| > 0 then order else col + " ASC"
  }

  /** `GetColFromTable`: one column, optional predicate, order (default ascending), optional limit. */
  function GetColFromTableSql(table: string, col: string, where: string, order: string, limit: string): (sql: string)
    ensures where == "" && limit == "" ==>
      sql == "SELECT " + col + " FROM " + table + "  ORDER BY " + OrderFragment(col, order) + " "
  {
    "SELECT " + col + " FROM " + table + " " + WhereFragment(where) + " ORDER BY " + OrderFragment(col, order) + " " + LimitFragment(limit)
  }

  /** With every optional argument given, each clause is separated by exactly one space. */
  lemma GetColFromTableFullText(table: string, col: string, where: string, order: string, limit: string)
    requires where != "" && limit != ""
    ensures GetColFromTableSql(table, col, where, order, limit)
         == "SELECT " + col + " FROM " + table + " WHERE " + where + " ORDER BY " + OrderFragment(col, order) + " LIMIT " + limit
  {
    var head := "SELECT " + col + " FROM " + table;
    var rest := head + " WHERE " + where + " ORDER BY " + OrderFragment(col, order);
    Strings.Regroup(head, " ", "WHERE ", where);
    assert " " + "WHERE " == " WHERE ";
    Strings.Regroup(rest, " ", "LIMIT ", limit);
    assert " " + "LIMIT " == " LIMIT ";
  }

  /** A predicate without a limit leaves the statement ending in a space. */
  lemma GetColFromTableWhereText(table: string, col: string, where: string, order: string)
    requires where != ""
    ensures GetColFromTableSql(table, col, where, order, "")
         == "SELECT " + col + " FROM " + table + " WHERE " + where + " ORDER BY " + OrderFragment(col, order) + " "
  {
    var head := "SELECT " + col + " FROM " + table;
    Strings.Regroup(head, " ", "WHERE ", where);
    assert " " + "WHERE " == " WHERE ";
  }

  /** A limit without a predicate leaves two spaces before `ORDER BY`. */
  lemma GetColFromTableLimitText(table: string, col: string, order: string, limit: string)
    requires limit != ""
    ensures GetColFromTableSql(table, col, "", order, limit)
         == "SELECT " + col + " FROM " + table + "  ORDER BY " + OrderFragment(col, order) + " LIMIT " + limit
  {
    var head, o := "SELECT " + col + " FROM " + table, OrderFragment(col, order);
    assert GetColFromTableSql(table, col, "", order, limit) == head + " " + "" + " ORDER BY " + o + " " + ("LIMIT " + limit);
    SpacedOrderLimit(head, o, limit);
  }

  /** Proof hint: regroups the concatenation so the verifier can match literal pieces. */
  lemma SpacedOrderLimit(head: string, o: string, limit: string)
    ensures head + " " + "" + " ORDER BY " + o + " " + ("LIMIT " + limit) == head + "  ORDER BY " + o + " LIMIT " + limit
  {
    assert head + " " + "" == head + " ";
    Strings.Regroup(head, " ", " ORDER BY ", o);
    assert " " + " ORDER BY " == "  ORDER BY ";
    Strings.Regroup(head + "  ORDER BY " + o, " ", "LIMIT ", limit);
    assert " " + "LIMIT " == " LIMIT ";
  }

  /** `GetAllFromTable`: every column, ordered by `orderCol` and `order` exactly as given. */
  function GetAllFromTableSql(table: string, where: string, orderCol: string, order: string, limit: string): (sql: string)
    ensures sql == GetAllFromTablePrep<int>(table, where, []).sql + " ORDER BY " + orderCol + " " + order + " " + LimitFragment(limit)
  {
    "SELECT * FROM " + table + " " + WhereFragment(where) + " ORDER BY " + orderCol + " " + order + " " + LimitFragment(limit)
  }

  /** `GetAllRandomFromTable`: one row in random order, whatever the predicate. */
  function GetAllRandomFromTableSql(table: string, where: string): (sql: string)
    ensures sql == GetAllFromTablePrep<int>(table, where, []).sql + " ORDER BY RAND() LIMIT 1"
    ensures |sql| >= 24 && sql[|sql| - 24..] == " ORDER BY RAND() LIMIT 1"
  {
    "SELECT * FROM " + table + " " + WhereFragment(where) + " ORDER BY RAND() LIMIT 1"
  }

  /** `GetAllFromTablePrep`: no ORDER BY, no LIMIT; the values are bound, never spliced. */
  function GetAllFromTablePrep<P>(table: string, where: string, bound: seq<P>): (st: Statement<P>)
    ensures st.bound == bound
    ensures where == "" ==> st.sql == "SELECT * FROM " + table + " "
    ensures where != "" ==> st.sql == "SELECT * FROM " + table + " WHERE " + where
  {
    Statement("SELECT * FROM " + table + " " + WhereFragment(where), bound)
  }

  /** `GetAllFromTable` is `GetColFromTable` on every column, with the order column and direction as the order. */
  lemma GetAllFromTableAsGetCol(table: string, where: string, orderCol: string, order: string, limit: string)
    ensures GetAllFromTableSql(table, where, orderCol, order, limit)
         == GetColFromTableSql(table, "*", where, orderCol + " " + order, limit)
  {
    var f, lf := WhereFragment(where), LimitFragment(limit);
    var a := "SELECT * FROM " + table + " " + f;
    assert GetAllFromTableSql(table, where, orderCol, order, limit) == a + " ORDER BY " + orderCol + " " + order + " " + lf;
    StarHead();
    assert GetColFromTableSql(table, "*", where, orderCol + " " + order, limit)
        == "SELECT " + "*" + " FROM " + table + " " + f + " ORDER BY " + (orderCol + " " + order) + " " + lf;
    OrderTail(a, orderCol, order, lf);
  }

  /** Proof hint: regroups the concatenation so the verifier can match literal pieces. */
  lemma StarHead()
    ensures "SELECT " + "*" + " FROM " == "SELECT * FROM "
  {
  }

  /** Proof hint: regroups the concatenation so the verifier can match literal pieces. */
  lemma OrderTail(a: string, c: string, o: string, l: string)
    ensures a + " ORDER BY " + c + " " + o + " " + l == a + " ORDER BY " + (c + " " + o) + " " + l
  {
  }

  /** `GetAllRandomFromTable` is `GetColFromTable` on every column, in `RAND()` order, limited to one row. */
  lemma GetAllRandomAsGetCol(table: string, where: string)
    ensures GetAllRandomFromTableSql(table, where) == GetColFromTableSql(table, "*", where, "RAND()", "1")
  {
    var a := "SELECT * FROM " + table + " " + WhereFragment(where);
    assert GetAllRandomFromTableSql(table, where) == a + " ORDER BY RAND() LIMIT 1";
    StarHead();
    assert LimitFragment("1") == "LIMIT 1";
    assert GetColFromTableSql(table, "*", where, "RAND()", "1") == a + " ORDER BY " + "RAND()" + " " + "LIMIT 1";
    RandomTail(a);
  }

  /** Proof hint: regroups the concatenation so the verifier can match literal pieces. */
  lemma RandomTail(a: string)
    ensures a + " ORDER BY " + "RAND()" + " " + "LIMIT 1" == a + " ORDER BY RAND() LIMIT 1"
  {
    assert " ORDER BY " + "RAND()" + " " + "LIMIT 1" == " ORDER BY RAND() LIMIT 1";
  }

  /** `Query`: the caller's text is prepared as it is. */
  function QuerySql(query: string): (sql: string)
    ensures sql == query
  {
    query
  }

  /** `InsertIntoTable`: the column list and the value list each inside parentheses. */
  function InsertIntoTableSql(table: string, cols: string, values: string): (sql: string)
    ensures |sql| == 25 + |table| + |cols| + |values|
    ensures sql[..12] == "INSERT INTO " && sql[|sql| - 1] == ')'
    ensures sql[12..12 + |table|] == table
    ensures sql[12 + |table|..14 + |table|] == " ("
    ensures sql[14 + |table|..14 + |table| + |cols|] == cols
    ensures sql[14 + |table| + |cols|..24 + |table| + |cols|] == ") VALUES ("
    ensures sql[24 + |table| + |cols|..|sql| - 1] == values
  {
    "INSERT INTO " + table + " (" + cols + ") VALUES (" + values + ")"
  }

  /** `DeleteFromTable`: an empty predicate leaves the statement unrestricted. */
  function DeleteFromTableSql(table: string, where: string): (sql: string)
    ensures where == "" ==> sql == "DELETE FROM " + table + " "
    ensures where != "" ==> sql == "DELETE FROM " + table + " WHERE " + where
  {
    "DELETE FROM " + table + " " + WhereFragment(where)
  }

  /** `UpdateTable`: an empty predicate updates every row. */
  function UpdateTableSql(table: string, assignments: string, where: string): (sql: string)
    ensures where == "" ==> sql == "UPDATE " + table + " SET " + assignments + " "
    ensures where != "" ==> sql == "UPDATE " + table + " SET " + assignments + " WHERE " + where
  {
    "UPDATE " + table + " SET " + assignments + " " + WhereFragment(where)
  }

  /** The constructor's data source name; with `databaseTest` it names no database. */
  function Dsn(host: string, db: string, port: string, charset: string, databaseTest: bool): (dsn: string)
    ensures |dsn| >= 11 && dsn[..11] == "mysql:host="
    ensures databaseTest ==> |dsn| == 26 + |host| + |port| + |charset|
    ensures !databaseTest ==> |dsn| == 34 + |host| + |db| + |port| + |charset|
  {
    if databaseTest then "mysql:host=" + host + ";port=" + port + ";charset=" + charset
    else "mysql:host=" + host + ";dbname=" + db + ";port=" + port + ";charset=" + charset
  }

  /** The command the constructor runs once connected. */
  function SessionCommand(charset: string, collation: string): (cmd: string)
    ensures |cmd| == 19 + |charset| + |collation| && cmd[..10] == "set names "
    ensures cmd[10..10 + |charset|] == charset && cmd[|cmd| - |collation|..] == collation
  {
    "set names " + charset + " COLLATE " + collation
  }

  /** What a read method returns: the fetched rows, or `[]` from its catch block. */
  function ReadResult<Row>(e: Execution<Row>): (rows: seq<Row>)
    ensures e.Ok? ==> rows == e.rows
    ensures e.Fail? ==> rows == []
  {
    match e
    case Ok(rows) => rows
    case Fail => []
  }

  /** What a write method returns: `true` after `execute`, `false` from its catch block. */
  function WriteResult<Row>(e: Execution<Row>): (ok: bool)
    ensures ok <==> e.Ok?
  {
    match e
    case Ok(_) => true
    case Fail => false
  }

  /** If the catch block is reached, a failed read and a read that matched no rows are indistinguishable to the caller. */
  lemma ReadFailureLooksEmpty<Row>()
    ensures ReadResult<Row>(Fail) == ReadResult<Row>(Ok([]))
  {
  }

  /** The where text survives in `GetColFromTable`'s SQL: equal SQL means equal predicates. */
  lemma GetColFromTableWhereInjective(table: string, col: string, w1: string, w2: string, order: string, limit: string)
    requires GetColFromTableSql(table, col, w1, order, limit) == GetColFromTableSql(table, col, w2, order, limit)
    ensures w1 == w2
  {
    var p := "SELECT " + col + " FROM " + table + " ";
    var o, l := OrderFragment(col, order), LimitFragment(limit);
    var s := " ORDER BY " + o + " " + l;
    var f1, f2 := WhereFragment(w1), WhereFragment(w2);
    assert p + f1 + " ORDER BY " + o + " " + l == p + f1 + s;
    assert p + f2 + " ORDER BY " + o + " " + l == p + f2 + s;
    Strings.CancelAround(p, f1, f2, s);
    WhereFragmentInjective(w1, w2);
  }

  /** The limit text survives in `GetColFromTable`'s SQL as well. */
  lemma GetColFromTableLimitInjective(table: string, col: string, where: string, order: string, l1: string, l2: string)
    requires GetColFromTableSql(table, col, where, order, l1) == GetColFromTableSql(table, col, where, order, l2)
    ensures l1 == l2
  {
    var p := "SELECT " + col + " FROM " + table + " " + WhereFragment(where) + " ORDER BY " + OrderFragment(col, order) + " ";
    Strings.CancelAround(p, LimitFragment(l1), LimitFragment(l2), "");
    LimitFragmentInjective(l1, l2);
  }

  /** The predicate of a DELETE determines the statement and is recoverable from it. */
  lemma DeleteFromTableWhereInjective(table: string, w1: string, w2: string)
    requires DeleteFromTableSql(table, w1) == DeleteFromTableSql(table, w2)
    ensures w1 == w2
  {
    Strings.CancelAround("DELETE FROM " + table + " ", WhereFragment(w1), WhereFragment(w2), "");
    WhereFragmentInjective(w1, w2);
  }

  /** The defaults of `GetAllFromTable` give ascending order on `ID`. */
  lemma GetAllFromTableDefaults(table: string)
    ensures GetAllFromTableSql(table, "", DefaultOrderCol, DefaultOrder, "") == "SELECT * FROM " + table + "  ORDER BY ID ASC "
  {
  }

  /** The bound values never reach the text of the prepared query. */
  lemma GetAllFromTablePrepIgnoresBound<P>(table: string, where: string, b1: seq<P>, b2: seq<P>)
    ensures GetAllFromTablePrep(table, where, b1).sql == GetAllFromTablePrep(table, where, b2).sql
  {
  }
}
