/**
 * The legacy class against the namespaced one: for the same arguments they prepare the same
 * SQL, except `GetColFromTable` when no order is given, and they report failures differently.
 */
module CrossVersion {
  import W = SimplePhpDbWrapper
  import L = Database
  import opened Driver
  import Strings

  /** Seven of the eight builders agree on every input. */
  lemma SameSqlOutsideGetCol<P>(table: string, where: string, orderCol: string, order: string, limit: string,
                                bound: seq<P>, query: string, cols: string, values: string, assignments: string)
    ensures L.GetAllFromTableSql(table, where, orderCol, order, limit) == W.GetAllFromTableSql(table, where, orderCol, order, limit)
    ensures L.GetAllRandomFromTableSql(table, where) == W.GetAllRandomFromTableSql(table, where)
    ensures L.GetAllFromTablePrep(table, where, bound) == W.GetAllFromTablePrep(table, where, bound)
    ensures L.QuerySql(query) == W.QuerySql(query)
    ensures L.InsertIntoTableSql(table, cols, values) == W.InsertIntoTableSql(table, cols, values)
    ensures L.DeleteFromTableSql(table, where) == W.DeleteFromTableSql(table, where)
    ensures L.UpdateTableSql(table, assignments, where) == W.UpdateTableSql(table, assignments, where)
  {
  }

  /** The two `GetColFromTable`s agree exactly when the caller supplies an order. */
  lemma GetColFromTableAgreesIff(table: string, col: string, where: string, order: string, limit: string)
    ensures L.GetColFromTableSql(table, col, where, order, limit) == W.GetColFromTableSql(table, col, where, order, limit)
        <==> order != ""
  {
    if order == "" {
      assert |L.OrderFragment(col, order)| + 1 == |W.OrderFragment(col, order)|;
      assert |L.GetColFromTableSql(table, col, where, order, limit)| + 1 == |W.GetColFromTableSql(table, col, where, order, limit)|;
    }
  }

  /** The default ordering term: column, space, `ASC` in one class; one run-together word in the other. */
  lemma {:induction false} DefaultOrderWords(col: string)
    requires ' ' !in col
    ensures Strings.Split(W.OrderFragment(col, ""), ' ') == [col, "ASC"]
    ensures Strings.Split(L.OrderFragment(col, ""), ' ') == [col + "ASC"]
  {
    Strings.SplitCons(col, "ASC", ' ');
    assert W.OrderFragment(col, "") == col + [' '] + "ASC";
    Strings.SplitWhole("ASC", ' ');
    Strings.SplitWhole(col + "ASC", ' ');
  }

  /** Both classes default to ascending order on `ID`. */
  lemma SameDefaults()
    ensures L.DefaultOrderCol == W.DefaultOrderCol == "ID"
    ensures L.DefaultOrder == W.DefaultOrder == "ASC"
  {
  }

  /** Both constructors run the same session command. */
  lemma SameSessionCommand(charset: string, collation: string)
    ensures L.SessionCommand(charset, collation) == W.SessionCommand(charset, collation)
  {
  }

  /** If the namespaced catch block is reached, reads come back the same from both classes; writes differ exactly when the driver fails. */
  lemma ResultsAgreeIff<Row>(e: Execution<Row>)
    ensures L.ReadResult(e) == W.ReadResult(e)
    ensures L.WriteResult(e) == W.WriteResult(e) <==> e.Ok?
  {
  }

  /** The legacy data source name is the namespaced one with the `;` before `charset=` dropped. */
  lemma DsnOneSeparatorShort(host: string, db: string, port: string, charset: string)
    ensures |L.Dsn(host, db, port, charset)| + 1 == |W.Dsn(host, db, port, charset, false)|
    ensures L.Dsn(host, db, port, charset) != W.Dsn(host, db, port, charset, false)
    ensures var p := "mysql:host=" + host + ";dbname=" + db + ";port=" + port;
      L.Dsn(host, db, port, charset) == p + ("charset=" + charset) &&
      W.Dsn(host, db, port, charset, false) == p + ";" + ("charset=" + charset)
  {
    var p := "mysql:host=" + host + ";dbname=" + db + ";port=" + port;
    Strings.Regroup(p, ";", "charset=", charset);
    assert ";" + "charset=" == ";charset=";
  }
}
