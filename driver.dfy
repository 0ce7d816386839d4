/**
 * The database driver, seen from the wrappers: it is handed a SQL text (and, for a prepared
 * query, the values to bind) and either yields the fetched rows or fails. What the rows are
 * and when a statement fails belong to the driver and the server, so both are inputs here.
 */
module Driver {

  /** What `prepare` / `execute` / `fetchAll` produce for one statement. */
  datatype Execution<Row> = Ok(rows: seq<Row>) | Fail

  /** A statement as handed to the driver: its text and the values `execute` binds. */
  datatype Statement<P> = Statement(sql: string, bound: seq<P>)
}
