# Simple PHP DB Wrapper — a Dafny model of its SQL construction

The repository wraps a MySQL connection made through PDO. It comes in two versions:

- the namespaced class `Spaniakos\SimplePhpDbWrapper` (`src/Spaniakos/SimplePhpDbWrapper.php`);
- the older class `Database` (`database.class.php`).

Both offer eight convenience methods. Each one stitches the caller's text fragments into a
SQL string, prepares it and executes it:

- `GetColFromTable`
- `GetAllFromTable`
- `GetAllRandomFromTable`
- `GetAllFromTablePrep`
- `Query`
- `InsertIntoTable`
- `DeleteFromTable`
- `UpdateTable`

This project models the part of each class that decides *what is sent*:

- the exact SQL text of every method, including the doubled and trailing spaces that naive
  concatenation leaves;
- the values a prepared query binds;
- the data source name and session command each constructor builds;
- what each method returns once the driver has succeeded or failed.

Every method is modelled as a pure function of its string arguments.

Modules:

- `Strings` (`strings.dfy`): cutting a string at a separator, and `key=value` segments.
- `Clauses` (`clauses.dfy`): the rule both classes use for an optional `where` or `limit`.
  A zero-length argument contributes nothing; any other is prefixed with its keyword and a space.
- `Driver` (`driver.dfy`): what the driver yields for one statement, `Ok(rows)` or `Fail`, and a
  prepared statement (its text with its bound values).
- `SimplePhpDbWrapper` (`wrapper.dfy`): the namespaced class.
- `Database` (`legacy.dfy`): the legacy class, defined on its own.
- `CrossVersion` (`versions.dfy`): where the two classes agree and exactly where they differ.
- `Connection` (`connection.dfy`): the data source names read as PDO MySQL options: `mysql:`
  then `key=value` pairs separated by `;`. Also the session command read word by word.
- `TestSuite` (`test_suite.dfy`): the statements produced for the arguments that
  `src/Tests/DatabaseTest.php` passes.

## Model

| member | source | states |
|---|---|---|
| Clauses.WhereFragment | src/Spaniakos/SimplePhpDbWrapper.php:181-183 | the where fragment is empty exactly when the predicate is; otherwise it is `WHERE ` followed by the predicate unchanged |
| Clauses.LimitFragment | src/Spaniakos/SimplePhpDbWrapper.php:184-186 | the limit fragment is empty exactly when the limit is; otherwise it is `LIMIT ` followed by the limit unchanged |
| Clauses.WhereFragmentInjective | database.class.php:47-49 | different predicates never produce the same where fragment |
| Clauses.LimitFragmentInjective | database.class.php:50-52 | different limits never produce the same limit fragment |
| SimplePhpDbWrapper.OrderFragment | src/Spaniakos/SimplePhpDbWrapper.php:187-191 | the ordering term is never empty; it is the caller's order when one is given, else the column followed by ` ASC` |
| SimplePhpDbWrapper.GetColFromTableSql | src/Spaniakos/SimplePhpDbWrapper.php:192 | with no predicate and no limit the text is `SELECT c FROM t  ORDER BY o ` (two spaces before ORDER BY, one trailing) |
| SimplePhpDbWrapper.GetColFromTableFullText | src/Spaniakos/SimplePhpDbWrapper.php:181-192 | with predicate and limit given, the clauses are separated by single spaces: `SELECT c FROM t WHERE w ORDER BY o LIMIT l` |
| SimplePhpDbWrapper.GetColFromTableWhereText | src/Spaniakos/SimplePhpDbWrapper.php:181-192 | with a predicate and no limit the text ends in ` ORDER BY o ` with a trailing space |
| SimplePhpDbWrapper.GetColFromTableLimitText | src/Spaniakos/SimplePhpDbWrapper.php:181-192 | with a limit and no predicate the text has two spaces before `ORDER BY` |
| SimplePhpDbWrapper.GetColFromTableWhereInjective | src/Spaniakos/SimplePhpDbWrapper.php:181-192 | two calls that differ only in the predicate produce different SQL |
| SimplePhpDbWrapper.GetColFromTableLimitInjective | src/Spaniakos/SimplePhpDbWrapper.php:184-192 | two calls that differ only in the limit produce different SQL |
| SimplePhpDbWrapper.GetAllFromTableSql | src/Spaniakos/SimplePhpDbWrapper.php:213-221 | the statement is the prepared select's text, then ` ORDER BY`, the order column and direction exactly as given, then the limit fragment |
| SimplePhpDbWrapper.GetAllFromTableAsGetCol | src/Spaniakos/SimplePhpDbWrapper.php:213-221 | `GetAllFromTable` produces the same text as `GetColFromTable` on column `*` with order `orderCol order` |
| SimplePhpDbWrapper.GetAllFromTableDefaults | src/Spaniakos/SimplePhpDbWrapper.php:213 | with the default arguments the statement orders by `ID ASC`: `SELECT * FROM t  ORDER BY ID ASC ` |
| SimplePhpDbWrapper.GetAllRandomFromTableSql | src/Spaniakos/SimplePhpDbWrapper.php:238-243 | the statement is the prepared select's text followed by ` ORDER BY RAND() LIMIT 1`, so it always ends with that suffix |
| SimplePhpDbWrapper.GetAllRandomAsGetCol | src/Spaniakos/SimplePhpDbWrapper.php:238-243 | `GetAllRandomFromTable` produces the same text as `GetColFromTable` on column `*`, order `RAND()` and limit `1` |
| SimplePhpDbWrapper.GetAllFromTablePrep | src/Spaniakos/SimplePhpDbWrapper.php:261-268 | the bound values are passed on unchanged; the text is `SELECT * FROM t ` or `SELECT * FROM t WHERE w`, with no ORDER BY and no LIMIT |
| SimplePhpDbWrapper.GetAllFromTablePrepIgnoresBound | src/Spaniakos/SimplePhpDbWrapper.php:266-268 | the text of the prepared query does not depend on the bound values |
| SimplePhpDbWrapper.QuerySql | src/Spaniakos/SimplePhpDbWrapper.php:283-286 | the caller's query is prepared exactly as given |
| SimplePhpDbWrapper.InsertIntoTableSql | src/Spaniakos/SimplePhpDbWrapper.php:303-305 | the statement is `INSERT INTO `, the table, ` (`, the column list, `) VALUES (`, the value list and `)`, each piece found unchanged at its offset, and nothing more |
| SimplePhpDbWrapper.DeleteFromTableSql | src/Spaniakos/SimplePhpDbWrapper.php:323-328 | with no predicate the statement is `DELETE FROM t ` and deletes every row; otherwise it is `DELETE FROM t WHERE w` |
| SimplePhpDbWrapper.DeleteFromTableWhereInjective | src/Spaniakos/SimplePhpDbWrapper.php:325-328 | different predicates produce different DELETE statements |
| SimplePhpDbWrapper.UpdateTableSql | src/Spaniakos/SimplePhpDbWrapper.php:346-351 | with no predicate the statement is `UPDATE t SET s ` and touches every row; otherwise it is `UPDATE t SET s WHERE w` |
| SimplePhpDbWrapper.Dsn | src/Spaniakos/SimplePhpDbWrapper.php:117-120 | the data source name starts with `mysql:host=`; it is 26 characters plus host, port and charset long in test mode, and 34 characters plus all four fields otherwise |
| SimplePhpDbWrapper.SessionCommand | src/Spaniakos/SimplePhpDbWrapper.php:128 | the command starts `set names `, then the charset, and ends with the collation; it is 19 characters longer than the two together |
| SimplePhpDbWrapper.ReadResult | src/Spaniakos/SimplePhpDbWrapper.php:194-199 | a read returns the fetched rows when the driver succeeds, and `[]` from its catch block when it fails |
| SimplePhpDbWrapper.ReadFailureLooksEmpty | src/Spaniakos/SimplePhpDbWrapper.php:195-198 | if the catch block is reached (see Left out), a failed read cannot be told apart from a read that matched no rows |
| SimplePhpDbWrapper.WriteResult | src/Spaniakos/SimplePhpDbWrapper.php:307-312 | a write returns true exactly when the driver succeeded |
| Database.OrderFragment | database.class.php:53-57 | the ordering term is the caller's order when one is given; otherwise the column with `ASC` glued on, with no space |
| Database.GetColFromTableSql | database.class.php:46-58 | with no predicate and no limit the text is `SELECT c FROM t  ORDER BY o ` |
| Database.GetAllFromTableSql | database.class.php:74-81 | the statement is the prepared select's text, then ` ORDER BY`, the order column and direction, then the limit fragment |
| Database.GetAllFromTableDefaults | database.class.php:74 | with the default arguments the statement orders by `ID ASC` |
| Database.GetAllRandomFromTableSql | database.class.php:94-98 | the statement is the prepared select's text followed by ` ORDER BY RAND() LIMIT 1` |
| Database.GetAllFromTablePrep | database.class.php:112-118 | the bound values are passed on unchanged; the text is `SELECT * FROM t ` or `SELECT * FROM t WHERE w` |
| Database.QuerySql | database.class.php:129-131 | the caller's query is prepared exactly as given |
| Database.InsertIntoTableSql | database.class.php:145-146 | the statement is `INSERT INTO `, the table, ` (`, the column list, `) VALUES (`, the value list and `)`, each piece found unchanged at its offset, and nothing more |
| Database.DeleteFromTableSql | database.class.php:159-163 | `DELETE FROM t ` with no predicate, `DELETE FROM t WHERE w` otherwise |
| Database.UpdateTableSql | database.class.php:177-181 | `UPDATE t SET s ` with no predicate, `UPDATE t SET s WHERE w` otherwise |
| Database.Dsn | database.class.php:21 | the data source name starts with `mysql:host=` and is 33 characters plus its four fields long |
| Database.SessionCommand | database.class.php:23 | the command starts `set names `, then the charset, and ends with the collation; it is 19 characters longer than the two together |
| Database.DefaultSessionCommand | database.class.php:12-13 | with the class's own charset and collation the constructor runs `set names utf8mb4 COLLATE utf8mb4_0900_ai_ci` |
| Database.ReadResult | database.class.php:22 | with errors silenced, a failed statement throws nothing and fetches no rows; a successful one returns its rows |
| Database.WriteResult | database.class.php:145-150 | a write returns true whatever `execute` reported, whenever `prepare` yields a statement |
| Database.WriteFailureLooksSuccessful | database.class.php:159-167 | a failed write reports the same value as a successful one |
| CrossVersion.SameSqlOutsideGetCol | database.class.php:74-181 | on every input, seven of the eight legacy builders produce exactly the namespaced class's text; for the prepared query this includes its bound values |
| CrossVersion.GetColFromTableAgreesIff | database.class.php:53-58 | the two `GetColFromTable`s give the same SQL if and only if the caller supplies an order |
| CrossVersion.DefaultOrderWords | database.class.php:56 | for a one-word column, the namespaced default order is the two words `col`, `ASC`, while the legacy one is the single word `colASC` |
| CrossVersion.SameDefaults | database.class.php:74 | both classes default `GetAllFromTable` to order column `ID` and direction `ASC` |
| CrossVersion.SameSessionCommand | database.class.php:23 | both constructors run the same session command for the same charset and collation |
| CrossVersion.ResultsAgreeIff | database.class.php:22 | if the namespaced catch block is reached (see Left out), reads return the same in both classes; writes return the same exactly when the driver succeeded |
| CrossVersion.DsnOneSeparatorShort | database.class.php:21 | the two data source names share everything up to the port; the namespaced one continues `;charset=`, the legacy one `charset=`; so the legacy one is one character shorter and they always differ |
| Connection.WrapperDsnOptions | src/Spaniakos/SimplePhpDbWrapper.php:119-121 | the namespaced data source name carries exactly the options host, dbname, port and charset, in that order, each with its field's value, whenever no field contains `;` |
| Connection.WrapperDsnText | src/Spaniakos/SimplePhpDbWrapper.php:120 | the full data source name is `mysql:` followed by `host=`, `dbname=`, `port=` and `charset=` options, each with its field, separated by `;` |
| Connection.WrapperTestDsnText | src/Spaniakos/SimplePhpDbWrapper.php:118 | in test mode the data source name is `mysql:` followed by the `host=`, `port=` and `charset=` options separated by `;` |
| Connection.WrapperTestDsnOptions | src/Spaniakos/SimplePhpDbWrapper.php:117-118 | whenever no field contains `;`, the test-mode data source name carries exactly host, port and charset, in that order, and names no database |
| Connection.LegacyDsnOptions | database.class.php:21 | whenever no field contains `;`, the legacy data source name carries only host, dbname and port; the port's value is `port` followed by `charset=` and the charset |
| Connection.LegacyDsnText | database.class.php:21 | the legacy data source name is `mysql:` followed by `host=`, `dbname=` and `port=` options separated by `;`, the port directly followed by `charset=` and the charset |
| Connection.LegacyDsnHasNoCharset | database.class.php:21 | whenever no field contains `;`, the legacy data source name has no `charset` option |
| Connection.LegacyDefaultDsnOptions | database.class.php:6-12 | with the class's own fields the port option reads `3306charset=utf8mb4` |
| Connection.SessionCommandText | src/Spaniakos/SimplePhpDbWrapper.php:128 | the session command is `set`, `names`, the charset, `COLLATE` and the collation joined by single spaces |
| Connection.SessionCommandWords | src/Spaniakos/SimplePhpDbWrapper.php:128 | whenever neither charset nor collation contains a space, the session command reads as exactly the words `set`, `names`, the charset, `COLLATE` and the collation |
| TestSuite.TestGetColFromTable | src/Tests/DatabaseTest.php:90-91 | the test's arguments give `SELECT username FROM users WHERE id > 0 ORDER BY username LIMIT 5` |
| TestSuite.TestGetAllFromTable | src/Tests/DatabaseTest.php:105-106 | the test's arguments give `SELECT * FROM users WHERE id > 0 ORDER BY id ASC LIMIT 5` |
| TestSuite.TestGetAllRandomFromTable | src/Tests/DatabaseTest.php:117-118 | the test's arguments give `SELECT * FROM users WHERE id > 0 ORDER BY RAND() LIMIT 1` |
| TestSuite.TestGetAllFromTablePrep | src/Tests/DatabaseTest.php:129-130 | the test's arguments give `SELECT * FROM users WHERE id > ?` with the single bound value 0 |
| TestSuite.TestInsertIntoTable | src/Tests/DatabaseTest.php:154-157 | the test's arguments give `INSERT INTO users (username, email) VALUES ('testuser', 'testuser@example.com')` |
| TestSuite.TestDeleteFromTable | src/Tests/DatabaseTest.php:169-170 | the test's arguments give `DELETE FROM users WHERE username = 'testuser'` |
| TestSuite.TestUpdateTable | src/Tests/DatabaseTest.php:180-182 | the test's arguments give `UPDATE users SET username = 'newuser' WHERE id = 1` |

## Left out

- Executing a statement, and the rows it yields: the model takes the driver's result
  (`Driver.Execution`) as an input.
- The server's treatment of the SQL (parsing, `RAND()` cost, injection through the predicate text).
  Every argument is spliced in unchecked, exactly as both classes do.
- Loading the `.env` file and the Monolog logger, including `ensureLogFileExists` and debug logging.
  These are file-system I/O and configuration; the connection fields are parameters of `Dsn`.
- The constructors' connection attempt, its try/catch, and the destructors. These are resource
  lifecycle. User name and password are handed to PDO apart from the data source name, so they
  are not modelled.
- SimplePhpDbWrapper.ReadResult and SimplePhpDbWrapper.WriteResult follow the text of the catch
  blocks (`[]` and `false`). SimplePhpDbWrapper.ReadFailureLooksEmpty and the reads half of
  CrossVersion.ResultsAgreeIff rest on them as well. Inside `namespace Spaniakos`, with no
  `use PDOException`, the name `PDOException` in those blocks means `Spaniakos\PDOException`. The
  connection runs in exception mode (src/Spaniakos/SimplePhpDbWrapper.php:118, 120, 127), so a real
  driver exception would not be caught and would reach the caller. The model assumes the blocks
  are reached.
- Database.ReadResult and Database.WriteResult assume `prepare` yields a statement object. In
  silent error mode a rejected `prepare` returns `false`, and the following `execute` call
  (database.class.php:60, 83, 100, 118, 132, 148, 165, 183) fails in PHP itself, so a write never
  reaches its `return true`. That fatal path is not modelled.
- Both classes' `GetAllFromTablePrep` declare an optional `$where` before the required
  bound-value array, so in practice every caller passes `$where`. The model takes all three
  arguments.
- Neither class validates identifiers or the limit, normalises whitespace or escapes text. The model
  follows the code: raw text, `RAND()`, and the doubled and trailing spaces exactly as concatenated.

## Findings

| source | as written | input that shows it | evidently intended | confidence | as-written member | corrected member |
|---|---|---|---|---|---|---|
| database.class.php:21 | `";port=".$this->port."charset=".$this->charset`: no `;` before `charset=` | the class's own fields give `mysql:host=localhost;dbname=database;port=3306charset=utf8mb4` | `;charset=` as in src/Spaniakos/SimplePhpDbWrapper.php:120, so the charset is its own option | high, not executed | Connection.LegacyDsnHasNoCharset | Connection.WrapperDsnOptions |
| database.class.php:56 | `$order = $col."ASC"`: no space between the column and `ASC` | `GetColFromTable("users", "username")` orders by `usernameASC` | `$col." ASC"` as in src/Spaniakos/SimplePhpDbWrapper.php:190 | high, not executed | CrossVersion.DefaultOrderWords | SimplePhpDbWrapper.OrderFragment |
