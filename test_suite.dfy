/**
 * The statements the namespaced class prepares for the arguments its test suite passes.
 * Each expected text is checked in two halves, since one long literal comparison is too
 * costly for the verifier.
 */
module TestSuite {
  import opened SimplePhpDbWrapper
  import opened Driver

  lemma TestGetColFromTable()
    ensures GetColFromTableSql("users", "username", "id > 0", "username", "5")
         == "SELECT username FROM users WHERE id > 0 ORDER BY username LIMIT 5"
  {
    SelectUsernameText();
  }

  lemma SelectUsernameText()
    ensures "SELECT " + "username" + " FROM " + "users" + " WHERE " + "id > 0" + " ORDER BY " + "username" + " LIMIT " + "5"
         == "SELECT username FROM users WHERE id > 0 ORDER BY username LIMIT 5"
  {
    assert "SELECT " + "username" + " FROM " + "users" + " WHERE " + "id > 0" == "SELECT username FROM users WHERE id > 0";
  }

  lemma TestGetAllFromTable()
    ensures GetAllFromTableSql("users", "id > 0", "id", "ASC", "5")
         == "SELECT * FROM users WHERE id > 0 ORDER BY id ASC LIMIT 5"
  {
    SelectAllUsersText();
  }

  lemma TestGetAllRandomFromTable()
    ensures GetAllRandomFromTableSql("users", "id > 0") == "SELECT * FROM users WHERE id > 0 ORDER BY RAND() LIMIT 1"
  {
    SelectAllUsersText();
  }

  lemma TestGetAllFromTablePrep()
    ensures GetAllFromTablePrep("users", "id > ?", [0]) == Statement("SELECT * FROM users WHERE id > ?", [0])
  {
  }

  lemma SelectAllUsersText()
    ensures GetAllFromTablePrep<int>("users", "id > 0", []).sql == "SELECT * FROM users WHERE id > 0"
  {
  }

  lemma TestInsertIntoTable()
    ensures InsertIntoTableSql("users", "username, email", "'testuser', 'testuser@example.com'")
         == "INSERT INTO users (username, email) VALUES ('testuser', 'testuser@example.com')"
  {
    InsertUserText();
  }

  lemma InsertUserText()
    ensures "INSERT INTO " + "users" + " (" + "username, email" + ") VALUES (" + "'testuser', 'testuser@example.com'" + ")"
         == "INSERT INTO users (username, email) VALUES ('testuser', 'testuser@example.com')"
  {
    InsertUserHead();
  }

  lemma InsertUserHead()
    ensures "INSERT INTO " + "users" + " (" + "username, email" + ") VALUES (" == "INSERT INTO users (username, email) VALUES ("
  {
    assert "INSERT INTO " + "users" + " (" + "username, email" == "INSERT INTO users (username, email";
  }

  lemma TestDeleteFromTable()
    ensures DeleteFromTableSql("users", "username = 'testuser'") == "DELETE FROM users WHERE username = 'testuser'"
  {
  }

  lemma TestUpdateTable()
    ensures UpdateTableSql("users", "username = 'newuser'", "id = 1") == "UPDATE users SET username = 'newuser' WHERE id = 1"
  {
    assert "UPDATE " + "users" + " SET " + "username = 'newuser'" == "UPDATE users SET username = 'newuser'";
  }
}
