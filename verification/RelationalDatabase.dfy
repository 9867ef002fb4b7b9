// The client of internal/database/database.go, statement by statement, over a
// server whose state the statements update in place. Every method may be cut
// after any statement (`budget`), and is proved to leave the server exactly where
// the operation of module Registry would be after as many statements.
module RelationalDatabase {
  import opened Common
  import opened Registry
  import opened Convergence

  const MAX_USERNAME_LENGTH: nat := 16
  const MAX_PASSWORD_LENGTH: nat := 24
  const MAX_DATABASE_NAME_LENGTH: nat := 63
  const CHARS := "abcdefghijklmnopqrstuvwxyzABCDEFGHIJKLMNOPQRSTUVWXYZ0123456789"

  predicate Alphanumeric(s: string) {
    forall i :: 0 <= i < |s| ==> s[i] in CHARS
  }

  // The random choices are arbitrary ones.
  method GenerateRandomString(length: nat) returns (s: string)
    ensures |s| == length && Alphanumeric(s)
  {
    var result := new char[length];
    for i := 0 to length
      invariant forall j :: 0 <= j < i ==> result[j] in CHARS
    {
      var k: nat :| k < |CHARS|;
      result[i] := CHARS[k];
    }
    s := result[..];
  }

  // What createUserInfo can draw for a namespace.
  predicate Drawn(namespace: string, i: Info) {
    var p := if |namespace| > 50 then 50 else |namespace|;
    && |i.username| == 16 && Alphanumeric(i.username) && |i.password| == 24 && Alphanumeric(i.password)
    && |i.dbname| == 63
    && i.dbname[..p] == namespace[..p] && i.dbname[p] == '_' && Alphanumeric(i.dbname[p + 1..])
  }

  method CreateUserInfo(namespace: string) returns (info: Info)
    ensures Drawn(namespace, info)
  {
    var username := GenerateRandomString(MAX_USERNAME_LENGTH);
    var password := GenerateRandomString(MAX_PASSWORD_LENGTH);
    var dbnamePrefix := namespace;
    if |dbnamePrefix| > 50 {
      dbnamePrefix := dbnamePrefix[..50];
    }
    var suffix := GenerateRandomString(MAX_DATABASE_NAME_LENGTH - |dbnamePrefix| - 1);
    var dbname := dbnamePrefix + "_" + suffix;
    assert dbname[|dbnamePrefix| + 1..] == suffix;
    info := Info(username, password, dbname);
  }

  class RelationalDatabase {
    const engine: Engine
    var rows: seq<Row>
    var dbs: map<string, string>
    var users: map<string, string>
    var grants: set<Grant>
    // How many more statements reach the server before the connection fails.
    var budget: nat

    constructor (engine: Engine, budget: nat)
      ensures this.engine == engine && State() == Server(engine, [], map[], map[], {}) && this.budget == budget
    {
      this.engine := engine;
      this.rows, this.dbs, this.users, this.grants := [], map[], map[], {};
      this.budget := budget;
    }

    function State(): Server
      reads this
    {
      Server(engine, rows, dbs, users, grants)
    }

    // Whether the next statement still reaches the server.
    method Reaches() returns (ok: bool)
      modifies this`budget
      ensures ok <==> old(budget) > 0
      ensures budget == if ok then old(budget) - 1 else 0
    {
      ok := budget > 0;
      if ok {
        budget := budget - 1;
      }
    }

    // What a failed statement leaves: the operation ends where it is, short of done.
    ghost predicate Cut(op: Op)
      reads this
    {
      !op.pc.Done? && (budget == 0 || op.pc.Failed?)
    }

    /** The SQL statements. Each advances the operation it belongs to by one step. */

    // USE dbaas_controller, FLUSH PRIVILEGES and pg_terminate_backend leave the modelled state alone.
    method ExecNoEffect(ghost op: Op) returns (ok: bool, ghost next: Op)
      requires op.pc.Use? || op.pc.Flush? || op.pc.Terminate?
      modifies this
      ensures Attempt(old(State()), op, old(budget)) == Attempt(State(), next, budget)
      ensures ok ==> State() == old(State()) && next == Step(old(State()), op).1
      ensures !ok ==> Cut(next)
    {
      ok := Reaches();
      next := if ok then Step(State(), op).1 else op;
    }

    method QueryRow(key: Key, ghost op: Op) returns (r: Result<Option<Info>>, ghost next: Op)
      requires op.pc.Select? && op.key == key
      modifies this
      ensures Attempt(old(State()), op, old(budget)) == Attempt(State(), next, budget)
      ensures r.Success? ==> State() == old(State()) && r.value == Lookup(rows, key)
      ensures r.Success? ==> next == match r.value {
        case Some(i) => op.(pc := AfterLookup(engine, op.task), info := i)
        case None => op.(pc := Insert)
      }
      ensures r.Failure? ==> Cut(next)
    {
      var ok := Reaches();
      next := if ok then Step(State(), op).1 else op;
      r := if ok then Success(Lookup(rows, key)) else Failure;
    }

    method ExecInsert(row: Row, ghost op: Op) returns (ok: bool, ghost next: Op)
      requires op.pc.Insert? && row == Row(op.key, op.drawn)
      modifies this
      ensures Attempt(old(State()), op, old(budget)) == Attempt(State(), next, budget)
      ensures ok ==> next == op.(pc := AfterLookup(engine, op.task), info := op.drawn)
      ensures !ok ==> Cut(next)
    {
      ok := Reaches();
      next := if ok then Step(State(), op).1 else op;
      if ok {
        ok := !Clashes(rows, row);
        if ok {
          rows := rows + [row];
        }
      }
    }

    // INSERT IGNORE and ON CONFLICT DO NOTHING.
    method ExecInsertIgnore(row: Row, ghost op: Op) returns (ok: bool, ghost next: Op)
      requires op.pc.InsertIgnore? && op.task.Record? && row == Row(op.key, op.task.info)
      modifies this
      ensures Attempt(old(State()), op, old(budget)) == Attempt(State(), next, budget)
      ensures ok ==> next == op.(pc := Done)
      ensures !ok ==> Cut(next)
    {
      ok := Reaches();
      next := if ok then Step(State(), op).1 else op;
      if ok && !Clashes(rows, row) {
        rows := rows + [row];
      }
    }

    // CREATE DATABASE: IF NOT EXISTS for MySQL; with an owner for PostgreSQL, where the client takes
    // 42P04, duplicate_database, for success.
    method ExecCreateDatabase(dbname: string, owner: string, ghost op: Op) returns (ok: bool, ghost next: Op)
      requires dbname == op.info.dbname
      requires
        if engine.MySql? then op.pc.CreateDb? && owner == NO_OWNER else op.pc.CreateOwned? && owner == op.info.username
      modifies this
      ensures Attempt(old(State()), op, old(budget)) == Attempt(State(), next, budget)
      ensures ok ==> next == op.(pc := if engine.MySql? then CreateUser else Done)
      ensures !ok ==> Cut(next)
    {
      ok := Reaches();
      next := if ok then Step(State(), op).1 else op;
      if ok {
        ok := engine.Postgres? ==> owner in users;
        if ok {
          dbs := AddDb(dbs, dbname, owner);
        }
      }
    }

    // CREATE USER: IF NOT EXISTS for MySQL; PostgreSQL rejects an existing role.
    method ExecCreateUser(username: string, password: string, ghost op: Op) returns (ok: bool, ghost next: Op)
      requires username == op.info.username && password == op.info.password
      requires if engine.MySql? then op.pc.CreateUser? else op.pc.CreateRole?
      modifies this
      ensures Attempt(old(State()), op, old(budget)) == Attempt(State(), next, budget)
      ensures ok ==> next == op.(pc := if engine.MySql? then GrantDb else GrantRole)
      ensures !ok ==> Cut(next)
    {
      ok := Reaches();
      next := if ok then Step(State(), op).1 else op;
      if ok {
        ok := engine.Postgres? ==> username !in users;
        if ok {
          users := AddUser(users, username, password);
        }
      }
    }

    // GRANT ... ON db.* TO user for MySQL, GRANT role TO member for PostgreSQL.
    method ExecGrant(grant: Grant, username: string, ghost op: Op) returns (ok: bool, ghost next: Op)
      requires username == op.info.username
      requires
        if engine.MySql? then op.pc.GrantDb? && grant == OnDatabase(op.info.dbname, username)
        else op.pc.GrantRole? && op.task.Create? && grant == Membership(username, op.task.provider)
      modifies this
      ensures Attempt(old(State()), op, old(budget)) == Attempt(State(), next, budget)
      ensures ok ==> next == op.(pc := if engine.MySql? then Flush else CreateOwned)
      ensures !ok ==> Cut(next)
    {
      ok := Reaches();
      next := if ok then Step(State(), op).1 else op;
      if ok {
        ok := username in users;
        if ok {
          grants := grants + {grant};
        }
      }
    }

    // SELECT 1 FROM pg_roles.
    method QueryRoleExists(username: string, ghost op: Op) returns (r: Result<bool>, ghost next: Op)
      requires op.pc.RoleCheck? && username == op.info.username
      modifies this
      ensures Attempt(old(State()), op, old(budget)) == Attempt(State(), next, budget)
      ensures r.Success? ==> next == op.(pc := if r.value then GrantRole else CreateRole)
      ensures r.Failure? ==> Cut(next)
    {
      var ok := Reaches();
      next := if ok then Step(State(), op).1 else op;
      r := if ok then Success(username in users) else Failure;
    }

    method ExecDropDatabase(dbname: string, ghost op: Op) returns (ok: bool, ghost next: Op)
      requires op.pc.DropDb? && dbname == op.info.dbname
      modifies this
      ensures Attempt(old(State()), op, old(budget)) == Attempt(State(), next, budget)
      ensures ok ==> next == op.(pc := DropUser)
      ensures !ok ==> Cut(next)
    {
      ok := Reaches();
      next := if ok then Step(State(), op).1 else op;
      if ok {
        dbs := dbs - {dbname};
      }
    }

    method ExecDropUser(username: string, ghost op: Op) returns (ok: bool, ghost next: Op)
      requires op.pc.DropUser? && username == op.info.username
      modifies this
      ensures Attempt(old(State()), op, old(budget)) == Attempt(State(), next, budget)
      ensures ok ==> next == op.(pc := if engine.MySql? then Flush else Done)
      ensures !ok ==> Cut(next)
    {
      ok := Reaches();
      next := if ok then Step(State(), op).1 else op;
      if ok {
        ok := engine.Postgres? ==> !OwnsADatabase(State(), username);
        if ok {
          users, grants := users - {username}, set g | g in grants && !Concerns(g, username);
        }
      }
    }

    /** The operations */

    // databaseInfoMySQL and databaseInfoPostgreSQL, as the opening of an operation of the given task.
    method DatabaseInfo(key: Key, ghost task: Task) returns (r: Result<Info>, ghost drawn: Info, ghost op: Op)
      requires !task.Record?
      modifies this
      ensures Drawn(key.namespace, drawn)
      ensures Attempt(old(State()), Start(engine, task, key, drawn), old(budget)) == Attempt(State(), op, budget)
      ensures r.Success? ==> op == Continue(State(), key, task, drawn, r.value)
      ensures r.Failure? ==> Cut(op)
    {
      // Drawn ahead of the SELECT: a draw that is not needed has no effect.
      var info := CreateUserInfo(key.namespace);
      drawn := info;
      op := Start(engine, task, key, drawn);
      var ok;
      if engine.MySql? {
        ok, op := ExecNoEffect(op);
        if !ok {
          return Failure, drawn, op;
        }
      }
      var selected;
      selected, op := QueryRow(key, op);
      if selected.Failure? {
        return Failure, drawn, op;
      }
      if selected.value.Some? {
        return Success(selected.value.value), drawn, op;
      }
      ok, op := ExecInsert(Row(key, info), op);
      r := if ok then Success(info) else Failure;
    }

    method CreateDatabase(name: string, namespace: string, providerUsername: string)
      returns (r: Result<Info>, ghost drawn: Info)
      modifies this
      ensures Drawn(namespace, drawn)
      ensures var cut := Attempt(old(State()),
        Start(engine, Create(providerUsername), Key(name, namespace), drawn), old(budget));
        && State() == cut.0
        && (r.Success? <==> cut.1.pc.Done?) && (r.Success? ==> r.value == cut.1.info)
    {
      var found;
      ghost var op;
      found, drawn, op := DatabaseInfo(Key(name, namespace), Create(providerUsername));
      if found.Failure? {
        return Failure, drawn;
      }
      var ok;
      if engine.MySql? {
        ok, op := CreateMySql(found.value, op);
      } else {
        ok, op := CreatePostgres(found.value, providerUsername, op);
      }
      r := if ok then found else Failure;
    }

    method CreateMySql(info: Info, ghost op: Op) returns (ok: bool, ghost next: Op)
      requires engine.MySql? && op.pc.CreateDb? && op.info == info
      modifies this
      ensures Attempt(old(State()), op, old(budget)) == Attempt(State(), next, budget)
      ensures ok ==> next == op.(pc := Done)
      ensures !ok ==> Cut(next)
    {
      ok, next := ExecCreateDatabase(info.dbname, NO_OWNER, op);
      if !ok {
        return;
      }
      ok, next := ExecCreateUser(info.username, info.password, next);
      if !ok {
        return;
      }
      ok, next := GrantMySql(info, next);
    }

    method GrantMySql(info: Info, ghost op: Op) returns (ok: bool, ghost next: Op)
      requires engine.MySql? && op.pc.GrantDb? && op.info == info
      modifies this
      ensures Attempt(old(State()), op, old(budget)) == Attempt(State(), next, budget)
      ensures ok ==> next == op.(pc := Done)
      ensures !ok ==> Cut(next)
    {
      ok, next := ExecGrant(OnDatabase(info.dbname, info.username), info.username, op);
      if !ok {
        return;
      }
      ok, next := ExecNoEffect(next);
    }

    method CreatePostgres(info: Info, providerUsername: string, ghost op: Op) returns (ok: bool, ghost next: Op)
      requires engine.Postgres? && op.pc.RoleCheck? && op.info == info && op.task == Create(providerUsername)
      modifies this
      ensures Attempt(old(State()), op, old(budget)) == Attempt(State(), next, budget)
      ensures ok ==> next == op.(pc := Done)
      ensures !ok ==> Cut(next)
    {
      var userExists;
      userExists, next := QueryRoleExists(info.username, op);
      if userExists.Failure? {
        return false, next;
      }
      if !userExists.value {
        ok, next := ExecCreateUser(info.username, info.password, next);
        if !ok {
          return;
        }
      }
      ok, next := ExecGrant(Membership(info.username, providerUsername), info.username, next);
      if !ok {
        return;
      }
      ok, next := ExecCreateDatabase(info.dbname, info.username, next);
    }

    method DropDatabase(name: string, namespace: string) returns (ok: bool, ghost drawn: Info)
      modifies this
      ensures Drawn(namespace, drawn)
      ensures var cut := Attempt(old(State()), Start(engine, Drop, Key(name, namespace), drawn), old(budget));
        State() == cut.0 && (ok <==> cut.1.pc.Done?)
    {
      var found;
      ghost var op;
      found, drawn, op := DatabaseInfo(Key(name, namespace), Drop);
      if found.Failure? {
        return false, drawn;
      }
      ok, op := DropRow(found.value, op);
    }

    method DropRow(info: Info, ghost op: Op) returns (ok: bool, ghost next: Op)
      requires op.info == info && op.task.Drop? && op.pc == AfterLookup(engine, Drop)
      modifies this
      ensures Attempt(old(State()), op, old(budget)) == Attempt(State(), next, budget)
      ensures ok ==> next == op.(pc := Done)
      ensures !ok ==> Cut(next)
    {
      next := op;
      if engine.Postgres? {
        // Disconnect all users from the database.
        ok, next := ExecNoEffect(next);
        if !ok {
          return;
        }
      }
      ok, next := ExecDropDatabase(info.dbname, next);
      if !ok {
        return;
      }
      ok, next := ExecDropUser(info.username, next);
      if ok && engine.MySql? {
        ok, next := ExecNoEffect(next);
      }
    }

    method GetDatabaseInfo(name: string, namespace: string) returns (r: Result<Info>, ghost drawn: Info)
      modifies this
      ensures Drawn(namespace, drawn)
      ensures var cut := Attempt(old(State()), Start(engine, Fetch, Key(name, namespace), drawn), old(budget));
        && State() == cut.0
        && (r.Success? <==> cut.1.pc.Done?) && (r.Success? ==> r.value == cut.1.info)
    {
      ghost var op;
      r, drawn, op := DatabaseInfo(Key(name, namespace), Fetch);
    }

    // insertUserInfoIntoMysql and insertUserInfoIntoPostgreSQL.
    method SetDatabaseInfo(name: string, namespace: string, info: Info) returns (ok: bool)
      modifies this
      ensures var cut := Attempt(old(State()), Start(engine, Record(info), Key(name, namespace), info), old(budget));
        State() == cut.0 && (ok <==> cut.1.pc.Done?)
    {
      ghost var op := Start(engine, Record(info), Key(name, namespace), info);
      if engine.MySql? {
        ok, op := ExecNoEffect(op);
        if !ok {
          return;
        }
      }
      ok, op := ExecInsertIgnore(Row(Key(name, namespace), info), op);
    }
  }
}
