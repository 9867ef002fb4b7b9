// The state of one relational database server and the SQL statements the
// controller sends to it, each as one atomic step.
//
// An operation of internal/database/database.go is an `Op`: a program counter
// over its statements together with the local variables that survive from one
// statement to the next. `Step` executes the statement at the program counter.
// Sequential attempts (Attempt) and interleaved workers (module Workers) run the
// very same steps.
module Registry {
  import opened Common

  datatype Engine = MySql | Postgres

  datatype Key = Key(name: string, namespace: string)

  datatype Info = Info(username: string, password: string, dbname: string)

  // A row of the users table, without its surrogate id.
  datatype Row = Row(key: Key, info: Info)

  datatype Grant =
    | OnDatabase(dbname: string, grantee: string)
    | Membership(role: string, member: string)

  // dbs maps a database to its owner; MySQL databases have the owner NO_OWNER.
  datatype Server = Server(
    engine: Engine,
    rows: seq<Row>,
    dbs: map<string, string>,
    users: map<string, string>,
    grants: set<Grant>)

  const NO_OWNER := ""

  /** The table and its three UNIQUE constraints */

  predicate Conflict(a: Row, b: Row) {
    a.key == b.key || a.info.username == b.info.username || a.info.dbname == b.info.dbname
  }

  predicate Clashes(rows: seq<Row>, row: Row) {
    exists i :: 0 <= i < |rows| && Conflict(rows[i], row)
  }

  ghost predicate Unique(rows: seq<Row>) {
    forall i, j :: 0 <= i < j < |rows| ==> !Conflict(rows[i], rows[j])
  }

  // SELECT ... WHERE name = ? AND namespace = ?
  function Lookup(rows: seq<Row>, key: Key): (r: Option<Info>)
    ensures r.Some? ==> Row(key, r.value) in rows
    ensures r.None? <==> forall row :: row in rows ==> row.key != key
  {
    if rows == [] then None
    else if rows[0].key == key then Some(rows[0].info)
    else Lookup(rows[1..], key)
  }

  lemma LookupIs(rows: seq<Row>, key: Key, info: Info)
    requires Unique(rows) && Row(key, info) in rows
    ensures Lookup(rows, key) == Some(info)
  {
  }

  lemma LookupAppend(rows: seq<Row>, row: Row, key: Key)
    requires Unique(rows) && !Clashes(rows, row)
    ensures Unique(rows + [row])
    ensures Lookup(rows + [row], key) == if row.key == key then Some(row.info) else Lookup(rows, key)
  {
  }

  /** Operations and their statements */

  datatype Task = Create(provider: string) | Drop | Fetch | Record(info: Info)

  datatype Point =
    | Use | Select | Insert                             // databaseInfoMySQL, databaseInfoPostgreSQL
    | CreateDb | CreateUser | GrantDb | Flush           // CreateDatabase and DropDatabase, MySQL
    | RoleCheck | CreateRole | GrantRole | CreateOwned  // CreateDatabase, PostgreSQL
    | Terminate | DropDb | DropUser                     // DropDatabase
    | InsertIgnore                                      // SetDatabaseInfo
    | Done | Failed

  // drawn is what createUserInfo draws should the row be missing; info is the
  // local variable of that name.
  datatype Op = Op(task: Task, key: Key, drawn: Info, pc: Point, info: Info)

  function Start(engine: Engine, task: Task, key: Key, drawn: Info): Op {
    var pc := if engine.MySql? then Use else if task.Record? then InsertIgnore else Select;
    Op(task, key, drawn, pc, drawn)
  }

  predicate Ended(op: Op) {
    op.pc.Done? || op.pc.Failed?
  }

  // Where an operation continues once it knows its row.
  function AfterLookup(engine: Engine, task: Task): Point {
    match task
    case Create(_) => if engine.MySql? then CreateDb else RoleCheck
    case Drop => if engine.MySql? then DropDb else Terminate
    case Fetch => Done
    case Record(_) => Done
  }

  function AddDb(dbs: map<string, string>, dbname: string, owner: string): map<string, string> {
    if dbname in dbs then dbs else dbs[dbname := owner]
  }

  function AddUser(users: map<string, string>, username: string, password: string): map<string, string> {
    if username in users then users else users[username := password]
  }

  predicate Concerns(g: Grant, username: string) {
    match g
    case OnDatabase(_, grantee) => grantee == username
    case Membership(role, member) => role == username || member == username
  }

  predicate OwnsADatabase(s: Server, username: string) {
    exists d :: d in s.dbs && s.dbs[d] == username
  }

  function RemoveUser(s: Server, username: string): Server {
    s.(users := s.users - {username}, grants := set g | g in s.grants && !Concerns(g, username))
  }

  // One statement, executed by the server. The server itself may reject it
  // (a UNIQUE constraint, a role that exists or owns something): the operation then
  // returns the error, which is pc Failed.
  function Step(s: Server, op: Op): (r: (Server, Op))
    ensures r.0.engine == s.engine
    ensures r.1.key == op.key && r.1.task == op.task && r.1.drawn == op.drawn
  {
    var i := op.info;
    match op.pc
    case Use => (s, op.(pc := if op.task.Record? then InsertIgnore else Select))
    case Select =>
      (match Lookup(s.rows, op.key)
       case Some(info) => (s, op.(pc := AfterLookup(s.engine, op.task), info := info))
       case None => (s, op.(pc := Insert)))
    case Insert =>
      var row := Row(op.key, op.drawn);
      if Clashes(s.rows, row) then (s, op.(pc := Failed))
      else (s.(rows := s.rows + [row]), op.(pc := AfterLookup(s.engine, op.task), info := op.drawn))
    case InsertIgnore =>
      if op.task.Record? then
        var row := Row(op.key, op.task.info);
        (if Clashes(s.rows, row) then s else s.(rows := s.rows + [row]), op.(pc := Done))
      else (s, op.(pc := Failed))
    case CreateDb => (s.(dbs := AddDb(s.dbs, i.dbname, NO_OWNER)), op.(pc := CreateUser))
    case CreateUser => (s.(users := AddUser(s.users, i.username, i.password)), op.(pc := GrantDb))
    case GrantDb =>
      if i.username !in s.users then (s, op.(pc := Failed))
      else (s.(grants := s.grants + {OnDatabase(i.dbname, i.username)}), op.(pc := Flush))
    case Flush => (s, op.(pc := Done))
    case RoleCheck => (s, op.(pc := if i.username in s.users then GrantRole else CreateRole))
    case CreateRole =>
      if i.username in s.users then (s, op.(pc := Failed))
      else (s.(users := AddUser(s.users, i.username, i.password)), op.(pc := GrantRole))
    case GrantRole =>
      if i.username !in s.users || !op.task.Create? then (s, op.(pc := Failed))
      else (s.(grants := s.grants + {Membership(i.username, op.task.provider)}), op.(pc := CreateOwned))
    case CreateOwned =>
      if i.username !in s.users then (s, op.(pc := Failed))
      else (s.(dbs := AddDb(s.dbs, i.dbname, i.username)), op.(pc := Done))
    case Terminate => (s, op.(pc := DropDb))
    case DropDb => (s.(dbs := s.dbs - {i.dbname}), op.(pc := DropUser))
    case DropUser =>
      if s.engine.Postgres? && OwnsADatabase(s, i.username) then (s, op.(pc := Failed))
      else (RemoveUser(s, i.username), op.(pc := if s.engine.MySql? then Flush else Done))
    case Done => (s, op)
    case Failed => (s, op)
  }

  /** What an operation has achieved so far, whoever else works on the server */

  // The facts that hold of the server while op stands at its program counter.
  predicate OpOk(s: Server, op: Op) {
    var i := op.info;
    match op.pc
    case Use => s.engine.MySql?
    case Select => !op.task.Record?
    case Failed => true
    case InsertIgnore => op.task.Record?
    case Insert => !op.task.Record? && Lookup(s.rows, op.key).None?
    case Done =>
      (match op.task
       case Record(info) => Clashes(s.rows, Row(op.key, info))
       case Fetch => Lookup(s.rows, op.key) == Some(i)
       case Create(_) =>
         && Lookup(s.rows, op.key) == Some(i) && i.dbname in s.dbs && i.username in s.users
         && (s.engine.MySql? ==> OnDatabase(i.dbname, i.username) in s.grants)
       case Drop => Lookup(s.rows, op.key) == Some(i) && i.dbname !in s.dbs && i.username !in s.users)
    case _ =>
      && Lookup(s.rows, op.key) == Some(i)
      && (match op.pc
          case CreateDb => op.task.Create? && s.engine.MySql?
          case CreateUser => op.task.Create? && s.engine.MySql? && i.dbname in s.dbs
          case GrantDb => op.task.Create? && s.engine.MySql? && i.dbname in s.dbs && i.username in s.users
          case Flush =>
            && s.engine.MySql?
            && (match op.task
                case Create(_) =>
                  i.dbname in s.dbs && i.username in s.users && OnDatabase(i.dbname, i.username) in s.grants
                case Drop => i.dbname !in s.dbs && i.username !in s.users
                case _ => false)
          case RoleCheck => op.task.Create? && s.engine.Postgres?
          case CreateRole => op.task.Create? && s.engine.Postgres? && i.username !in s.users
          case GrantRole => op.task.Create? && s.engine.Postgres? && i.username in s.users
          case CreateOwned => op.task.Create? && s.engine.Postgres? && i.username in s.users
          case Terminate => op.task.Drop? && s.engine.Postgres?
          case DropDb => op.task.Drop?
          case DropUser => op.task.Drop? && i.dbname !in s.dbs
          case _ => false)
  }

  lemma StartOk(s: Server, task: Task, key: Key, drawn: Info)
    ensures OpOk(s, Start(s.engine, task, key, drawn))
  {
  }

  // A statement of the operation itself: the table keeps its constraints, only grows,
  // and the operation knows what its next program counter claims.
  lemma OwnStep(s: Server, op: Op)
    requires Unique(s.rows) && OpOk(s, op)
    ensures var (s', op') := Step(s, op);
      Unique(s'.rows) && s.rows <= s'.rows && OpOk(s', op')
  {
    if op.pc.Insert? && !Clashes(s.rows, Row(op.key, op.drawn)) {
      LookupAppend(s.rows, Row(op.key, op.drawn), op.key);
    } else if op.pc.InsertIgnore? {
      var row := Row(op.key, op.task.info);
      if !Clashes(s.rows, row) {
        LookupAppend(s.rows, row, op.key);
        var rows' := s.rows + [row];
        assert Conflict(rows'[|s.rows|], row);
      }
    }
  }

  // Distinct rows name distinct users and databases.
  lemma RowsApart(rows: seq<Row>, a: Key, b: Key)
    requires Unique(rows) && a != b && Lookup(rows, a).Some? && Lookup(rows, b).Some?
    ensures Lookup(rows, a).value.username != Lookup(rows, b).value.username
    ensures Lookup(rows, a).value.dbname != Lookup(rows, b).value.dbname
  {
  }

  lemma ClashesStays(rows: seq<Row>, more: seq<Row>, row: Row)
    requires rows <= more && Clashes(rows, row)
    ensures Clashes(more, row)
  {
  }

  // The program counters at which the operation already knows its row.
  predicate Knows(op: Op) {
    match op.pc
    case Use | Select | Insert | InsertIgnore | Failed => false
    case Done => !op.task.Record?
    case _ => true
  }

  // Everything a credential stands for on a server.
  datatype Holding = Holding(owner: Option<string>, password: Option<string>, granted: bool)

  function Holdings(s: Server, i: Info): Holding {
    Holding(
      if i.dbname in s.dbs then Some(s.dbs[i.dbname]) else None,
      if i.username in s.users then Some(s.users[i.username]) else None,
      OnDatabase(i.dbname, i.username) in s.grants)
  }

  // A statement touches nothing but the database and user its operation has looked up.
  lemma Frame(s: Server, other: Op, i: Info)
    requires Knows(other) ==> i.dbname != other.info.dbname && i.username != other.info.username
    ensures Holdings(Step(s, other).0, i) == Holdings(s, i)
  {
  }

  // What an operation knows depends on its row and on that row's holdings alone.
  lemma OpOkDependsOn(s: Server, s': Server, op: Op)
    requires OpOk(s, op) && s'.engine == s.engine && Lookup(s'.rows, op.key) == Lookup(s.rows, op.key)
    requires Knows(op) ==> Holdings(s', op.info) == Holdings(s, op.info)
    requires op.task.Record? && Clashes(s.rows, Row(op.key, op.task.info)) ==>
      Clashes(s'.rows, Row(op.key, op.task.info))
    ensures OpOk(s', op)
  {
  }

  // A statement of another request's operation cannot disturb this one: nothing
  // it has seen, created or dropped changes under it.
  lemma OtherStep(s: Server, op: Op, other: Op)
    requires Unique(s.rows) && OpOk(s, op) && OpOk(s, other) && op.key != other.key
    ensures OpOk(Step(s, other).0, op)
  {
    var s' := Step(s, other).0;
    OwnStep(s, other);
    OtherRows(s, other, op.key);
    if op.task.Record? && Clashes(s.rows, Row(op.key, op.task.info)) {
      ClashesStays(s.rows, s'.rows, Row(op.key, op.task.info));
    }
    if Knows(op) {
      KnowsItsRow(s, op);
      OtherHoldings(s, other, op.key);
    }
    OpOkDependsOn(s, s', op);
  }

  lemma KnowsItsRow(s: Server, op: Op)
    requires OpOk(s, op) && Knows(op)
    ensures Lookup(s.rows, op.key) == Some(op.info)
  {
  }

  lemma OtherHoldings(s: Server, other: Op, key: Key)
    requires Unique(s.rows) && OpOk(s, other) && key != other.key && Lookup(s.rows, key).Some?
    ensures var i := Lookup(s.rows, key).value; Holdings(Step(s, other).0, i) == Holdings(s, i)
  {
    if Knows(other) {
      KnowsItsRow(s, other);
      RowsApart(s.rows, other.key, key);
    }
    Frame(s, other, Lookup(s.rows, key).value);
  }

  // The row a statement is about to append, if it appends one.
  function Appended(s: Server, op: Op): Option<Row> {
    match op.pc
    case Insert => if Clashes(s.rows, Row(op.key, op.drawn)) then None else Some(Row(op.key, op.drawn))
    case InsertIgnore =>
      if op.task.Record? && !Clashes(s.rows, Row(op.key, op.task.info)) then Some(Row(op.key, op.task.info)) else None
    case _ => None
  }

  lemma StepRows(s: Server, op: Op)
    ensures Step(s, op).0.rows ==
      match Appended(s, op) { case None => s.rows case Some(row) => s.rows + [row] }
    ensures Appended(s, op).Some? ==> Appended(s, op).value.key == op.key && !Clashes(s.rows, Appended(s, op).value)
  {
  }

  lemma OtherRows(s: Server, other: Op, key: Key)
    requires Unique(s.rows) && key != other.key
    ensures Lookup(Step(s, other).0.rows, key) == Lookup(s.rows, key)
  {
    StepRows(s, other);
    match Appended(s, other)
    case None =>
    case Some(row) => LookupAppend(s.rows, row, key);
  }

  /** Isolation between requests */

  predicate SameMembership(s: Server, s': Server, i: Info, login: string) {
    Membership(i.username, login) in s'.grants <==> Membership(i.username, login) in s.grants
  }

  // A statement for one request leaves every other request's row in place and its database, user, password and
  // MySQL grant as they were; and the membership PostgreSQL grants to the provider's login, unless that login is
  // the very user of the request the statement is for.
  lemma Isolation(s: Server, op: Op, key: Key, login: string)
    requires Unique(s.rows) && OpOk(s, op) && key != op.key && Lookup(s.rows, key).Some?
    ensures var s' := Step(s, op).0; var i := Lookup(s.rows, key).value;
      && Lookup(s'.rows, key) == Some(i) && Holdings(s', i) == Holdings(s, i)
      && (Row(op.key, op.info) !in s.rows || op.info.username != login ==> SameMembership(s, s', i, login))
  {
    OtherRows(s, op, key);
    OtherHoldings(s, op, key);
    if Row(op.key, op.info) !in s.rows || op.info.username != login {
      OtherMembership(s, op, key, login);
    }
  }

  lemma OtherMembership(s: Server, op: Op, key: Key, login: string)
    requires Unique(s.rows) && OpOk(s, op) && key != op.key && Lookup(s.rows, key).Some?
    requires Row(op.key, op.info) !in s.rows || op.info.username != login
    ensures SameMembership(s, Step(s, op).0, Lookup(s.rows, key).value, login)
  {
    if Knows(op) {
      KnowsItsRow(s, op);
      RowsApart(s.rows, op.key, key);
      FrameMembership(s, op, Lookup(s.rows, key).value, login);
    }
  }

  lemma FrameMembership(s: Server, other: Op, i: Info, login: string)
    requires i.username != other.info.username && login != other.info.username
    ensures SameMembership(s, Step(s, other).0, i, login)
  {
  }

  // The databases and users that the table accounts for, beyond those in a baseline.
  ghost predicate Recorded(s: Server, dbs: set<string>, users: set<string>) {
    && (forall d :: d in s.dbs ==> d in dbs || exists row :: row in s.rows && row.info.dbname == d)
    && (forall u :: u in s.users ==> u in users || exists row :: row in s.rows && row.info.username == u)
  }

  // Registration precedes creation, statement by statement.
  lemma StepRecorded(s: Server, op: Op, dbs: set<string>, users: set<string>)
    requires Unique(s.rows) && OpOk(s, op) && Recorded(s, dbs, users)
    ensures Recorded(Step(s, op).0, dbs, users)
  {
  }

  /** The atomic operation that SELECT-then-INSERT stands for */

  function GetOrCreate(s: Server, key: Key, drawn: Info): (Server, Option<Info>) {
    match Lookup(s.rows, key)
    case Some(info) => (s, Some(info))
    case None =>
      if Clashes(s.rows, Row(key, drawn)) then (s, None)
      else (s.(rows := s.rows + [Row(key, drawn)]), Some(drawn))
  }
}
