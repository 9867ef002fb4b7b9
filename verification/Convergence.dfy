// Sequential attempts of one request, each cut at an arbitrary statement, and
// what a completed attempt leaves behind.
module Convergence {
  import opened Common
  import opened Registry

  // An attempt during which `budget` statements reach the server. The statement
  // after that fails or never happens, and the attempt ends where it is.
  function Attempt(s: Server, op: Op, budget: nat): (Server, Op)
    decreases budget
  {
    if budget == 0 || Ended(op) then (s, op)
    else var (s', op') := Step(s, op); Attempt(s', op', budget - 1)
  }

  // No operation has more statements than this.
  const FULL: nat := 7

  datatype Try = Try(drawn: Info, budget: nat)

  function Tried(s: Server, key: Key, task: Task, t: Try): (Server, Op) {
    Attempt(s, Start(s.engine, task, key, t.drawn), t.budget)
  }

  // The server after a finite sequence of interrupted calls of the same operation.
  function Retries(s: Server, key: Key, task: Task, tries: seq<Try>): Server
    decreases |tries|
  {
    if tries == [] then s
    else Retries(Tried(s, key, task, tries[0]).0, key, task, tries[1..])
  }

  lemma AttemptEngine(s: Server, op: Op, budget: nat)
    ensures Attempt(s, op, budget).0.engine == s.engine
    ensures Attempt(s, op, budget).1.key == op.key && Attempt(s, op, budget).1.task == op.task
    decreases budget
  {
  }

  lemma {:induction false} AttemptKeeps(s: Server, op: Op, budget: nat)
    requires Unique(s.rows) && OpOk(s, op)
    ensures var (s', op') := Attempt(s, op, budget);
      Unique(s'.rows) && s.rows <= s'.rows && OpOk(s', op')
    decreases budget
  {
    OwnStep(s, op);
    if budget == 0 || Ended(op) {
    } else {
      var (s', op') := Step(s, op);
      AttemptKeeps(s', op', budget - 1);
    }
  }

  /** The state every completed operation ends in, given its row */

  function Provisioned(s: Server, i: Info, provider: string): Server {
    match s.engine
    case MySql =>
      s.(dbs := AddDb(s.dbs, i.dbname, NO_OWNER),
         users := AddUser(s.users, i.username, i.password),
         grants := s.grants + {OnDatabase(i.dbname, i.username)})
    case Postgres =>
      s.(dbs := AddDb(s.dbs, i.dbname, i.username),
         users := AddUser(s.users, i.username, i.password),
         grants := s.grants + {Membership(i.username, provider)})
  }

  function Dropped(s: Server, i: Info): Server {
    RemoveUser(s.(dbs := s.dbs - {i.dbname}), i.username)
  }

  function Goal(s: Server, i: Info, task: Task): Server {
    match task
    case Create(provider) => Provisioned(s, i, provider)
    case Drop => Dropped(s, i)
    case _ => s
  }

  // PostgreSQL refuses to drop a role that still owns a database.
  predicate Droppable(s: Server, i: Info) {
    s.engine.Postgres? ==> forall d :: d in s.dbs && d != i.dbname ==> s.dbs[d] != i.username
  }

  predicate Achievable(s: Server, i: Info, task: Task) {
    task.Drop? ==> Droppable(s, i)
  }

  // Statements left once the row is known.
  function Remaining(op: Op): nat {
    match op.pc
    case CreateDb => 4 case CreateUser => 3 case GrantDb => 2 case Flush => 1
    case RoleCheck => 4 case CreateRole => 3 case GrantRole => 2 case CreateOwned => 1
    case Terminate => 4 case DropDb => 3 case DropUser => 2
    case _ => 0
  }

  // What the statements already executed have put in place.
  predicate Progress(s: Server, op: Op) {
    var i := op.info;
    match op.pc
    case CreateDb => op.task.Create? && s.engine.MySql?
    case CreateUser => op.task.Create? && s.engine.MySql? && i.dbname in s.dbs
    case GrantDb => op.task.Create? && s.engine.MySql? && i.dbname in s.dbs && i.username in s.users
    case RoleCheck => op.task.Create? && s.engine.Postgres?
    case CreateRole => op.task.Create? && s.engine.Postgres? && i.username !in s.users
    case GrantRole => op.task.Create? && s.engine.Postgres? && i.username in s.users
    case CreateOwned =>
      && op.task.Create? && s.engine.Postgres? && i.username in s.users
      && Membership(i.username, op.task.provider) in s.grants
    case Terminate => op.task.Drop? && s.engine.Postgres?
    case DropDb => op.task.Drop?
    case DropUser => op.task.Drop? && i.dbname !in s.dbs
    case Flush => s.engine.MySql? && (op.task.Create? || op.task.Drop?) && Goal(s, i, op.task) == s
    case Done => Goal(s, i, op.task) == s && Achievable(s, i, op.task)
    case Failed => !Achievable(s, i, op.task)
    case _ => false
  }

  // Each statement moves the server towards the same final state.
  lemma TowardsGoal(s: Server, op: Op)
    requires Progress(s, op) && !Ended(op)
    ensures var (s', op') := Step(s, op);
      && op'.info == op.info && Progress(s', op') && s'.rows == s.rows
      && Remaining(op') < Remaining(op)
      && Goal(s', op.info, op.task) == Goal(s, op.info, op.task)
      && Achievable(s', op.info, op.task) == Achievable(s, op.info, op.task)
  {
    if op.task.Drop? {
      TowardsDropped(s, op);
    }
  }

  lemma TowardsDropped(s: Server, op: Op)
    requires Progress(s, op) && !Ended(op) && op.task.Drop?
    ensures var (s', op') := Step(s, op);
      && Progress(s', op')
      && Dropped(s', op.info) == Dropped(s, op.info)
      && Droppable(s', op.info) == Droppable(s, op.info)
  {
    match op.pc
    case DropDb => DropDbFirst(s, op.info);
    case DropUser => DropUserThen(s, op.info);
    case _ =>
  }

  lemma DropDbFirst(s: Server, i: Info)
    ensures var s' := s.(dbs := s.dbs - {i.dbname});
      Dropped(s', i) == Dropped(s, i) && Droppable(s', i) == Droppable(s, i)
  {
    var s' := s.(dbs := s.dbs - {i.dbname});
    assert s'.dbs - {i.dbname} == s'.dbs;
    if Droppable(s', i) {
      forall d | d in s.dbs && d != i.dbname && s.engine.Postgres? ensures s.dbs[d] != i.username {
        assert d in s'.dbs;
      }
    }
  }

  lemma DropUserThen(s: Server, i: Info)
    requires i.dbname !in s.dbs
    ensures var s' := RemoveUser(s, i.username);
      && Dropped(s, i) == s' && Dropped(s', i) == s' && Droppable(s', i) == Droppable(s, i)
      && (s.engine.Postgres? ==> (OwnsADatabase(s, i.username) <==> !Droppable(s, i)))
  {
  }

  lemma {:induction false} FinishFromRow(s: Server, op: Op, budget: nat)
    requires Progress(s, op)
    ensures var (s', op') := Attempt(s, op, budget);
      && op'.info == op.info && s'.rows == s.rows
      && Goal(s', op.info, op.task) == Goal(s, op.info, op.task)
      && Achievable(s', op.info, op.task) == Achievable(s, op.info, op.task)
      && (op'.pc.Done? ==> s' == Goal(s, op.info, op.task))
      && (budget >= Remaining(op) ==> Ended(op') && Progress(s', op'))
    decreases budget
  {
    if budget == 0 || Ended(op) {
    } else {
      TowardsGoal(s, op);
      var (s', op') := Step(s, op);
      FinishFromRow(s', op', budget - 1);
    }
  }

  // Statements up to and including the SELECT.
  function Preamble(engine: Engine): nat {
    if engine.MySql? then 2 else 1
  }

  function Continue(s: Server, key: Key, task: Task, drawn: Info, i: Info): Op {
    Op(task, key, drawn, AfterLookup(s.engine, task), i)
  }

  // An attempt that finds the row continues with it.
  lemma AttemptWithRow(s: Server, key: Key, task: Task, t: Try)
    requires Lookup(s.rows, key).Some? && !task.Record?
    ensures var i := Lookup(s.rows, key).value; var p := Preamble(s.engine);
      if t.budget < p then Tried(s, key, task, t).0 == s && !Ended(Tried(s, key, task, t).1)
      else Tried(s, key, task, t) == Attempt(s, Continue(s, key, task, t.drawn, i), t.budget - p)
  {
    var op := Start(s.engine, task, key, t.drawn);
    if t.budget > 0 {
      var (s1, op1) := Step(s, op);
      assert Tried(s, key, task, t) == Attempt(s1, op1, t.budget - 1);
      if s.engine.MySql? && t.budget > 1 {
        assert Attempt(s1, op1, t.budget - 1) == Attempt(s, Step(s1, op1).1, t.budget - 2);
      }
    }
  }

  // An attempt that finds no row either changes nothing or inserts its own draw first.
  lemma AttemptWithoutRow(s: Server, key: Key, task: Task, t: Try)
    requires Lookup(s.rows, key).None? && !task.Record?
    ensures var p := Preamble(s.engine); var row := Row(key, t.drawn);
      if t.budget < p + 1 || Clashes(s.rows, row) then
        Tried(s, key, task, t).0 == s && !Tried(s, key, task, t).1.pc.Done?
      else
        var s' := s.(rows := s.rows + [row]);
        Tried(s, key, task, t) == Attempt(s', Continue(s', key, task, t.drawn, t.drawn), t.budget - p - 1)
  {
    var op := Start(s.engine, task, key, t.drawn);
    if t.budget > 0 {
      var (s1, op1) := Step(s, op);
      assert Tried(s, key, task, t) == Attempt(s1, op1, t.budget - 1);
      if t.budget > 1 {
        var (s2, op2) := Step(s1, op1);
        assert Attempt(s1, op1, t.budget - 1) == Attempt(s2, op2, t.budget - 2);
        if s.engine.MySql? && t.budget > 2 {
          var (s3, op3) := Step(s2, op2);
          assert Attempt(s2, op2, t.budget - 2) == Attempt(s3, op3, t.budget - 3);
        }
      }
    }
  }

  // The row a sequence of attempts settles on: the one already there, else the
  // first draw whose INSERT was reached and accepted, else the last attempt's.
  function FirstRow(s: Server, key: Key, tries: seq<Try>, last: Info): Info {
    if Lookup(s.rows, key).Some? then Lookup(s.rows, key).value
    else if tries == [] then last
    else if tries[0].budget > Preamble(s.engine) && !Clashes(s.rows, Row(key, tries[0].drawn)) then tries[0].drawn
    else FirstRow(s, key, tries[1..], last)
  }

  // Whether an uninterrupted run with that row completes: its INSERT is accepted
  // if it needs one, and a drop is not refused.
  predicate Completes(s: Server, key: Key, task: Task, i: Info) {
    (Lookup(s.rows, key).Some? || !Clashes(s.rows, Row(key, i))) && Achievable(s, i, task)
  }

  // The state of an uninterrupted run with row i.
  function Single(s: Server, key: Key, task: Task, i: Info): Server {
    Goal(if Lookup(s.rows, key).Some? then s else s.(rows := s.rows + [Row(key, i)]), i, task)
  }

  // A full attempt, in closed form.
  lemma FullAttempt(s: Server, key: Key, task: Task, drawn: Info)
    requires !task.Record?
    ensures var i := FirstRow(s, key, [], drawn); var r := Tried(s, key, task, Try(drawn, FULL));
      && (r.1.pc.Done? <==> Completes(s, key, task, i))
      && (r.1.pc.Done? ==> r.1.info == i && r.0 == Single(s, key, task, i))
  {
    var p := Preamble(s.engine);
    if Lookup(s.rows, key).Some? {
      var i := Lookup(s.rows, key).value;
      var op := Continue(s, key, task, drawn, i);
      AttemptWithRow(s, key, task, Try(drawn, FULL));
      FinishFromRow(s, op, FULL - p);
      AttemptEngine(s, op, FULL - p);
    } else {
      AttemptWithoutRow(s, key, task, Try(drawn, FULL));
      var s' := s.(rows := s.rows + [Row(key, drawn)]);
      var op := Continue(s', key, task, drawn, drawn);
      if !Clashes(s.rows, Row(key, drawn)) {
        FinishFromRow(s', op, FULL - p - 1);
        AttemptEngine(s', op, FULL - p - 1);
      }
    }
  }

  // Crash-retry convergence of CreateDatabase, DropDatabase and GetDatabaseInfo: interrupted
  // attempts followed by a full one complete exactly when one uninterrupted run with the first row
  // inserted would, and then leave that run's state and return that row.
  lemma {:induction false} RetriesConverge(s: Server, key: Key, task: Task, tries: seq<Try>, last: Info)
    requires Unique(s.rows) && !task.Record?
    ensures var i := FirstRow(s, key, tries, last);
      var r := Tried(Retries(s, key, task, tries), key, task, Try(last, FULL));
      && (r.1.pc.Done? <==> Completes(s, key, task, i))
      && (r.1.pc.Done? ==> r.1.info == i && r.0 == Single(s, key, task, i))
    decreases |tries|
  {
    if tries == [] {
      FullAttempt(s, key, task, last);
    } else if Lookup(s.rows, key).Some? {
      RetryWithRow(s, key, task, tries[0]);
      RetriesConverge(Tried(s, key, task, tries[0]).0, key, task, tries[1..], last);
    } else {
      RetryWithoutRow(s, key, task, tries[0]);
      RetriesConverge(Tried(s, key, task, tries[0]).0, key, task, tries[1..], last);
    }
  }

  // The same, said of the runs themselves: the caller of the last attempt cannot tell the interrupted
  // history from one uninterrupted call that drew the first row.
  lemma RetriesLikeOneRun(s: Server, key: Key, task: Task, tries: seq<Try>, last: Info)
    requires Unique(s.rows) && !task.Record?
    ensures var single := Tried(s, key, task, Try(FirstRow(s, key, tries, last), FULL));
      var r := Tried(Retries(s, key, task, tries), key, task, Try(last, FULL));
      && (r.1.pc.Done? <==> single.1.pc.Done?)
      && (r.1.pc.Done? ==> r.0 == single.0 && r.1.info == single.1.info)
  {
    RetriesConverge(s, key, task, tries, last);
    FullAttempt(s, key, task, FirstRow(s, key, tries, last));
  }

  // Once the row is there, an attempt does not change where the next full one ends.
  lemma RetryWithRow(s: Server, key: Key, task: Task, t: Try)
    requires Lookup(s.rows, key).Some? && !task.Record?
    ensures var s' := Tried(s, key, task, t).0; var i := Lookup(s.rows, key).value;
      && s'.rows == s.rows
      && Goal(s', i, task) == Goal(s, i, task) && Achievable(s', i, task) == Achievable(s, i, task)
  {
    var i := Lookup(s.rows, key).value;
    AttemptWithRow(s, key, task, t);
    if t.budget >= Preamble(s.engine) {
      FinishFromRow(s, Continue(s, key, task, t.drawn, i), t.budget - Preamble(s.engine));
    }
  }

  lemma RetryWithoutRow(s: Server, key: Key, task: Task, t: Try)
    requires Unique(s.rows) && Lookup(s.rows, key).None? && !task.Record?
    ensures var s' := Tried(s, key, task, t).0; var i := t.drawn;
      if t.budget <= Preamble(s.engine) || Clashes(s.rows, Row(key, i)) then s' == s
      else
        && Unique(s'.rows) && Lookup(s'.rows, key) == Some(i)
        && Goal(s', i, task) == Single(s, key, task, i) && Achievable(s', i, task) == Achievable(s, i, task)
  {
    var i := t.drawn;
    AttemptWithoutRow(s, key, task, t);
    if t.budget > Preamble(s.engine) && !Clashes(s.rows, Row(key, i)) {
      var s1 := s.(rows := s.rows + [Row(key, i)]);
      LookupAppend(s.rows, Row(key, i), key);
      InsertedThenCut(s1, key, task, i, t.budget - Preamble(s.engine) - 1);
      assert Achievable(s1, i, task) == Achievable(s, i, task);
    }
  }

  lemma InsertedThenCut(s: Server, key: Key, task: Task, i: Info, budget: nat)
    requires !task.Record?
    ensures var s' := Attempt(s, Continue(s, key, task, i, i), budget).0;
      && s'.rows == s.rows
      && Goal(s', i, task) == Goal(s, i, task) && Achievable(s', i, task) == Achievable(s, i, task)
  {
    FinishFromRow(s, Continue(s, key, task, i, i), budget);
  }

  /** What that state is, in terms of the databases, users and grants themselves */

  // A create that completes leaves its row, its database (owned by its user on PostgreSQL, if it had to be made), its
  // user and the grant: on the database to the user for MySQL, of the user's role to the provider's login for
  // PostgreSQL.
  lemma CreateLeaves(s: Server, key: Key, provider: string, tries: seq<Try>, last: Info)
    requires Unique(s.rows)
    ensures var (s', op) := Tried(Retries(s, key, Create(provider), tries), key, Create(provider), Try(last, FULL));
      var i := op.info;
      op.pc.Done? ==>
        && Row(key, i) in s'.rows && (s'.rows == s.rows || s'.rows == s.rows + [Row(key, i)])
        && s'.dbs.Keys == s.dbs.Keys + {i.dbname} && (forall d :: d in s.dbs ==> s'.dbs[d] == s.dbs[d])
        && (i.dbname !in s.dbs ==> s'.dbs[i.dbname] == if s.engine.MySql? then "" else i.username)
        && s'.users.Keys == s.users.Keys + {i.username} && (forall u :: u in s.users ==> s'.users[u] == s.users[u])
        && (i.username !in s.users ==> s'.users[i.username] == i.password)
        && s'.grants == s.grants
             + {if s.engine.MySql? then OnDatabase(i.dbname, i.username) else Membership(i.username, provider)}
  {
    RetriesConverge(s, key, Create(provider), tries, last);
    ProvisionedIs(s, FirstRow(s, key, tries, last), provider);
  }

  lemma ProvisionedIs(s: Server, i: Info, provider: string)
    ensures var s' := Provisioned(s, i, provider);
      && s'.rows == s.rows
      && s'.dbs.Keys == s.dbs.Keys + {i.dbname} && (forall d :: d in s.dbs ==> s'.dbs[d] == s.dbs[d])
      && (i.dbname !in s.dbs ==> s'.dbs[i.dbname] == if s.engine.MySql? then "" else i.username)
      && s'.users.Keys == s.users.Keys + {i.username} && (forall u :: u in s.users ==> s'.users[u] == s.users[u])
      && (i.username !in s.users ==> s'.users[i.username] == i.password)
      && s'.grants == s.grants
           + {if s.engine.MySql? then OnDatabase(i.dbname, i.username) else Membership(i.username, provider)}
  {
  }

  // A drop that completes leaves its row, and takes its database, its user and every grant to or of that user away.
  lemma DropLeaves(s: Server, key: Key, tries: seq<Try>, last: Info)
    requires Unique(s.rows)
    ensures var (s', op) := Tried(Retries(s, key, Drop, tries), key, Drop, Try(last, FULL)); var i := op.info;
      op.pc.Done? ==>
        && Row(key, i) in s'.rows && (s'.rows == s.rows || s'.rows == s.rows + [Row(key, i)])
        && s'.dbs.Keys == s.dbs.Keys - {i.dbname} && (forall d :: d in s'.dbs ==> s'.dbs[d] == s.dbs[d])
        && s'.users.Keys == s.users.Keys - {i.username} && (forall u :: u in s'.users ==> s'.users[u] == s.users[u])
        && (forall d, u :: OnDatabase(d, u) in s'.grants <==> OnDatabase(d, u) in s.grants && u != i.username)
        && (forall r, m :: Membership(r, m) in s'.grants
                           <==> Membership(r, m) in s.grants && r != i.username && m != i.username)
  {
    RetriesConverge(s, key, Drop, tries, last);
  }

  // CREATE USER IF NOT EXISTS and the role check leave an existing user alone:
  // the returned password opens the account exactly when the account was absent or
  // already had it.
  lemma PasswordMatches(s: Server, i: Info, provider: string)
    ensures var s' := Provisioned(s, i, provider);
      i.username in s'.users
      && (s'.users[i.username] == i.password <==> i.username !in s.users || s.users[i.username] == i.password)
  {
  }

  /** SetDatabaseInfo and GetDatabaseInfo */

  function Set(s: Server, key: Key, info: Info): Server {
    Attempt(s, Start(s.engine, Record(info), key, info), FULL).0
  }

  function Get(s: Server, key: Key, drawn: Info): (Server, Result<Info>) {
    var (s', op) := Attempt(s, Start(s.engine, Fetch, key, drawn), FULL);
    (s', if op.pc.Done? then Success(op.info) else Failure)
  }

  lemma SetIs(s: Server, key: Key, info: Info)
    ensures Set(s, key, info) ==
      if Clashes(s.rows, Row(key, info)) then s else s.(rows := s.rows + [Row(key, info)])
  {
  }

  // GetDatabaseInfo is the atomic get-or-create when nothing runs in between.
  lemma GetIs(s: Server, key: Key, drawn: Info)
    ensures var (s', found) := GetOrCreate(s, key, drawn);
      Get(s, key, drawn) == (s', match found case Some(i) => Success(i) case None => Failure)
  {
  }

  // The exact round trip: what was set is what is read back, unless INSERT IGNORE
  // silently ignored it and the request's own row does not already say the same.
  lemma SetThenGet(s: Server, key: Key, info: Info, drawn: Info)
    requires Unique(s.rows)
    ensures Get(Set(s, key, info), key, drawn).1 == Success(info)
            <==> !Clashes(s.rows, Row(key, info)) || Lookup(s.rows, key) == Some(info)
  {
    var s' := Set(s, key, info);
    SetIs(s, key, info);
    GetIs(s', key, drawn);
    if !Clashes(s.rows, Row(key, info)) {
      LookupAppend(s.rows, Row(key, info), key);
    }
  }

  // Reading twice gives the same answer and leaves the server as the first read did.
  lemma GetTwice(s: Server, key: Key, drawn: Info, again: Info)
    requires Unique(s.rows) && Get(s, key, drawn).1.Success?
    ensures Get(Get(s, key, drawn).0, key, again) == Get(s, key, drawn)
  {
    GetIs(s, key, drawn);
    GetIs(Get(s, key, drawn).0, key, again);
    if Lookup(s.rows, key).None? {
      LookupAppend(s.rows, Row(key, drawn), key);
    }
  }
}
