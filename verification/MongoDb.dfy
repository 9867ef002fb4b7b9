// internal/database/mongodb/mongodb.go: the same job as the SQL registry with no lock and no UNIQUE
// constraint, an atomic upsert, and the steps in another order.
module MongoDb {
  import opened Common
  import opened Registry

  datatype Account = Account(password: string, dbname: string)

  // docs is the users collection by its filter (name, namespace); accounts are the auth users of the
  // admin database with the database they may write.
  datatype Mongo = Mongo(docs: map<Key, Info>, dbs: set<string>, accounts: map<string, Account>)

  datatype Call = CreateCall | DropCall

  // The next command of a call.
  datatype At =
    | Find
    | InitDb | Upsert | UsersInfo | CreateAccount     // CreateUserAndDatabase
    | DropDatabase | DropAccount | DeleteDoc          // DropUserAndDatabase
    | Completed | Broken

  // drawn is what createMongoDBUserInfo draws; info is userInfo.
  datatype Job = Job(call: Call, key: Key, drawn: Info, at: At, info: Info)

  function Begin(call: Call, key: Key, drawn: Info): Job {
    Job(call, key, drawn, Find, drawn)
  }

  predicate Over(j: Job) {
    j.at.Completed? || j.at.Broken?
  }

  function AddAccount(accounts: map<string, Account>, i: Info): map<string, Account> {
    if i.username in accounts then accounts else accounts[i.username := Account(i.password, i.dbname)]
  }

  // One command, executed by the server.
  function Exec(m: Mongo, j: Job): (r: (Mongo, Job))
    ensures r.1.key == j.key && r.1.call == j.call && r.1.drawn == j.drawn
  {
    var i := j.info;
    match j.at
    case Find =>
      if j.key in m.docs then (m, j.(at := if j.call.CreateCall? then InitDb else DropDatabase, info := m.docs[j.key]))
      else (m, j.(at := if j.call.CreateCall? then InitDb else Completed, info := j.drawn))
    case InitDb => (m.(dbs := m.dbs + {i.dbname}), j.(at := Upsert))
    case Upsert =>
      if j.key in m.docs then (m, j.(at := UsersInfo, info := m.docs[j.key]))
      else (m.(docs := m.docs[j.key := i]), j.(at := UsersInfo))
    case UsersInfo => (m, j.(at := if i.username in m.accounts then Completed else CreateAccount))
    case CreateAccount =>
      if i.username in m.accounts then (m, j.(at := Broken))
      else (m.(accounts := AddAccount(m.accounts, i)), j.(at := Completed))
    case DropDatabase => (m.(dbs := m.dbs - {i.dbname}), j.(at := DropAccount))
    case DropAccount =>
      if i.username !in m.accounts then (m, j.(at := Broken))
      else (m.(accounts := m.accounts - {i.username}), j.(at := DeleteDoc))
    case DeleteDoc =>
      if j.key !in m.docs then (m, j.(at := Broken)) else (m.(docs := m.docs - {j.key}), j.(at := Completed))
    case Completed => (m, j)
    case Broken => (m, j)
  }

  /** Any number of callers at once */

  datatype Pool = Pool(m: Mongo, jobs: map<nat, Job>)

  datatype Turn = Arrive(id: nat, call: Call, key: Key, drawn: Info) | Go(id: nat) | Die(id: nat)

  function Next(p: Pool, t: Turn): Pool {
    match t
    case Arrive(id, call, key, drawn) => if id in p.jobs then p else p.(jobs := p.jobs[id := Begin(call, key, drawn)])
    case Go(id) =>
      if id !in p.jobs then p
      else var (m', j') := Exec(p.m, p.jobs[id]); Pool(m', p.jobs[id := j'])
    case Die(id) => p.(jobs := p.jobs - {id})
  }

  function Run(p: Pool, turns: seq<Turn>): Pool
    decreases |turns|
  {
    if turns == [] then p else Run(Next(p, turns[0]), turns[1..])
  }

  predicate NeverDropped(key: Key, turns: seq<Turn>) {
    forall t :: t in turns && t.Arrive? && t.key == key ==> t.call.CreateCall?
  }

  // From its upsert on a create holds what its document says.
  predicate Agrees(m: Mongo, j: Job) {
    j.at.UsersInfo? || j.at.CreateAccount? || j.at.Completed? ==> j.key in m.docs && m.docs[j.key] == j.info
  }

  ghost predicate AllAgree(p: Pool, key: Key) {
    forall id :: id in p.jobs && p.jobs[id].key == key ==>
      && p.jobs[id].call.CreateCall? && Agrees(p.m, p.jobs[id])
      && !p.jobs[id].at.DropDatabase? && !p.jobs[id].at.DropAccount? && !p.jobs[id].at.DeleteDoc?
  }

  lemma NextAgrees(p: Pool, t: Turn, key: Key)
    requires AllAgree(p, key) && NeverDropped(key, [t])
    ensures AllAgree(Next(p, t), key)
  {
  }

  lemma {:induction false} RunAgrees(p: Pool, turns: seq<Turn>, key: Key)
    requires AllAgree(p, key) && NeverDropped(key, turns)
    ensures AllAgree(Run(p, turns), key)
    decreases |turns|
  {
    if turns == [] {
    } else {
      assert turns[0] in turns;
      NextAgrees(p, turns[0], key);
      RunAgrees(Next(p, turns[0]), turns[1..], key);
    }
  }

  // Without any lock: whatever interleaving of any number of callers, crashes included, every completed
  // create returns the stored document's credentials, so all callers for a key get the same ones.
  lemma OneCredentialWithoutLock(m: Mongo, turns: seq<Turn>, key: Key, a: nat, b: nat)
    requires NeverDropped(key, turns)
    requires var p := Run(Pool(m, map[]), turns);
      && a in p.jobs && b in p.jobs && p.jobs[a].key == key && p.jobs[b].key == key
      && p.jobs[a].at.Completed? && p.jobs[b].at.Completed?
    ensures var p := Run(Pool(m, map[]), turns);
      key in p.m.docs && p.jobs[a].info == p.m.docs[key] == p.jobs[b].info
  {
    RunAgrees(Pool(m, map[]), turns, key);
  }

  /** Databases that no document names */

  predicate NamesDb(m: Mongo, d: string) {
    exists k :: k in m.docs && m.docs[k].dbname == d
  }

  predicate DrawsDb(t: Turn, d: string) {
    t.Arrive? && t.drawn.dbname == d
  }

  // Only a create draws this name, at most one, and nobody drops for its key.
  predicate OneDraw(turns: seq<Turn>, key: Key, d: string) {
    && (forall i :: 0 <= i < |turns| && DrawsDb(turns[i], d) ==> turns[i].key == key && turns[i].call.CreateCall?)
    && (forall i, k :: 0 <= i < k < |turns| && DrawsDb(turns[i], d) ==> !DrawsDb(turns[k], d))
    && NeverDropped(key, turns)
  }

  predicate PastUpsert(at: At) {
    at.UsersInfo? || at.CreateAccount? || at.Completed? || at.Broken?
  }

  // How the database stands that a create has drawn.
  predicate OwnDb(m: Mongo, j: Job, d: string) {
    match j.at
    case Find => d !in m.dbs && !NamesDb(m, d)
    case InitDb => d !in m.dbs && !NamesDb(m, d)
    case Upsert => (d in m.dbs <==> j.info.dbname == d) && !NamesDb(m, d)
    case _ =>
      && PastUpsert(j.at) && j.key in m.docs && m.docs[j.key] == j.info
      && (j.info.dbname == d ==> d in m.dbs)
  }

  // Of all jobs only own has drawn the name, and only documents of its key may bear it.
  predicate Bears(m: Mongo, j: Job, key: Key, d: string) {
    j.info.dbname == d ==> j.key == key && key in m.docs && m.docs[key].dbname == d
  }

  predicate OnlyFor(m: Mongo, key: Key, d: string) {
    forall k :: k in m.docs && m.docs[k].dbname == d ==> k == key
  }

  ghost predicate Others(p: Pool, key: Key, d: string, own: set<nat>) {
    && OnlyFor(p.m, key, d)
    && forall i :: i in p.jobs && i !in own ==> p.jobs[i].drawn.dbname != d && Bears(p.m, p.jobs[i], key, d)
  }

  // Nobody has drawn the name yet; or job id has, and it is still there; or nobody can draw it any more.
  ghost predicate Unused(p: Pool, key: Key, d: string) {
    d !in p.m.dbs && !NamesDb(p.m, d) && Others(p, key, d, {})
  }

  ghost predicate Drew(p: Pool, key: Key, d: string, id: nat) {
    && id in p.jobs && p.jobs[id].key == key && p.jobs[id].call.CreateCall? && p.jobs[id].drawn.dbname == d
    && OwnDb(p.m, p.jobs[id], d) && Others(p, key, d, {id})
  }

  ghost predicate NoDrawer(p: Pool, d: string) {
    forall i :: i in p.jobs ==> p.jobs[i].drawn.dbname != d
  }

  // A command of another job.
  lemma OtherCommand(m: Mongo, j: Job, key: Key, d: string)
    requires j.drawn.dbname != d && Bears(m, j, key, d) && OnlyFor(m, key, d)
    requires j.key == key ==> j.call.CreateCall? && !j.at.DropDatabase? && !j.at.DropAccount? && !j.at.DeleteDoc?
    ensures var (m', j') := Exec(m, j);
      && OnlyFor(m', key, d) && Bears(m', j', key, d)
      && (NamesDb(m', d) <==> NamesDb(m, d))
      && (key in m.docs ==> key in m'.docs && m'.docs[key] == m.docs[key])
      && (d in m.dbs ==> d in m'.dbs) && (d in m'.dbs ==> d in m.dbs || NamesDb(m, d))
  {
    var (m', j') := Exec(m, j);
    if k :| k in m.docs && m.docs[k].dbname == d {
      assert k == key && m'.docs[key] == m.docs[key];
    }
  }

  // A command of the job that drew the name.
  lemma OwnCommand(m: Mongo, j: Job, d: string)
    requires j.call.CreateCall? && j.drawn.dbname == d && OwnDb(m, j, d) && OnlyFor(m, j.key, d)
    ensures var (m', j') := Exec(m, j);
      && OwnDb(m', j', d) && OnlyFor(m', j.key, d)
      && (j.key in m.docs ==> j.key in m'.docs && m'.docs[j.key] == m.docs[j.key])
  {
    var (m', j') := Exec(m, j);
    if j.at.Upsert? && j.key !in m.docs && j.info.dbname == d {
      assert m'.docs[j.key].dbname == d;
    }
  }

  lemma TurnDrew(p: Pool, t: Turn, key: Key, d: string, id: nat)
    requires Drew(p, key, d, id) && AllAgree(p, key) && !DrawsDb(t, d)
    ensures id in Next(p, t).jobs ==> Drew(Next(p, t), key, d, id)
    ensures id !in Next(p, t).jobs ==> NoDrawer(Next(p, t), d)
  {
    if t.Go? && t.id in p.jobs {
      if t.id == id {
        OwnCommand(p.m, p.jobs[id], d);
      } else {
        OtherCommand(p.m, p.jobs[t.id], key, d);
      }
    }
  }

  lemma TurnUnused(p: Pool, t: Turn, key: Key, d: string)
    requires Unused(p, key, d) && AllAgree(p, key) && (DrawsDb(t, d) ==> t.key == key && t.call.CreateCall?)
    ensures Unused(Next(p, t), key, d) || (t.Arrive? && DrawsDb(t, d) && Drew(Next(p, t), key, d, t.id))
  {
    if t.Go? && t.id in p.jobs {
      OtherCommand(p.m, p.jobs[t.id], key, d);
    }
  }

  lemma {:induction false} RunDraws(p: Pool, turns: seq<Turn>, key: Key, d: string, id: nat)
    requires OneDraw(turns, key, d) && AllAgree(p, key)
    requires Unused(p, key, d) || (NoDraw(turns, d) && (NoDrawer(p, d) || exists i :: Drew(p, key, d, i)))
    ensures var q := Run(p, turns); id in q.jobs && q.jobs[id].drawn.dbname == d ==> Drew(q, key, d, id)
    decreases |turns|
  {
    if turns == [] {
    } else {
      var t, p' := turns[0], Next(p, turns[0]);
      assert NeverDropped(key, [t]) by {
        assert t in turns;
      }
      NextAgrees(p, t, key);
      assert OneDraw(turns[1..], key, d) by {
        assert forall i :: 0 <= i < |turns[1..]| ==> turns[1..][i] == turns[i + 1];
      }
      if Unused(p, key, d) {
        TurnUnused(p, t, key, d);
        if DrawsDb(t, d) {
          assert NoDraw(turns[1..], d);
        }
      } else if i :| Drew(p, key, d, i) {
        TurnDrew(p, t, key, d, i);
      }
      RunDraws(p', turns[1..], key, d, id);
    }
  }

  predicate NoDraw(turns: seq<Turn>, d: string) {
    forall i :: 0 <= i < |turns| ==> !DrawsDb(turns[i], d)
  }

  // Whatever the interleaving, the database that a create has drawn is made and named by no document exactly between
  // its own first write and its own upsert, or when another create's upsert for the key came first.
  lemma UnnamedDatabaseIff(m: Mongo, turns: seq<Turn>, id: nat)
    requires id in Run(Pool(m, map[]), turns).jobs
    requires var j := Run(Pool(m, map[]), turns).jobs[id]; var d := j.drawn.dbname;
      OneDraw(turns, j.key, d) && d !in m.dbs && !NamesDb(m, d)
    ensures var p := Run(Pool(m, map[]), turns); var j := p.jobs[id]; var d := j.drawn.dbname;
      d in p.m.dbs && !NamesDb(p.m, d)
      <==> (j.at.Upsert? && j.info.dbname == d) || (d in p.m.dbs && PastUpsert(j.at) && j.info.dbname != d)
  {
    var p := Run(Pool(m, map[]), turns);
    var j := p.jobs[id];
    RunDraws(Pool(m, map[]), turns, j.key, j.drawn.dbname, id);
  }

  // So it takes no crash: of two creates that both complete, the loser's database stays behind.
  lemma RacingCreates(m: Mongo, key: Key, a: Info, b: Info)
    requires key !in m.docs && a.dbname != b.dbname && !NamesDb(m, b.dbname) && a.username !in m.accounts
    ensures var turns :=
        [Arrive(0, CreateCall, key, a), Arrive(1, CreateCall, key, b), Go(0), Go(1), Go(0), Go(1)]
        + [Go(0), Go(1), Go(0), Go(0), Go(1)];
      var p := Run(Pool(m, map[]), turns);
      && 0 in p.jobs && 1 in p.jobs && p.jobs[0].at.Completed? && p.jobs[1].at.Completed?
      && b.dbname in p.m.dbs && !NamesDb(p.m, b.dbname)
  {
    var first := [Arrive(0, CreateCall, key, a), Arrive(1, CreateCall, key, b), Go(0), Go(1), Go(0), Go(1)];
    var second := [Go(0), Go(1), Go(0), Go(0), Go(1)];
    var j0, j1 := Begin(CreateCall, key, a), Begin(CreateCall, key, b);
    var p := Pool(m.(dbs := m.dbs + {a.dbname} + {b.dbname}), map[0 := j0.(at := Upsert), 1 := j1.(at := Upsert)]);
    BothAtUpsert(m, key, a, b);
    FirstWins(p, key, a, b);
    RunConcat(Pool(m, map[]), first, second);
  }

  lemma BothAtUpsert(m: Mongo, key: Key, a: Info, b: Info)
    requires key !in m.docs
    ensures var j0, j1 := Begin(CreateCall, key, a), Begin(CreateCall, key, b);
      Run(Pool(m, map[]), [Arrive(0, CreateCall, key, a), Arrive(1, CreateCall, key, b), Go(0), Go(1), Go(0), Go(1)])
      == Pool(m.(dbs := m.dbs + {a.dbname} + {b.dbname}), map[0 := j0.(at := Upsert), 1 := j1.(at := Upsert)])
  {
    var j0, j1 := Begin(CreateCall, key, a), Begin(CreateCall, key, b);
    Six(Pool(m, map[]), Arrive(0, CreateCall, key, a), Arrive(1, CreateCall, key, b), Go(0), Go(1), Go(0), Go(1));
    assert map[][0 := j0][1 := j1] == map[0 := j0, 1 := j1];
  }

  lemma FirstWins(p: Pool, key: Key, a: Info, b: Info)
    requires key !in p.m.docs && a.dbname != b.dbname && !NamesDb(p.m, b.dbname) && a.username !in p.m.accounts
    requires b.dbname in p.m.dbs
    requires var j0, j1 := Begin(CreateCall, key, a), Begin(CreateCall, key, b);
      p.jobs == map[0 := j0.(at := Upsert), 1 := j1.(at := Upsert)]
    ensures var q := Run(p, [Go(0), Go(1), Go(0), Go(0), Go(1)]);
      && 0 in q.jobs && 1 in q.jobs && q.jobs[0].at.Completed? && q.jobs[1].at.Completed?
      && b.dbname in q.m.dbs && !NamesDb(q.m, b.dbname)
  {
    Six(p, Go(0), Go(1), Go(0), Go(0), Go(1), Go(1));
    var turns := [Go(0), Go(1), Go(0), Go(0), Go(1)];
    RunConcat(p, turns, [Go(1)]);
    assert turns + [Go(1)] == [Go(0), Go(1), Go(0), Go(0), Go(1), Go(1)];
  }

  lemma {:induction false} RunConcat(p: Pool, xs: seq<Turn>, ys: seq<Turn>)
    ensures Run(p, xs + ys) == Run(Run(p, xs), ys)
    decreases |xs|
  {
    if xs == [] {
      assert xs + ys == ys;
    } else {
      assert (xs + ys)[1..] == xs[1..] + ys;
      RunConcat(Next(p, xs[0]), xs[1..], ys);
    }
  }

  lemma Six(p: Pool, a: Turn, b: Turn, c: Turn, d: Turn, e: Turn, f: Turn)
    ensures Run(p, [a, b, c, d, e, f]) == Next(Next(Next(Next(Next(Next(p, a), b), c), d), e), f)
  {
    assert Run(p, [a, b, c, d, e, f]) == Run(Next(p, a), [b, c, d, e, f]);
    assert Run(Next(p, a), [b, c, d, e, f]) == Run(Next(Next(p, a), b), [c, d, e, f]);
    var q := Next(Next(p, a), b);
    assert Run(q, [c, d, e, f]) == Run(Next(q, c), [d, e, f]);
    assert Run(Next(q, c), [d, e, f]) == Run(Next(Next(q, c), d), [e, f]);
    var r := Next(Next(q, c), d);
    assert Run(r, [e, f]) == Run(Next(r, e), [f]);
    assert Run(Next(r, e), [f]) == Run(Next(Next(r, e), f), []);
  }

  /** Sequential calls, cut at any command */

  function Attempt(m: Mongo, j: Job, budget: nat): (Mongo, Job)
    decreases budget
  {
    if budget == 0 || Over(j) then (m, j)
    else var (m', j') := Exec(m, j); Attempt(m', j', budget - 1)
  }

  const ALL: nat := 5

  datatype Try = Try(call: Call, key: Key, drawn: Info, budget: nat)

  function Tried(m: Mongo, t: Try): (Mongo, Job) {
    Attempt(m, Begin(t.call, t.key, t.drawn), t.budget)
  }

  function Calls(m: Mongo, tries: seq<Try>): Mongo
    decreases |tries|
  {
    if tries == [] then m else Calls(Tried(m, tries[0]).0, tries[1..])
  }

  // Every auth account is named by a stored document.
  ghost predicate Named(m: Mongo) {
    forall u :: u in m.accounts ==> exists k :: k in m.docs && m.docs[k].username == u
  }

  // Nothing else is running, so the job knows its document, and after its account is gone nobody has it.
  predicate Alone(m: Mongo, j: Job) {
    match j.at
    case UsersInfo => j.key in m.docs && m.docs[j.key] == j.info
    case CreateAccount => j.key in m.docs && m.docs[j.key] == j.info
    case DropDatabase => j.key in m.docs && m.docs[j.key] == j.info
    case DropAccount => j.key in m.docs && m.docs[j.key] == j.info
    case DeleteDoc => j.key in m.docs && m.docs[j.key] == j.info && j.info.username !in m.accounts
    case _ => true
  }

  lemma ExecNames(m: Mongo, j: Job)
    requires Named(m) && Alone(m, j)
    ensures Named(Exec(m, j).0) && Alone(Exec(m, j).0, Exec(m, j).1)
  {
    var m' := Exec(m, j).0;
    forall u | u in m'.accounts ensures exists k :: k in m'.docs && m'.docs[k].username == u {
      if u in m.accounts {
        var k :| k in m.docs && m.docs[k].username == u;
        assert k in m'.docs && m'.docs[k].username == u;
      } else {
        assert j.key in m'.docs && m'.docs[j.key].username == u;
      }
    }
  }

  lemma {:induction false} AttemptNames(m: Mongo, j: Job, budget: nat)
    requires Named(m) && Alone(m, j)
    ensures Named(Attempt(m, j, budget).0)
    decreases budget
  {
    if budget == 0 || Over(j) {
    } else {
      ExecNames(m, j);
      AttemptNames(Exec(m, j).0, Exec(m, j).1, budget - 1);
    }
  }

  // Over any sequence of creates and drops for any keys, each cut at any command.
  lemma {:induction false} CallsName(m: Mongo, tries: seq<Try>)
    requires Named(m)
    ensures Named(Calls(m, tries))
    decreases |tries|
  {
    if tries == [] {
    } else {
      AttemptNames(m, Begin(tries[0].call, tries[0].key, tries[0].drawn), tries[0].budget);
      CallsName(Tried(m, tries[0]).0, tries[1..]);
    }
  }

  // Commands, one at a time.
  lemma Unfold(m: Mongo, j: Job, budget: nat)
    requires budget > 0 && !Over(j)
    ensures Attempt(m, j, budget) == Attempt(Exec(m, j).0, Exec(m, j).1, budget - 1)
  {
  }

  lemma OverStays(m: Mongo, j: Job, budget: nat)
    requires Over(j)
    ensures Attempt(m, j, budget) == (m, j)
  {
  }

  // The document a create settles on.
  function Doc(m: Mongo, key: Key, drawn: Info): Info {
    if key in m.docs then m.docs[key] else drawn
  }

  // What a create has done after so many commands.
  function CreateCut(m: Mongo, key: Key, drawn: Info, budget: nat): Mongo {
    var i := Doc(m, key, drawn);
    var m2 := if budget >= 2 then m.(dbs := m.dbs + {i.dbname}) else m;
    var m3 := if budget >= 3 then m2.(docs := m2.docs[key := i]) else m2;
    if budget >= 5 then m3.(accounts := AddAccount(m3.accounts, i)) else m3
  }

  lemma CreateIs(m: Mongo, key: Key, drawn: Info, budget: nat)
    ensures var (m', j) := Tried(m, Try(CreateCall, key, drawn, budget)); var i := Doc(m, key, drawn);
      && m' == CreateCut(m, key, drawn, budget)
      && (j.at.Completed? <==> budget >= (if i.username in m.accounts then 4 else 5))
      && (j.at.Completed? ==> j.info == i)
  {
    var i := Doc(m, key, drawn);
    var j0 := Begin(CreateCall, key, drawn);
    var j1 := j0.(at := InitDb, info := i);
    var m2, j2 := m.(dbs := m.dbs + {i.dbname}), j1.(at := Upsert);
    var m3, j3 := m2.(docs := m2.docs[key := i]), j2.(at := UsersInfo);
    assert key in m.docs ==> m2.docs[key := i] == m2.docs;
    if budget >= 1 {
      Unfold(m, j0, budget);
      if budget >= 2 {
        Unfold(m, j1, budget - 1);
        if budget >= 3 {
          Unfold(m2, j2, budget - 2);
          assert Exec(m2, j2) == (m3, j3);
          CreateEnds(m3, j3, budget - 3);
        }
      }
    }
  }

  lemma CreateEnds(m: Mongo, j: Job, budget: nat)
    requires j.at.UsersInfo?
    ensures var (m', j') := Attempt(m, j, budget);
      && m' == (if budget >= 2 then m.(accounts := AddAccount(m.accounts, j.info)) else m)
      && (j'.at.Completed? <==> budget >= (if j.info.username in m.accounts then 1 else 2))
      && (j'.at.Completed? ==> j'.info == j.info)
  {
    if budget >= 1 {
      Unfold(m, j, budget);
      var (m1, j1) := Exec(m, j);
      if j1.at.CreateAccount? && budget >= 2 {
        Unfold(m1, j1, budget - 1);
      }
    }
  }

  // A create running alone, cut right after it made its database, before any document names it.
  lemma UnrecordedDatabaseIff(m: Mongo, key: Key, drawn: Info, budget: nat)
    requires key !in m.docs && drawn.dbname !in m.dbs && forall k :: k in m.docs ==> m.docs[k].dbname != drawn.dbname
    ensures var m' := Tried(m, Try(CreateCall, key, drawn, budget)).0;
      drawn.dbname in m'.dbs && (forall k :: k in m'.docs ==> m'.docs[k].dbname != drawn.dbname) <==> budget == 2
  {
    CreateIs(m, key, drawn, budget);
    var m' := CreateCut(m, key, drawn, budget);
    if budget >= 3 {
      assert m'.docs[key].dbname == drawn.dbname;
    }
  }

  // What a drop has done after so many commands.
  lemma DropIs(m: Mongo, key: Key, drawn: Info, budget: nat)
    ensures var (m', j) := Tried(m, Try(DropCall, key, drawn, budget));
      if key !in m.docs then m' == m && (j.at.Completed? <==> budget >= 1)
      else
        var i := m.docs[key]; var there := i.username in m.accounts;
        && m' == Mongo(
             if budget >= 4 && there then m.docs - {key} else m.docs,
             if budget >= 2 then m.dbs - {i.dbname} else m.dbs,
             if budget >= 3 && there then m.accounts - {i.username} else m.accounts)
        && (j.at.Completed? <==> budget >= 4 && there)
  {
    var j0 := Begin(DropCall, key, drawn);
    if budget >= 1 {
      Unfold(m, j0, budget);
      if key !in m.docs {
        OverStays(m, Exec(m, j0).1, budget - 1);
      } else {
        DropContinues(m, Exec(m, j0).1, budget - 1);
      }
    }
  }

  lemma DropContinues(m: Mongo, j: Job, budget: nat)
    requires j.at.DropDatabase? && j.key in m.docs
    ensures var (m', j') := Attempt(m, j, budget); var there := j.info.username in m.accounts;
      && m' == Mongo(
           if budget >= 3 && there then m.docs - {j.key} else m.docs,
           if budget >= 1 then m.dbs - {j.info.dbname} else m.dbs,
           if budget >= 2 && there then m.accounts - {j.info.username} else m.accounts)
      && (j'.at.Completed? <==> budget >= 3 && there)
  {
    if budget >= 1 {
      Unfold(m, j, budget);
      var (m1, j1) := Exec(m, j);
      if budget >= 2 {
        Unfold(m1, j1, budget - 1);
        var (m2, j2) := Exec(m1, j1);
        if budget >= 3 && !Over(j2) {
          Unfold(m2, j2, budget - 2);
        }
      }
    }
  }

  predicate DropCompletes(m: Mongo, key: Key) {
    key !in m.docs || m.docs[key].username in m.accounts
  }

  // A full drop completes exactly when there is no document or its account exists; and a drop that was cut can be
  // completed by another exactly when the cut did not fall between dropUser and the deletion of the document.
  lemma DropRetriesIff(m: Mongo, key: Key, budget: nat, drawn: Info)
    ensures Tried(m, Try(DropCall, key, drawn, ALL)).1.at.Completed? <==> DropCompletes(m, key)
    ensures var cut := Tried(m, Try(DropCall, key, drawn, budget)).0;
      (Tried(cut, Try(DropCall, key, drawn, ALL)).1.at.Completed?
       <==> key !in m.docs || (m.docs[key].username in m.accounts && budget != 3))
  {
    DropIs(m, key, drawn, ALL);
    DropIs(m, key, drawn, budget);
    DropIs(Tried(m, Try(DropCall, key, drawn, budget)).0, key, drawn, ALL);
  }

  // A create puts such a request right again: it always completes, and a drop after it does too.
  lemma CreateHeals(m: Mongo, key: Key, drawn: Info, again: Info)
    ensures var (m', j) := Tried(m, Try(CreateCall, key, drawn, ALL));
      && j.at.Completed? && key in m'.docs && m'.docs[key] == j.info == Doc(m, key, drawn)
      && j.info.dbname in m'.dbs && j.info.username in m'.accounts
      && var (m'', k) := Tried(m', Try(DropCall, key, again, ALL));
         k.at.Completed? && key !in m''.docs && j.info.dbname !in m''.dbs && j.info.username !in m''.accounts
  {
    CreateIs(m, key, drawn, ALL);
    var m' := Tried(m, Try(CreateCall, key, drawn, ALL)).0;
    DropIs(m', key, again, ALL);
  }

  // The credentials a sequence of creates for one key settles on: those stored, else the first draw whose
  // upsert was reached, else the last one's.
  function FirstDoc(m: Mongo, key: Key, tries: seq<Try>, last: Info): Info
    decreases |tries|
  {
    if key in m.docs then m.docs[key]
    else if tries == [] then last
    else if tries[0].budget >= 3 then tries[0].drawn
    else FirstDoc(m, key, tries[1..], last)
  }

  // Idempotence under retries: interrupted creates followed by a full one return those credentials, and
  // leave the document, the database and the account, each account once.
  lemma {:induction false} CreatesConverge(m: Mongo, key: Key, tries: seq<Try>, last: Info)
    requires forall t :: t in tries ==> t.call.CreateCall? && t.key == key
    ensures var i := FirstDoc(m, key, tries, last);
      var (m', j) := Tried(Calls(m, tries), Try(CreateCall, key, last, ALL));
      && j.at.Completed? && j.info == i
      && m'.docs == m.docs[key := i] && i.dbname in m'.dbs && m.dbs <= m'.dbs
      && m'.accounts == AddAccount(m.accounts, i)
    decreases |tries|
  {
    if tries == [] {
      CreateIs(m, key, last, ALL);
    } else {
      var t := tries[0];
      var m1 := Tried(m, t).0;
      assert t in tries;
      CreateIs(m, key, t.drawn, t.budget);
      assert Try(CreateCall, key, t.drawn, t.budget) == t;
      CreatesConverge(m1, key, tries[1..], last);
      FirstDocAfter(m, key, t, tries[1..], last);
    }
  }

  // usersInfo leaves an existing account alone: the credentials returned open the account, and for their database,
  // exactly if the user had no account before or had it with them; every other account is as it was.
  lemma AccountMatches(m: Mongo, key: Key, tries: seq<Try>, last: Info)
    requires forall t :: t in tries ==> t.call.CreateCall? && t.key == key
    ensures var (m', j) := Tried(Calls(m, tries), Try(CreateCall, key, last, ALL));
      var u := j.info.username;
      && j.at.Completed? && u in m'.accounts
      && (m'.accounts[u].password == j.info.password
          <==> u !in m.accounts || m.accounts[u].password == j.info.password)
      && (m'.accounts[u].dbname == j.info.dbname <==> u !in m.accounts || m.accounts[u].dbname == j.info.dbname)
      && (forall v :: v != u ==> (v in m'.accounts <==> v in m.accounts))
      && (forall v :: v != u && v in m.accounts ==> m'.accounts[v] == m.accounts[v])
  {
    CreatesConverge(m, key, tries, last);
  }

  lemma {:induction false} FirstDocAfter(m: Mongo, key: Key, t: Try, rest: seq<Try>, last: Info)
    requires t.call.CreateCall? && t.key == key
    ensures FirstDoc(CreateCut(m, key, t.drawn, t.budget), key, rest, last) == FirstDoc(m, key, [t] + rest, last)
  {
    assert ([t] + rest)[1..] == rest;
    if key !in m.docs && t.budget < 3 {
      SameDocs(m, CreateCut(m, key, t.drawn, t.budget), key, rest, last);
    }
  }

  lemma {:induction false} SameDocs(m: Mongo, m': Mongo, key: Key, tries: seq<Try>, last: Info)
    requires m'.docs == m.docs
    ensures FirstDoc(m', key, tries, last) == FirstDoc(m, key, tries, last)
    decreases |tries|
  {
    if tries == [] {
    } else {
      SameDocs(m, m', key, tries[1..], last);
    }
  }

  /** The implementation */

  class MongoDBImpl {
    var docs: map<Key, Info>
    var dbs: set<string>
    var accounts: map<string, Account>
    // How many more commands reach the server before the connection fails.
    var budget: nat

    constructor (budget: nat)
      ensures State() == Mongo(map[], {}, map[]) && this.budget == budget
    {
      this.docs, this.dbs, this.accounts, this.budget := map[], {}, map[], budget;
    }

    function State(): Mongo
      reads this
    {
      Mongo(docs, dbs, accounts)
    }

    method Reaches() returns (ok: bool)
      modifies this`budget
      ensures ok <==> old(budget) > 0
      ensures budget == if ok then old(budget) - 1 else 0
    {
      ok := budget > 0;
      if ok {
        budget := budget - 1;
      }
    }

    // What a failed command leaves: the job ends where it is, short of completed.
    ghost predicate Cut(j: Job)
      reads this
    {
      !j.at.Completed? && (budget == 0 || j.at.Broken?)
    }

    /** The commands. Each advances the job it belongs to by one step. */

    method FindOne(key: Key, ghost job: Job) returns (r: Result<Option<Info>>, ghost next: Job)
      requires job.at.Find? && job.key == key
      modifies this
      ensures Attempt(old(State()), job, old(budget)) == Attempt(State(), next, budget)
      ensures r.Success? ==> State() == old(State())
      ensures r.Success? ==> r.value == (if key in docs then Some(docs[key]) else None) && next == Exec(State(), job).1
      ensures r.Failure? ==> Cut(next)
    {
      var ok := Reaches();
      next := if ok then Exec(State(), job).1 else job;
      r := if !ok then Failure else Success(if key in docs then Some(docs[key]) else None);
    }

    method InsertInit(dbname: string, ghost job: Job) returns (ok: bool, ghost next: Job)
      requires job.at.InitDb? && job.info.dbname == dbname
      modifies this
      ensures Attempt(old(State()), job, old(budget)) == Attempt(State(), next, budget)
      ensures ok ==> next == job.(at := Upsert)
      ensures !ok ==> Cut(next)
    {
      ok := Reaches();
      next := if ok then Exec(State(), job).1 else job;
      if ok {
        dbs := dbs + {dbname};
      }
    }

    // The document before the update, or None if it had to be inserted.
    method FindOneAndUpdate(key: Key, info: Info, ghost job: Job) returns (r: Result<Option<Info>>, ghost next: Job)
      requires job.at.Upsert? && job.key == key && job.info == info
      modifies this
      ensures Attempt(old(State()), job, old(budget)) == Attempt(State(), next, budget)
      ensures r.Success? ==>
        next == job.(at := UsersInfo, info := match r.value { case Some(i) => i case None => info })
      ensures r.Failure? ==> Cut(next)
    {
      var ok := Reaches();
      next := if ok then Exec(State(), job).1 else job;
      if !ok {
        return Failure, next;
      }
      if key in docs {
        return Success(Some(docs[key])), next;
      }
      docs := docs[key := info];
      return Success(None), next;
    }

    method MongoUserExists(username: string, ghost job: Job) returns (r: Result<bool>, ghost next: Job)
      requires job.at.UsersInfo? && job.info.username == username
      modifies this
      ensures Attempt(old(State()), job, old(budget)) == Attempt(State(), next, budget)
      ensures r.Success? ==> next == job.(at := if r.value then Completed else CreateAccount)
      ensures r.Failure? ==> Cut(next)
    {
      var ok := Reaches();
      next := if ok then Exec(State(), job).1 else job;
      r := if ok then Success(username in accounts) else Failure;
    }

    method CreateUser(info: Info, ghost job: Job) returns (ok: bool, ghost next: Job)
      requires job.at.CreateAccount? && job.info == info
      modifies this
      ensures Attempt(old(State()), job, old(budget)) == Attempt(State(), next, budget)
      ensures ok ==> next == job.(at := Completed)
      ensures !ok ==> Cut(next)
    {
      ok := Reaches();
      next := if ok then Exec(State(), job).1 else job;
      if ok {
        ok := info.username !in accounts;
        if ok {
          accounts := AddAccount(accounts, info);
        }
      }
    }

    method DropDb(dbname: string, ghost job: Job) returns (ok: bool, ghost next: Job)
      requires job.at.DropDatabase? && job.info.dbname == dbname
      modifies this
      ensures Attempt(old(State()), job, old(budget)) == Attempt(State(), next, budget)
      ensures ok ==> next == job.(at := DropAccount)
      ensures !ok ==> Cut(next)
    {
      ok := Reaches();
      next := if ok then Exec(State(), job).1 else job;
      if ok {
        dbs := dbs - {dbname};
      }
    }

    method DropUser(username: string, ghost job: Job) returns (ok: bool, ghost next: Job)
      requires job.at.DropAccount? && job.info.username == username
      modifies this
      ensures Attempt(old(State()), job, old(budget)) == Attempt(State(), next, budget)
      ensures ok ==> next == job.(at := DeleteDoc)
      ensures !ok ==> Cut(next)
    {
      ok := Reaches();
      next := if ok then Exec(State(), job).1 else job;
      if ok {
        ok := username in accounts;
        if ok {
          accounts := accounts - {username};
        }
      }
    }

    // DeleteOne, with the check of its count.
    method DeleteOne(key: Key, ghost job: Job) returns (ok: bool, ghost next: Job)
      requires job.at.DeleteDoc? && job.key == key
      modifies this
      ensures Attempt(old(State()), job, old(budget)) == Attempt(State(), next, budget)
      ensures ok ==> next == job.(at := Completed)
      ensures !ok ==> Cut(next)
    {
      ok := Reaches();
      next := if ok then Exec(State(), job).1 else job;
      if ok {
        ok := key in docs;
        if ok {
          docs := docs - {key};
        }
      }
    }

    /** The operations; drawn is what createMongoDBUserInfo would draw. */

    method CreateUserAndDatabase(key: Key, drawn: Info) returns (r: Result<Info>)
      modifies this
      ensures var (m, j) := Attempt(old(State()), Begin(CreateCall, key, drawn), old(budget));
        State() == m && (r.Success? <==> j.at.Completed?) && (r.Success? ==> r.value == j.info)
    {
      ghost var job := Begin(CreateCall, key, drawn);
      var found;
      found, job := FindOne(key, job);
      if found.Failure? {
        return Failure;
      }
      var userInfo := match found.value { case Some(i) => i case None => drawn };
      var ok;
      ok, job := InsertInit(userInfo.dbname, job);
      if !ok {
        return Failure;
      }
      var before;
      before, job := FindOneAndUpdate(key, userInfo, job);
      if before.Failure? {
        return Failure;
      }
      if before.value.Some? {
        userInfo := before.value.value;
      }
      var userExists;
      userExists, job := MongoUserExists(userInfo.username, job);
      if userExists.Failure? {
        return Failure;
      }
      if userExists.value {
        return Success(userInfo);
      }
      ok, job := CreateUser(userInfo, job);
      r := if ok then Success(userInfo) else Failure;
    }

    method DropUserAndDatabase(key: Key) returns (ok: bool)
      modifies this
      ensures var (m, j) := Attempt(old(State()), Begin(DropCall, key, Info("", "", "")), old(budget));
        State() == m && (ok <==> j.at.Completed?)
    {
      ghost var job := Begin(DropCall, key, Info("", "", ""));
      var found;
      found, job := FindOne(key, job);
      if found.Failure? {
        return false;
      }
      if found.value.None? {
        return true;
      }
      var userInfo := found.value.value;
      ok, job := DropDb(userInfo.dbname, job);
      if ok {
        ok, job := DropUser(userInfo.username, job);
        if ok {
          ok, job := DeleteOne(key, job);
        }
      }
    }
  }
}
