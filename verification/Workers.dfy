// The reconcile workers of one controller process, interleaved statement by
// statement. Each pass takes the lock of its request ("namespace/name"), runs any
// operations for that request on any servers, and releases the lock. A restart
// clears every worker and the lock table but no server.
module Workers {
  import opened Common
  import opened Registry

  type Wid = nat
  type Addr = string

  datatype Worker =
    | Idle
    | Wanting(key: Key)              // LoadOrStore done, waiting in Mutex.Lock
    | Locked(key: Key)               // between operations
    | Running(addr: Addr, op: Op)    // inside an operation, holding the lock of op.key

  // locks is the sync.Map: a key is present once stored, and maps to the worker holding its mutex.
  // answers collects what completed look-ups have returned to their callers.
  datatype Pool = Pool(
    servers: map<Addr, Server>,
    locks: map<string, Option<Wid>>,
    workers: map<Wid, Worker>,
    answers: set<(Addr, Key, Info)>)

  datatype Action =
    | Begin(w: Wid, key: Key)                                // Reconcile is called, LoadOrStore
    | Acquire(w: Wid)                                        // Mutex.Lock returns
    | Call(w: Wid, addr: Addr, task: Task, drawn: Info)      // an operation starts
    | Statement(w: Wid)                                      // its next statement is executed
    | Break(w: Wid)                                          // its next statement fails instead
    | Return(w: Wid)                                         // the operation returns to Reconcile
    | Release(w: Wid)                                        // unlock, Reconcile returns
    | Restart

  /** The lock key */

  function LockKey(key: Key): string {
    key.namespace + "/" + key.name
  }

  // Kubernetes names and namespaces contain no '/'.
  predicate Named(key: Key) {
    '/' !in key.namespace && '/' !in key.name
  }

  lemma LockKeyInjective(a: Key, b: Key)
    requires Named(a) && Named(b) && LockKey(a) == LockKey(b)
    ensures a == b
  {
    var s := LockKey(a);
    var i, j := |a.namespace|, |b.namespace|;
    assert s[i] == '/' && s[j] == '/';
    assert forall x :: 0 <= x < i ==> s[x] == a.namespace[x];
    assert forall x :: 0 <= x < j ==> s[x] == b.namespace[x];
    assert i == j;
    assert a.namespace == s[..i] && b.namespace == s[..j];
    assert a.name == s[i + 1..] && b.name == s[j + 1..];
  }

  /** The machine */

  function At(p: Pool, w: Wid): Worker {
    if w in p.workers then p.workers[w] else Idle
  }

  // An action that is not enabled changes nothing.
  function Next(p: Pool, a: Action): Pool {
    match a
    case Begin(w, key) =>
      if At(p, w).Idle? && Named(key) then
        var k := LockKey(key);
        p.(locks := if k in p.locks then p.locks else p.locks[k := None], workers := p.workers[w := Wanting(key)])
      else p
    case Acquire(w) =>
      (match At(p, w)
       case Wanting(key) =>
         var k := LockKey(key);
         if k in p.locks && p.locks[k].None? then
           p.(locks := p.locks[k := Some(w)], workers := p.workers[w := Locked(key)])
         else p
       case _ => p)
    case Call(w, addr, task, drawn) =>
      (match At(p, w)
       case Locked(key) =>
         if addr in p.servers then
           p.(workers := p.workers[w := Running(addr, Start(p.servers[addr].engine, task, key, drawn))])
         else p
       case _ => p)
    case Statement(w) =>
      (match At(p, w)
       case Running(addr, op) =>
         if addr in p.servers then
           var (s', op') := Step(p.servers[addr], op);
           p.(servers := p.servers[addr := s'], workers := p.workers[w := Running(addr, op')])
         else p
       case _ => p)
    case Break(w) =>
      (match At(p, w)
       case Running(addr, op) =>
         if op.pc.Done? then p else p.(workers := p.workers[w := Running(addr, op.(pc := Failed))])
       case _ => p)
    case Return(w) =>
      (match At(p, w)
       case Running(addr, op) =>
         if !Ended(op) then p
         else
           p.(workers := p.workers[w := Locked(op.key)],
              answers := p.answers + if op.pc.Done? && !op.task.Record? then {(addr, op.key, op.info)} else {})
       case _ => p)
    case Release(w) =>
      (match At(p, w)
       case Locked(key) =>
         p.(locks := if LockKey(key) in p.locks then p.locks[LockKey(key) := None] else p.locks,
            workers := p.workers[w := Idle])
       case _ => p)
    case Restart => p.(locks := map[], workers := map[])
  }

  function Run(p: Pool, actions: seq<Action>): Pool
    decreases |actions|
  {
    if actions == [] then p else Run(Next(p, actions[0]), actions[1..])
  }

  /** The invariant */

  function Requested(worker: Worker): Option<Key> {
    match worker
    case Idle => None
    case Wanting(key) => Some(key)
    case Locked(key) => Some(key)
    case Running(_, op) => Some(op.key)
  }

  predicate HoldsLock(worker: Worker) {
    worker.Locked? || worker.Running?
  }

  ghost predicate WorkerOk(p: Pool, w: Wid) {
    var worker := At(p, w);
    && (worker.Idle? || Named(Requested(worker).value))
    && (HoldsLock(worker) ==>
          var k := LockKey(Requested(worker).value); k in p.locks && p.locks[k] == Some(w))
    && (worker.Running? ==> worker.addr in p.servers && OpOk(p.servers[worker.addr], worker.op))
  }

  ghost predicate ServersOk(p: Pool) {
    forall a :: a in p.servers ==> Unique(p.servers[a].rows)
  }

  ghost predicate AnswersOk(p: Pool) {
    forall t :: t in p.answers ==> t.0 in p.servers && Lookup(p.servers[t.0].rows, t.1) == Some(t.2)
  }

  ghost predicate Inv(p: Pool) {
    ServersOk(p) && AnswersOk(p) && forall w :: WorkerOk(p, w)
  }

  // No process is running yet; the servers carry any registry that satisfies its constraints.
  ghost predicate Init(p: Pool) {
    p.locks == map[] && p.workers == map[] && p.answers == {} && ServersOk(p)
  }

  // Two workers inside the lock never work on the same request.
  lemma MutualExclusion(p: Pool, v: Wid, w: Wid)
    requires Inv(p) && v != w && HoldsLock(At(p, v)) && HoldsLock(At(p, w))
    ensures Requested(At(p, v)) != Requested(At(p, w))
  {
    assert WorkerOk(p, v) && WorkerOk(p, w);
  }

  lemma AcquireKeeps(p: Pool, w: Wid)
    requires Inv(p)
    ensures Inv(Next(p, Acquire(w)))
  {
    var p' := Next(p, Acquire(w));
    forall v ensures WorkerOk(p', v) {
      assert WorkerOk(p, v) && WorkerOk(p, w);
    }
  }

  lemma ReleaseKeeps(p: Pool, w: Wid)
    requires Inv(p)
    ensures Inv(Next(p, Release(w)))
  {
    var p' := Next(p, Release(w));
    forall v ensures WorkerOk(p', v) {
      assert WorkerOk(p, v) && WorkerOk(p, w);
      if At(p, w).Locked? && HoldsLock(At(p, v)) && v != w {
        var a, b := Requested(At(p, v)).value, At(p, w).key;
        if LockKey(a) == LockKey(b) {
          LockKeyInjective(a, b);
        }
      }
    }
  }

  lemma StatementKeeps(p: Pool, w: Wid)
    requires Inv(p)
    ensures Inv(Next(p, Statement(w)))
  {
    var p' := Next(p, Statement(w));
    assert WorkerOk(p, w);
    if At(p, w).Running? {
      var Running(addr, op) := At(p, w);
      var s := p.servers[addr];
      OwnStep(s, op);
      forall v ensures WorkerOk(p', v) {
        assert WorkerOk(p, v);
        if v != w && At(p, v).Running? && At(p, v).addr == addr {
          MutualExclusion(p, v, w);
          OtherStep(s, At(p, v).op, op);
        }
      }
      forall t | t in p.answers ensures Lookup(p'.servers[t.0].rows, t.1) == Some(t.2) {
        if t.0 == addr {
          KeepsRow(s.rows, p'.servers[addr].rows, t.1);
        }
      }
    }
  }

  // A table that only grows keeps every answer it has given.
  lemma KeepsRow(rows: seq<Row>, more: seq<Row>, key: Key)
    requires Unique(more) && rows <= more && Lookup(rows, key).Some?
    ensures Lookup(more, key) == Lookup(rows, key)
  {
  }

  lemma ReturnKeeps(p: Pool, w: Wid)
    requires Inv(p)
    ensures Inv(Next(p, Return(w)))
  {
    var p' := Next(p, Return(w));
    assert WorkerOk(p, w);
    forall v ensures WorkerOk(p', v) {
      assert WorkerOk(p, v);
    }
  }

  lemma OtherActionsKeep(p: Pool, a: Action)
    requires Inv(p) && (a.Begin? || a.Call? || a.Break? || a.Restart?)
    ensures Inv(Next(p, a))
  {
    var p' := Next(p, a);
    if a.Call? && a.addr in p.servers && At(p, a.w).Locked? {
      StartOk(p.servers[a.addr], a.task, At(p, a.w).key, a.drawn);
    }
    forall v ensures WorkerOk(p', v) {
      assert WorkerOk(p, v);
    }
  }

  lemma NextKeeps(p: Pool, a: Action)
    requires Inv(p)
    ensures Inv(Next(p, a))
  {
    match a
    case Acquire(w) => AcquireKeeps(p, w);
    case Release(w) => ReleaseKeeps(p, w);
    case Statement(w) => StatementKeeps(p, w);
    case Return(w) => ReturnKeeps(p, w);
    case _ => OtherActionsKeep(p, a);
  }

  lemma {:induction false} RunKeeps(p: Pool, actions: seq<Action>)
    requires Inv(p)
    ensures Inv(Run(p, actions))
    decreases |actions|
  {
    if actions == [] {
    } else {
      NextKeeps(p, actions[0]);
      RunKeeps(Next(p, actions[0]), actions[1..]);
    }
  }

  lemma InitInv(p: Pool)
    requires Init(p)
    ensures Inv(p)
  {
  }

  /** What the lock buys */

  // Whatever the interleaving, a worker about to INSERT still finds no row for its request: the
  // constraint on (name, namespace) is never what rejects it.
  lemma InsertNeverHitsKey(p: Pool, actions: seq<Action>, w: Wid)
    requires Init(p)
    ensures var q := Run(p, actions); var worker := At(q, w);
      worker.Running? && worker.op.pc.Insert? ==>
        && worker.addr in q.servers
        && forall row :: row in q.servers[worker.addr].rows ==> row.key != worker.op.key
  {
    InitInv(p);
    RunKeeps(p, actions);
    assert WorkerOk(Run(p, actions), w);
  }

  // One credential per request and server, whoever asked and in whatever order.
  lemma OneCredential(p: Pool, actions: seq<Action>, addr: Addr, key: Key, a: Info, b: Info)
    requires Init(p)
    requires (addr, key, a) in Run(p, actions).answers && (addr, key, b) in Run(p, actions).answers
    ensures a == b && addr in Run(p, actions).servers && Lookup(Run(p, actions).servers[addr].rows, key) == Some(a)
  {
    InitInv(p);
    RunKeeps(p, actions);
    var q := Run(p, actions);
    assert AnswersOk(q);
    var t, u := (addr, key, a), (addr, key, b);
    assert t in q.answers && u in q.answers;
  }

  // Whether executing this statement ends the SELECT-then-INSERT of the operation: it knows its row, or
  // its INSERT was rejected.
  predicate EndsLookup(s: Server, op: Op) {
    (op.pc.Select? && Lookup(s.rows, op.key).Some?) || op.pc.Insert?
  }

  // SELECT-then-INSERT is linearizable: the statement that ends it does, at that very moment, what an atomic
  // get-or-create would have done, and the statements before it change nothing.
  lemma LookupIsAtomic(p: Pool, actions: seq<Action>, w: Wid)
    requires Init(p)
    ensures var q := Run(p, actions); var worker := At(q, w);
      worker.Running? ==>
        && worker.addr in q.servers
        && (var s := q.servers[worker.addr];
            var op := worker.op;
            var q' := Next(q, Statement(w));
            && (op.pc.Use? || (op.pc.Select? && !EndsLookup(s, op)) ==> q'.servers == q.servers)
            && (EndsLookup(s, op) ==>
                  var (s', found) := GetOrCreate(s, op.key, op.drawn);
                  && q'.servers == q.servers[worker.addr := s']
                  && At(q', w).Running?
                  && (match found
                      case Some(i) => At(q', w).op == op.(pc := AfterLookup(s.engine, op.task), info := i)
                      case None => At(q', w).op.pc.Failed?)))
  {
    InitInv(p);
    RunKeeps(p, actions);
    var q := Run(p, actions);
    assert WorkerOk(q, w);
    var worker := At(q, w);
    if worker.Running? {
      assert q.servers[worker.addr := q.servers[worker.addr]] == q.servers;
    }
  }

  // Under any interleaving, an operation that has completed has achieved what it stands for.
  lemma CompletedMeans(p: Pool, actions: seq<Action>, w: Wid)
    requires Init(p)
    ensures var q := Run(p, actions); var worker := At(q, w);
      worker.Running? && worker.op.pc.Done? && (worker.op.task.Create? || worker.op.task.Drop?) ==>
        && worker.addr in q.servers
        && (var s, i := q.servers[worker.addr], worker.op.info;
            && Lookup(s.rows, worker.op.key) == Some(i)
            && (i.dbname in s.dbs <==> worker.op.task.Create?) && (i.username in s.users <==> worker.op.task.Create?))
  {
    InitInv(p);
    RunKeeps(p, actions);
    assert WorkerOk(Run(p, actions), w);
  }

  /** The lock is free when nobody works on the request, and is passed on */

  // Each lock that is held is held by a worker that works on its request, and a waiting worker's lock is there.
  ghost predicate LocksOk(p: Pool) {
    AllHeld(p) && forall w :: At(p, w).Wanting? ==> LockKey(At(p, w).key) in p.locks
  }

  predicate AllHeld(p: Pool) {
    forall k :: k in p.locks && p.locks[k].Some? ==>
      var worker := At(p, p.locks[k].value); HoldsLock(worker) && LockKey(Requested(worker).value) == k
  }

  lemma NextLocksOk(p: Pool, a: Action)
    requires LocksOk(p)
    ensures LocksOk(Next(p, a))
  {
    NextHeld(p, a);
    var p' := Next(p, a);
    forall w | At(p', w).Wanting? ensures LockKey(At(p', w).key) in p'.locks {
      assert At(p, w) == At(p', w) || (a.Begin? && a.w == w);
    }
  }

  lemma NextHeld(p: Pool, a: Action)
    requires AllHeld(p)
    ensures AllHeld(Next(p, a))
  {
  }

  lemma {:induction false} RunLocksOk(p: Pool, actions: seq<Action>)
    requires LocksOk(p)
    ensures LocksOk(Run(p, actions))
    decreases |actions|
  {
    if actions == [] {
    } else {
      NextLocksOk(p, actions[0]);
      RunLocksOk(Next(p, actions[0]), actions[1..]);
    }
  }

  // A waiting worker can enter exactly when no worker is inside for the same request.
  lemma EntersIff(p: Pool, actions: seq<Action>, w: Wid)
    requires Init(p) && At(Run(p, actions), w).Wanting?
    ensures var q := Run(p, actions); var key := At(q, w).key;
      At(Next(q, Acquire(w)), w) == Locked(key)
      <==> forall v :: HoldsLock(At(q, v)) ==> Requested(At(q, v)) != Some(key)
  {
    InitInv(p);
    RunKeeps(p, actions);
    RunLocksOk(p, actions);
    EntersExactly(Run(p, actions), w);
  }

  lemma EntersExactly(p: Pool, w: Wid)
    requires Inv(p) && LocksOk(p) && At(p, w).Wanting?
    ensures var key := At(p, w).key;
      At(Next(p, Acquire(w)), w) == Locked(key)
      <==> forall v :: HoldsLock(At(p, v)) ==> Requested(At(p, v)) != Some(key)
  {
    var key := At(p, w).key;
    assert WorkerOk(p, w);
    if v :| HoldsLock(At(p, v)) && Requested(At(p, v)) == Some(key) {
      assert WorkerOk(p, v);
    }
    if p.locks[LockKey(key)].Some? {
      var v := p.locks[LockKey(key)].value;
      assert WorkerOk(p, v);
      LockKeyInjective(Requested(At(p, v)).value, key);
    }
  }

  // And a worker inside can always leave, at the latest when its next statement fails: then the one that waits enters.
  lemma LockIsPassedOn(p: Pool, actions: seq<Action>, w: Wid, v: Wid)
    requires Init(p) && HoldsLock(At(Run(p, actions), w))
    requires var q := Run(p, actions); At(q, v).Wanting? && Requested(At(q, w)) == Some(At(q, v).key)
    ensures var q := Run(p, actions); var t := Next(Next(Next(Next(q, Break(w)), Return(w)), Release(w)), Acquire(v));
      At(t, w).Idle? && At(t, v) == Locked(At(q, v).key)
  {
    InitInv(p);
    RunKeeps(p, actions);
    var q := Run(p, actions);
    assert WorkerOk(q, w);
  }

  /** Isolation and registration over every run */

  // No worker serves the request.
  ghost predicate Unserved(p: Pool, key: Key) {
    forall w :: Requested(At(p, w)) != Some(key)
  }

  lemma NextUnserved(p: Pool, a: Action, key: Key)
    requires Unserved(p, key) && (a.Begin? ==> a.key != key)
    ensures Unserved(Next(p, a), key)
  {
    forall w ensures Requested(At(Next(p, a), w)) != Some(key) {
      assert Requested(At(p, w)) != Some(key);
    }
  }

  // The provider's login is not the user of a request.
  predicate Apart(s: Server, login: string) {
    forall row :: row in s.rows ==> row.info.username != login
  }

  lemma NextIsolates(p: Pool, a: Action, addr: Addr, key: Key, login: string)
    requires Inv(p) && addr in p.servers && Lookup(p.servers[addr].rows, key).Some? && Unserved(p, key)
    ensures var p' := Next(p, a); var i := Lookup(p.servers[addr].rows, key).value;
      && addr in p'.servers && Lookup(p'.servers[addr].rows, key) == Some(i)
      && Holdings(p'.servers[addr], i) == Holdings(p.servers[addr], i)
      && (Apart(p.servers[addr], login) ==> SameMembership(p.servers[addr], p'.servers[addr], i, login))
  {
    if a.Statement? && At(p, a.w).Running? && At(p, a.w).addr == addr {
      assert WorkerOk(p, a.w) && Requested(At(p, a.w)) != Some(key);
      Isolation(p.servers[addr], At(p, a.w).op, key, login);
    }
  }

  // Whatever the workers do for other requests, cut and interleaved in any way, leaves a request's row, database,
  // user, password and grant alone on every server; for the membership that PostgreSQL grants to the provider's
  // login, as long as no request has drawn that login for its user.
  lemma {:induction false} RunIsolates(p: Pool, actions: seq<Action>, addr: Addr, key: Key, login: string)
    requires Inv(p) && addr in p.servers && Lookup(p.servers[addr].rows, key).Some?
    requires Unserved(p, key) && forall a :: a in actions && a.Begin? ==> a.key != key
    ensures var q := Run(p, actions); var i := Lookup(p.servers[addr].rows, key).value;
      && addr in q.servers && Lookup(q.servers[addr].rows, key) == Some(i)
      && Holdings(q.servers[addr], i) == Holdings(p.servers[addr], i)
      && (Apart(q.servers[addr], login) ==> SameMembership(p.servers[addr], q.servers[addr], i, login))
    decreases |actions|
  {
    if actions == [] {
    } else {
      NextKeeps(p, actions[0]);
      NextIsolates(p, actions[0], addr, key, login);
      NextUnserved(p, actions[0], key);
      RunIsolates(Next(p, actions[0]), actions[1..], addr, key, login);
      RunAppends(p, actions, addr);
    }
  }

  lemma NextAppends(p: Pool, a: Action, addr: Addr)
    requires Inv(p) && addr in p.servers
    ensures addr in Next(p, a).servers && p.servers[addr].rows <= Next(p, a).servers[addr].rows
  {
    if a.Statement? && At(p, a.w).Running? {
      assert WorkerOk(p, a.w);
      OwnStep(p.servers[At(p, a.w).addr], At(p, a.w).op);
    }
  }

  // The registry is append-only: over every run the rows of a server stay, in place, whatever is added.
  lemma {:induction false} RunAppends(p: Pool, actions: seq<Action>, addr: Addr)
    requires Inv(p) && addr in p.servers
    ensures addr in Run(p, actions).servers && p.servers[addr].rows <= Run(p, actions).servers[addr].rows
    decreases |actions|
  {
    if actions == [] {
    } else {
      NextKeeps(p, actions[0]);
      NextAppends(p, actions[0], addr);
      RunAppends(Next(p, actions[0]), actions[1..], addr);
    }
  }

  // At every statement boundary of every run, each database and user beyond those that were there before is
  // named by a row of its server's table.
  lemma {:induction false} RunRecorded(p: Pool, actions: seq<Action>, addr: Addr, dbs: set<string>, users: set<string>)
    requires Inv(p) && addr in p.servers && Recorded(p.servers[addr], dbs, users)
    ensures addr in Run(p, actions).servers && Recorded(Run(p, actions).servers[addr], dbs, users)
    decreases |actions|
  {
    if actions == [] {
    } else {
      var a := actions[0];
      NextKeeps(p, a);
      if a.Statement? && At(p, a.w).Running? {
        assert WorkerOk(p, a.w);
        if At(p, a.w).addr == addr {
          StepRecorded(p.servers[addr], At(p, a.w).op, dbs, users);
        }
      }
      RunRecorded(Next(p, a), actions[1..], addr, dbs, users);
    }
  }
}
