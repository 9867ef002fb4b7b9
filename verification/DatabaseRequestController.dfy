// databaserequest_controller.go in its own form: a reconciler object whose methods change the request's
// in-memory fields and the stored objects. Each method is proved to do what the state machine of module
// Reconcile does between two of its program counters, so that every state it can leave behind, crashes included,
// is one the machine reaches.
module DatabaseRequestController {
  import opened Common
  import opened Registry
  import opened Placement
  import opened SecretKeys
  import opened Cluster
  import opened Reconcile
  import Deletion
  import Guarantees
  import Safety
  import Seeds
  import Convergence
  import SafetySteps

  /** What the calls of one pass meet */

  // What others do before a call arrives, and how it goes. A pass whose script runs out has crashed.
  datatype Reply = Reply(before: seq<Outside>, answer: Answer)

  function HappenAll(w: World, es: seq<Outside>): World
    decreases |es|
  {
    if es == [] then w else HappenAll(Happen(w, es[0]), es[1..])
  }

  predicate Quiet(pc: Pc) {
    pc.Idle? || pc.Reading?
  }

  // The machine, from s to the end of the pass.
  function Exec(s: State, script: seq<Reply>): State
    decreases |script|
  {
    if script == [] || Quiet(s.pc) then State(s.w, Idle)
    else Exec(OnCall(State(HappenAll(s.w, script[0].before), s.pc), script[0].answer), script[1..])
  }

  function Moves(es: seq<Outside>): (r: seq<Action>)
    ensures |r| == |es|
  {
    seq(|es|, i requires 0 <= i < |es| => Env(es[i]))
  }

  // The actions of the machine that such a pass consists of.
  function Actions(s: State, script: seq<Reply>): seq<Action>
    decreases |script|
  {
    if script == [] || Quiet(s.pc) then [Restart]
    else
      Moves(script[0].before) + [Call(script[0].answer)]
      + Actions(OnCall(State(HappenAll(s.w, script[0].before), s.pc), script[0].answer), script[1..])
  }

  lemma {:induction false} RunMoves(s: State, es: seq<Outside>)
    ensures Run(s, Moves(es)) == State(HappenAll(s.w, es), s.pc)
    decreases |es|
  {
    if es == [] {
    } else {
      assert Moves(es)[1..] == Moves(es[1..]);
      RunMoves(Next(s, Env(es[0])), es[1..]);
    }
  }

  lemma {:induction false} ExecRuns(s: State, script: seq<Reply>)
    ensures Run(s, Actions(s, script)) == Exec(s, script)
    decreases |script|
  {
    if script == [] || Quiet(s.pc) {
      Restarts(s);
    } else {
      var moves, call := Moves(script[0].before), Call(script[0].answer);
      var s1 := State(HappenAll(s.w, script[0].before), s.pc);
      var s2 := OnCall(s1, script[0].answer);
      RunMoves(s, script[0].before);
      ExecRuns(s2, script[1..]);
      Guarantees.RunAppend(s, moves + [call], Actions(s2, script[1..]));
      Guarantees.RunAppend(s, moves, [call]);
      Calls(s1, script[0].answer);
    }
  }

  lemma Restarts(s: State)
    ensures Run(s, [Restart]) == State(s.w, Idle)
  {
  }

  lemma Calls(s: State, a: Answer)
    ensures Run(s, [Call(a)]) == OnCall(s, a)
  {
  }

  // What the method Reconcile leaves behind, wherever its pass was cut and whatever happened around it, is a state of
  // the machine, so the invariant and with it every guarantee about runs carries over.
  lemma PassIsARun(w: World, n: nat, script: seq<Reply>)
    requires n in w.versions
    ensures var t := AfterRead(Started(w), w.versions[n]); var after := Exec(t, script);
      && Run(State(w, Idle), [Begin, Read(n)] + Actions(t, script)) == after
      && (Safety.WorldOk(w) ==> Safety.WorldOk(after.w))
  {
    var s := State(w, Idle);
    var t := AfterRead(Started(w), w.versions[n]);
    var rest := Actions(t, script);
    Guarantees.Two(s, Begin, Read(n));
    Guarantees.RunAppend(s, [Begin, Read(n)], rest);
    ExecRuns(t, script);
    if Safety.WorldOk(w) {
      SafetySteps.RunOk(s, [Begin, Read(n)] + rest);
    }
  }

  // The guarantees, as far as they can be read off the state.
  ghost predicate Sound(w: World) {
    && Safety.WorldOk(w)
    && (w.request.Some? ==> Safety.Exclusive(w.request.value.status.conditions))
    && (forall r :: r in w.history.removals ==> Safety.RemovalOk(r))
    && (forall x :: x in w.history.seedDeletions ==> Seeds.Recorded(w, x))
  }

  lemma PassIsSound(w: World, read: Option<nat>, script: seq<Reply>, after: World)
    requires Safety.WorldOk(w)
    requires State(after, Idle) ==
      if read.Some? && read.value in w.versions then Exec(AfterRead(Started(w), w.versions[read.value]), script)
      else State(Started(w), Idle)
    ensures Sound(after)
  {
    if read.Some? && read.value in w.versions {
      PassIsARun(w, read.value, script);
    } else {
      SafetySteps.StartedOk(w);
    }
    if after.request.Some? {
      Safety.StoredObjectOk(after);
    }
    forall x | x in after.history.seedDeletions ensures Seeds.Recorded(after, x) {
      Seeds.DeletionRecorded(after, x);
    }
  }

  const NO_KEEP := Keep(false, false, false, false)
  const CRASH := Answer(Refused, NO_KEEP, Info("", "", ""), map[], false)

  lemma RefusedDoesNothing(w: World, pc: Pc)
    ensures OnCall(State(w, pc), CRASH).w == w
  {
  }

  // The operations on a database, by the call they are part of.
  datatype Where =
    | Creating(c: Object, p: Provider, conn: Connection)
    | Fetching(c: Object, p: Provider, conn: Connection)
    | Dropping(c: Object, p: Provider, conn: Connection)
    | Recording(c: Object, p: Provider, conn: Connection, data: map<string, string>, d: DbInfo)

  function PcOf(at: Where, op: Op): Pc {
    match at
    case Creating(c, p, conn) => Placing(c, RunCreate(p, conn, op))
    case Fetching(c, p, conn) => Informing(c, RunFetch(p, conn, op))
    case Dropping(c, p, conn) => Deleting(c, RunDrop(p, conn, op))
    case Recording(c, p, conn, data, d) => Seeding(c, RecordSeed(data, d, p, conn, op))
  }

  // Where the machine goes when the operation returns.
  function Returned(w: World, at: Where, r: Result<Info>): State {
    match r {
      case Failure =>
        (match at
         case Creating(c, _, _) => Fail(w, c, Cause.CreateDatabase)
         case Fetching(c, _, _) => Fail(w, c, GetInfo)
         case Dropping(c, _, _) => Fail(w, c, DropFailed)
         case Recording(c, _, _, _, _) => Fail(w, c, Cause.HandleSeed))
      case Success(i) =>
        (match at
         case Creating(c, p, conn) => Created(w, c, p, conn, i)
         case Fetching(c, p, conn) => Fetched(w, c, p, conn, i)
         case Dropping(c, p, conn) => DropReturned(w, c, p, conn)
         case Recording(c, p, conn, data, d) => SeedRecorded(w, c, data, d, p, conn))
    }
  }

  lemma StatementIs(w: World, at: Where, op: Op, a: Answer)
    ensures var (w', r) := Sql(w, at.c.spec.typ, at.conn, op, a.fault);
      OnCall(State(w, PcOf(at, op)), a) ==
        if r.None? then Returned(w', at, Failure)
        else if r.value.pc.Done? then Returned(w', at, Success(r.value.info))
        else State(w', PcOf(at, r.value))
  {
  }

  // How many statements of an operation reach the server before it returns.
  function Reaching(answers: seq<Answer>): nat
    decreases |answers|
  {
    if answers == [] || answers[0].fault.Refused? then 0
    else if answers[0].fault.Lost? then 1
    else 1 + Reaching(answers[1..])
  }

  // Create, info, drop and record, as the controller calls them: however the calls are answered, the server they work
  // on is left as by an attempt cut after as many statements, and nothing else changes; so what module Convergence
  // says of attempts, retries included, holds of what the controller does. The operation succeeds exactly when that
  // attempt is done and no answer was lost or refused.
  lemma {:induction false} OperationIsAttempt(w: World, at: Where, op: Op, answers: seq<Answer>) returns (n: nat)
    requires ServerFor(w, at.c.spec.typ, at.conn).Some? && !Ended(op)
    ensures n <= |answers|
    ensures var (s', op') := Convergence.Attempt(ServerFor(w, at.c.spec.typ, at.conn).value, op, Reaching(answers));
      var w' := w.(servers := w.servers[AddrOf(at.conn) := s']);
      var t := Deletion.Calls(State(w, PcOf(at, op)), answers[..n]);
      if AllAnswered(answers[..n]) && !Ended(op') then n == |answers| && t == State(w', PcOf(at, op'))
      else t == Returned(w', at, if AllAnswered(answers[..n]) && op'.pc.Done? then Success(op'.info) else Failure)
    decreases |answers|
  {
    var addr, s := AddrOf(at.conn), ServerFor(w, at.c.spec.typ, at.conn).value;
    if answers == [] {
      n := 0;
      assert w.servers[addr := s] == w.servers;
    } else {
      var a := answers[0];
      var (s1, op1) := Step(s, op);
      var w1 := w.(servers := w.servers[addr := s1]);
      OneStatement(w, at, op, answers);
      if a.fault.Ok? && !Ended(op1) {
        var m := OperationIsAttempt(w1, at, op1, answers[1..]);
        n := m + 1;
        assert answers[..n][1..] == answers[1..][..m] && answers[..n][0] == a;
        assert AllAnswered(answers[..n]) <==> AllAnswered(answers[1..][..m]);
        var s' := Convergence.Attempt(s1, op1, Reaching(answers[1..])).0;
        assert w1.servers[addr := s'] == w.servers[addr := s'];
      } else {
        n := 1;
        assert answers[..1] == [a] && w.servers[addr := s] == w.servers;
      }
    }
  }

  predicate AllAnswered(answers: seq<Answer>) {
    forall i :: 0 <= i < |answers| ==> answers[i].fault.Ok?
  }

  // The first call of the operation, and what it does to the server.
  lemma OneStatement(w: World, at: Where, op: Op, answers: seq<Answer>)
    requires ServerFor(w, at.c.spec.typ, at.conn).Some? && !Ended(op) && answers != []
    ensures var s := ServerFor(w, at.c.spec.typ, at.conn).value; var (s1, op1) := Step(s, op); var a := answers[0];
      var w1 := w.(servers := w.servers[AddrOf(at.conn) := s1]);
      && OnCall(State(w, PcOf(at, op)), a) ==
           (if a.fault.Refused? then Returned(w, at, Failure)
            else if a.fault.Lost? || op1.pc.Failed? then Returned(w1, at, Failure)
            else if op1.pc.Done? then Returned(w1, at, Success(op1.info))
            else State(w1, PcOf(at, op1)))
      && Convergence.Attempt(s, op, Reaching(answers)) ==
           (if a.fault.Refused? then (s, op)
            else if a.fault.Lost? || Ended(op1) then (s1, op1)
            else Convergence.Attempt(s1, op1, Reaching(answers[1..])))
      && ServerFor(w1, at.c.spec.typ, at.conn) == Some(s1)
      && Deletion.Calls(State(w, PcOf(at, op)), [a]) == OnCall(State(w, PcOf(at, op)), a)
  {
    StatementIs(w, at, op, answers[0]);
    assert Deletion.Calls(OnCall(State(w, PcOf(at, op)), answers[0]), []) == OnCall(State(w, PcOf(at, op)), answers[0]);
  }

  /** The request in memory */

  class DatabaseRequest {
    var uid: nat
    var rv: nat
    var generation: nat
    var finalizer: bool
    var deleting: bool
    var spec: Spec
    var status: Status

    constructor (o: Object)
      ensures Copy() == o
    {
      uid, rv, generation, finalizer, deleting := o.uid, o.rv, o.generation, o.finalizer, o.deleting;
      spec, status := o.spec, o.status;
    }

    function Copy(): Object
      reads this
    {
      Object(uid, rv, generation, finalizer, deleting, spec, status)
    }

    // What the client does with the response of a write.
    method Decode(o: Object)
      modifies this
      ensures Copy() == o
    {
      uid, rv, generation, finalizer, deleting := o.uid, o.rv, o.generation, o.finalizer, o.deleting;
      spec, status := o.spec, o.status;
    }
  }

  class DatabaseRequestReconciler {
    var world: World
    var script: seq<Reply>

    // What the machine would make of the rest of the pass from pc.
    ghost function Rest(pc: Pc): State
      reads this
    {
      Exec(State(world, pc), script)
    }

    constructor (world: World, script: seq<Reply>)
      ensures this.world == world && this.script == script
    {
      this.world, this.script := world, script;
    }

    // The next call arrives, or the process dies before it.
    method Await(ghost pc: Pc) returns (a: Answer)
      requires !Quiet(pc)
      modifies this
      ensures old(Rest(pc)) == Exec(OnCall(State(world, pc), a), script)
    {
      if script == [] {
        RefusedDoesNothing(world, pc);
        return CRASH;
      }
      a := script[0].answer;
      world, script := HappenAll(world, script[0].before), script[1..];
    }

    method Update(request: DatabaseRequest, a: Answer) returns (ok: bool)
      modifies this`world, request
      ensures (world, ok) == Write(old(world), Cluster.Update(old(world), old(request.Copy())), a.fault)
      ensures request.Copy() ==
        if ok && world.request.Some? then Decoded(old(request.Copy()), world.request.value, a.keep)
        else old(request.Copy())
    {
      var r := Cluster.Update(world, request.Copy());
      if r.Failure? || a.fault.Refused? {
        return false;
      }
      world := r.value;
      ok := a.fault.Ok?;
      if ok && world.request.Some? {
        request.Decode(Decoded(request.Copy(), world.request.value, a.keep));
      }
    }

    method UpdateStatus(request: DatabaseRequest, a: Answer) returns (ok: bool)
      modifies this`world, request
      ensures (world, ok) == Write(old(world), UpdateStatusOf(old(world), old(request.Copy())), a.fault)
      ensures request.Copy() == if ok && world.request.Some? then world.request.value else old(request.Copy())
    {
      var r := UpdateStatusOf(world, request.Copy());
      if r.Failure? || a.fault.Refused? {
        return false;
      }
      world := r.value;
      ok := a.fault.Ok?;
      if ok && world.request.Some? {
        request.Decode(world.request.value);
      }
    }

    method HandleError(request: DatabaseRequest, cause: Cause)
      modifies this, request
      ensures old(Exec(Fail(world, request.Copy(), cause), script)) == State(world, Idle)
    {
      request.status := request.status.(conditions := Conditions(Down(cause), Some(cause)));
      ghost var c := request.Copy();
      var a := Await(Closing(c, WriteError));
      var _ := UpdateStatus(request, a);
    }

    // An operation on a database: its statements one after the other, each of which may be the last.
    method RunStatements(typ: DbType, conn: Connection, start: Op, ghost at: Where) returns (r: Result<Info>)
      requires !Ended(start) && at.conn == conn && at.c.spec.typ == typ
      modifies this
      ensures old(Rest(PcOf(at, start))) == Exec(Returned(world, at, r), script)
    {
      var op := start;
      while true
        invariant !Ended(op)
        invariant Rest(PcOf(at, op)) == old(Rest(PcOf(at, start)))
        decreases Deletion.Statements(op)
      {
        var a := Await(PcOf(at, op));
        StatementIs(world, at, op, a);
        Deletion.SqlDecreases(world, typ, conn, op, a.fault);
        var (after, result) := Sql(world, typ, conn, op, a.fault);
        world := after;
        if result.None? {
          return Failure;
        }
        op := result.value;
        if op.pc.Done? {
          return Success(op.info);
        }
      }
    }

    /** handleService and handleSecret */

    // panics: a nil dbInfo is dereferenced.
    method HandleService(dbInfo: Option<Target>, request: DatabaseRequest)
      returns (changed: Result<bool>, host: string, panics: bool)
      modifies this
      ensures panics ==>
        changed.Failure? && old(Rest(Aligning(request.Copy(), ReadService(dbInfo)))) == State(world, Idle)
      ensures changed.Failure? && !panics ==>
        old(Rest(Aligning(request.Copy(), ReadService(dbInfo))))
        == Exec(Fail(world, request.Copy(), Cause.HandleService), script)
      ensures changed.Success? ==> dbInfo.Some?
      ensures changed.Success? ==>
        old(Rest(Aligning(request.Copy(), ReadService(dbInfo))))
        == Rest(Aligning(request.Copy(), ReadSecret(dbInfo.value, host, changed.value)))
    {
      host, panics := "", false;
      ghost var c := request.Copy();
      var a := Await(Aligning(c, ReadService(dbInfo)));
      if !a.fault.Ok? {
        return Failure, host, panics;
      }
      if dbInfo.None? {
        return Failure, host, true;
      }
      var t := dbInfo.value;
      var serviceName := request.spec.name;
      if serviceName !in world.services {
        var b := Await(Aligning(c, CreateService(t)));
        if b.fault.Refused? || serviceName in world.services {
          return Failure, host, panics;
        }
        world := world.(services := world.services[serviceName := t.info.hostName]);
        if b.fault.Lost? {
          return Failure, host, panics;
        }
        return Success(false), t.info.hostName, panics;
      }
      if world.services[serviceName] != t.info.hostName {
        var b := Await(Aligning(c, UpdateService(t)));
        if b.fault.Refused? || serviceName !in world.services {
          return Failure, host, panics;
        }
        world := world.(services := world.services[serviceName := t.info.hostName]);
        if b.fault.Lost? {
          return Failure, host, panics;
        }
        return Success(true), t.info.hostName, panics;
      }
      return Success(false), world.services[serviceName], panics;
    }

    method HandleSecret(dbInfo: Target, request: DatabaseRequest, host: string, changed: bool)
      returns (secretChanged: Result<bool>)
      modifies this
      ensures secretChanged.Failure? ==>
        old(Rest(Aligning(request.Copy(), ReadSecret(dbInfo, host, changed))))
        == Exec(Fail(world, request.Copy(), Cause.HandleSecret), script)
      ensures secretChanged.Success? ==> OwnSecret(world.key) in world.secrets
      ensures secretChanged.Success? ==>
        old(Rest(Aligning(request.Copy(), ReadSecret(dbInfo, host, changed))))
        == Exec(Aligned(world, request.Copy(), dbInfo, host, changed || secretChanged.value), script)
    {
      ghost var c := request.Copy();
      var a := Await(Aligning(c, ReadSecret(dbInfo, host, changed)));
      if !a.fault.Ok? {
        return Failure;
      }
      var own := OwnSecret(world.key);
      var wanted := GetSecretData(dbInfo.info, request.spec.name, request.spec.name);
      if own !in world.secrets {
        var b := Await(Aligning(c, CreateSecret(dbInfo, host, changed)));
        own := OwnSecret(world.key);
        if b.fault.Refused? || own in world.secrets {
          return Failure;
        }
        world := world.(secrets := world.secrets[own := wanted]);
        return if b.fault.Lost? then Failure else Success(false);
      }
      if world.secrets[own] != wanted {
        var b := Await(Aligning(c, UpdateSecret(dbInfo, host)));
        own := OwnSecret(world.key);
        if b.fault.Refused? || own !in world.secrets {
          return Failure;
        }
        world := world.(secrets := world.secrets[own := wanted]);
        return if b.fault.Lost? then Failure else Success(true);
      }
      return Success(false);
    }

    /** relationalDatabaseOperation */

    method GetPassword(conn: Connection) returns (password: Option<string>)
      ensures password == PasswordOf(world, conn)
    {
      var r := conn.passwordSecretRef;
      if r !in world.secrets || "password" !in world.secrets[r] || world.secrets[r]["password"] == "" {
        return None;
      }
      return Some(world.secrets[r]["password"]);
    }

    // The provider a reference names.
    method GetProviderOf(ref: Ref) returns (provider: Option<Provider>)
      ensures provider == GetProvider(world.providers, ref.provider)
    {
      var ps := world.providers;
      var i := 0;
      while i < |ps|
        invariant 0 <= i <= |ps|
        invariant GetProvider(ps, ref.provider) == GetProvider(ps[i..], ref.provider)
      {
        if ps[i].name == ref.provider {
          return Some(ps[i]);
        }
        i := i + 1;
      }
      return None;
    }

    // The operation info, as relDBInfo calls it.
    method RelDbInfo(request: DatabaseRequest) returns (dbInfo: Option<Target>)
      modifies this
      ensures dbInfo.Some? ==>
        old(Rest(Informing(request.Copy(), ReadProvider))) == Rest(Aligning(request.Copy(), ReadService(dbInfo)))
      ensures dbInfo.None? ==>
        old(Rest(Informing(request.Copy(), ReadProvider))) == Exec(Fail(world, request.Copy(), GetInfo), script)
    {
      ghost var c := request.Copy();
      var a := Await(Informing(c, ReadProvider));
      if !a.fault.Ok? || request.spec.ref.None? {
        return None;
      }
      var provider := GetProviderOf(request.spec.ref.value);
      if provider.None? {
        return None;
      }
      var p := provider.value;
      var connection := LookUpConnection(p.connections, request.spec.ref.value.connection);
      if connection.None? {
        return None;
      }
      var conn := connection.value;
      var b := Await(Informing(c, ReadPassword(p, conn)));
      var password := GetPassword(conn);
      if !b.fault.Ok? || password.None? {
        return None;
      }
      var typ := request.spec.typ;
      var r := RunStatements(typ, conn, Start(EngineOf(typ), Fetch, world.key, b.drawn), Fetching(c, p, conn));
      if r.Failure? {
        return None;
      }
      var i := r.value;
      return Some(Target(DbInfo(i.dbname, conn.hostname, i.username, i.password, conn.port), p, conn, false));
    }

    // The operation create, as createDatabase calls it.
    method CreateRelationalDatabase(request: DatabaseRequest) returns (ok: bool)
      modifies this, request
      ensures ok ==> request.spec.ref.Some?
      ensures ok ==>
        old(Rest(Placing(request.Copy(), SelectProvider))) == Exec(Inform(world, request.Copy()), script)
      ensures !ok ==>
        old(Rest(Placing(request.Copy(), SelectProvider)))
        == Exec(Fail(world, request.Copy(), Cause.CreateDatabase), script)
    {
      ghost var c := request.Copy();
      var a := Await(Placing(c, SelectProvider));
      if !a.fault.Ok? {
        return false;
      }
      var found :=
        FindRelationalDatabaseProvider(world.providers, Query(request.spec.selector, request.spec.typ), a.loads);
      PlaceInRange(world.providers, Query(request.spec.selector, request.spec.typ), a.loads);
      world := world.(history := world.history.(selections := world.history.selections + {request.Copy()}));
      if found.Failure? {
        return false;
      }
      var (p, connectionName) := found.value;
      var connection := LookUpConnection(p.connections, connectionName);
      if connection.None? {
        return false;
      }
      ok := CreateOn(request, p, connection.value);
    }

    method CreateOn(request: DatabaseRequest, p: Provider, conn: Connection) returns (ok: bool)
      modifies this, request
      ensures ok ==> request.spec.ref.Some?
      ensures ok ==>
        old(Rest(Placing(request.Copy(), ReadCreatePassword(p, conn)))) == Exec(Inform(world, request.Copy()), script)
      ensures !ok ==>
        old(Rest(Placing(request.Copy(), ReadCreatePassword(p, conn))))
        == Exec(Fail(world, request.Copy(), Cause.CreateDatabase), script)
    {
      ghost var c := request.Copy();
      var a := Await(Placing(c, ReadCreatePassword(p, conn)));
      var password := GetPassword(conn);
      if !a.fault.Ok? || password.None? {
        return false;
      }
      var typ := request.spec.typ;
      var start := Start(EngineOf(typ), Task.Create(conn.username), world.key, a.drawn);
      var r := RunStatements(typ, conn, start, Creating(c, p, conn));
      if r.Failure? {
        return false;
      }
      var dbRef := Ref(p.name, conn.name);
      request.status := request.status.(observedRef := Some(dbRef),
        databaseInfo := Some((r.value.username, r.value.dbname)));
      ok := SavePlaced(request, dbRef);
    }

    method SavePlaced(request: DatabaseRequest, dbRef: Ref) returns (ok: bool)
      modifies this, request
      ensures ok ==> request.spec.ref.Some?
      ensures ok ==>
        old(Rest(Placing(request.Copy(), SavePlacement(dbRef)))) == Exec(Inform(world, request.Copy()), script)
      ensures !ok ==>
        old(Rest(Placing(request.Copy(), SavePlacement(dbRef))))
        == Exec(Fail(world, request.Copy(), Cause.CreateDatabase), script)
    {
      ghost var c := request.Copy();
      var a := Await(Placing(c, SavePlacement(dbRef)));
      ok := UpdateStatus(request, a);
      if ok {
        request.spec := request.spec.(ref := Some(dbRef));
      }
    }

    // The operation drop, as relDBDeletion calls it.
    method RelDbDeletion(request: DatabaseRequest) returns (ok: bool, dropped: Option<Dropped>)
      requires request.spec.ref.Some?
      modifies this, request
      ensures ok ==>
        old(Rest(Deleting(request.Copy(), ReadDropProvider))) == Rest(Deleting(request.Copy(), DelService(dropped)))
      ensures !ok ==>
        old(Rest(Deleting(request.Copy(), ReadDropProvider))) == Exec(Fail(world, request.Copy(), DropFailed), script)
    {
      ghost var c := request.Copy();
      dropped := None;
      var a := Await(Deleting(c, ReadDropProvider));
      if !a.fault.Ok? {
        return false, dropped;
      }
      var provider := GetProviderOf(request.spec.ref.value);
      if provider.None? {
        return false, dropped;
      }
      var connection := LookUpConnection(provider.value.connections, request.spec.ref.value.connection);
      if connection.None? {
        return false, dropped;
      }
      ok, dropped := DropOn(request, provider.value, connection.value);
    }

    method DropOn(request: DatabaseRequest, p: Provider, conn: Connection) returns (ok: bool, dropped: Option<Dropped>)
      requires request.spec.ref.Some?
      modifies this, request
      ensures ok ==>
        old(Rest(Deleting(request.Copy(), ReadDropPassword(p, conn))))
        == Rest(Deleting(request.Copy(), DelService(dropped)))
      ensures !ok ==>
        old(Rest(Deleting(request.Copy(), ReadDropPassword(p, conn))))
        == Exec(Fail(world, request.Copy(), DropFailed), script)
    {
      ghost var c := request.Copy();
      dropped := None;
      var a := Await(Deleting(c, ReadDropPassword(p, conn)));
      var password := GetPassword(conn);
      if !a.fault.Ok? || password.None? {
        return false, dropped;
      }
      var typ := request.spec.typ;
      var r := RunStatements(typ, conn, Start(EngineOf(typ), Drop, world.key, a.drawn), Dropping(c, p, conn));
      if r.Failure? {
        return false, dropped;
      }
      dropped := Some(Dropped(request.spec.ref.value, p, conn));
      request.status := request.status.(observedRef := None);
      ok := SaveDropped(request, dropped.value);
    }

    method SaveDropped(request: DatabaseRequest, done: Dropped) returns (ok: bool)
      modifies this, request
      ensures ok ==>
        old(Rest(Deleting(request.Copy(), SaveDrop(done)))) == Rest(Deleting(request.Copy(), DelService(Some(done))))
      ensures !ok ==>
        old(Rest(Deleting(request.Copy(), SaveDrop(done)))) == Exec(Fail(world, request.Copy(), DropFailed), script)
    {
      ghost var c := request.Copy();
      var a := Await(Deleting(c, SaveDrop(done)));
      ok := UpdateStatus(request, a);
      if ok {
        request.spec := request.spec.(ref := None);
      }
    }

    /** handleSeed */

    method SeedDatabase(request: DatabaseRequest, seed: SecretRef)
      returns (dbInfo: Option<DbInfo>, data: map<string, string>)
      requires request.spec.seed == Some(seed)
      modifies this
      ensures dbInfo.Some? ==>
        old(Rest(Seeding(request.Copy(), ReadSeed))) == Rest(Seeding(request.Copy(), PingSeed(data, dbInfo.value)))
      ensures dbInfo.None? ==>
        old(Rest(Seeding(request.Copy(), ReadSeed))) == Exec(Fail(world, request.Copy(), Cause.HandleSeed), script)
    {
      var a := Await(Seeding(request.Copy(), ReadSeed));
      data := map[];
      if !a.fault.Ok? || seed !in world.secrets {
        return None, data;
      }
      data := world.secrets[seed];
      dbInfo := DbInfoFromSeed(data);
    }

    // The error a failed ping gives is told apart by its text.
    method TestSeedConnection(request: DatabaseRequest, data: map<string, string>, d: DbInfo)
      returns (ok: bool, knownSeedError: bool)
      modifies this
      ensures ok ==>
        old(Rest(Seeding(request.Copy(), PingSeed(data, d)))) == Rest(Seeding(request.Copy(), ListForSeed(data, d)))
      ensures !ok ==>
        old(Rest(Seeding(request.Copy(), PingSeed(data, d))))
        == Exec(Fail(world, request.Copy(), if knownSeedError then InvalidSeed else Cause.HandleSeed), script)
    {
      var a := Await(Seeding(request.Copy(), PingSeed(data, d)));
      knownSeedError := a.knownSeedError;
      ok := a.fault.Ok? && Relational(request.spec.typ);
      if ok {
        world := world.(history := world.history.(pinged := world.history.pinged + {d}));
      }
    }

    method MatchSeed(request: DatabaseRequest, data: map<string, string>, d: DbInfo)
      returns (found: Option<(Provider, Connection)>)
      modifies this
      ensures found.Some? ==>
        old(Rest(Seeding(request.Copy(), ListForSeed(data, d))))
        == Rest(Seeding(request.Copy(), ReadSeedPassword(data, d, found.value.0, found.value.1)))
      ensures found.None? ==>
        old(Rest(Seeding(request.Copy(), ListForSeed(data, d))))
        == Exec(Fail(world, request.Copy(), Cause.HandleSeed), script)
    {
      var a := Await(Seeding(request.Copy(), ListForSeed(data, d)));
      if !a.fault.Ok? {
        return None;
      }
      found := FindSeedConnection(world.providers, Query(request.spec.selector, request.spec.typ), d.hostName, d.port);
    }

    method RecordSeedInfo(request: DatabaseRequest, data: map<string, string>, d: DbInfo, p: Provider, conn: Connection)
      returns (ok: bool)
      modifies this
      ensures ok ==>
        old(Rest(Seeding(request.Copy(), ReadSeedPassword(data, d, p, conn))))
        == Rest(Seeding(request.Copy(), DeleteSeed(data, d, p, conn)))
      ensures !ok ==>
        old(Rest(Seeding(request.Copy(), ReadSeedPassword(data, d, p, conn))))
        == Exec(Fail(world, request.Copy(), Cause.HandleSeed), script)
    {
      ghost var c := request.Copy();
      var a := Await(Seeding(c, ReadSeedPassword(data, d, p, conn)));
      var password := GetPassword(conn);
      if !a.fault.Ok? || password.None? {
        return false;
      }
      var typ := request.spec.typ;
      var start := Start(EngineOf(typ), Record(Credentials(d)), world.key, Credentials(d));
      var r := RunStatements(typ, conn, start, Recording(c, p, conn, data, d));
      ok := r.Success?;
      if ok {
        world := world.(history := world.
          history.(recorded := world.history.recorded + {(AddrOf(conn), Credentials(d))}));
      }
    }

    method DeleteSeedSecret(
      request: DatabaseRequest, seed: SecretRef, data: map<string, string>, d: DbInfo, p: Provider, conn: Connection)
      returns (ok: bool)
      requires request.spec.seed == Some(seed)
      modifies this
      ensures ok ==>
        old(Rest(Seeding(request.Copy(), DeleteSeed(data, d, p, conn))))
        == Rest(Aligning(SeedPlaced(request.Copy(), Ref(p.name, conn.name)),
              ReadService(Some(Target(d, p, conn, true)))))
      ensures !ok ==>
        old(Rest(Seeding(request.Copy(), DeleteSeed(data, d, p, conn))))
        == Exec(Fail(world, request.Copy(), Cause.HandleSeed), script)
    {
      ghost var c := request.Copy();
      var a := Await(Seeding(c, DeleteSeed(data, d, p, conn)));
      if a.fault.Refused? || seed !in world.secrets {
        return false;
      }
      var rows := if AddrOf(conn) in world.servers then world.servers[AddrOf(conn)].rows else [];
      var gone := SeedDeletion(request.spec, data, d, Some(world.secrets[seed]), p, conn, rows);
      world := world.(secrets := world.secrets - {seed},
                      history := world.history.(seedDeletions := world.history.seedDeletions + {gone}));
      ok := a.fault.Ok?;
    }

    // r is what the seed was matched with; knownSeedError tells the two ways to fail apart.
    method HandleSeed(request: DatabaseRequest, seed: SecretRef) returns (r: Option<Target>, knownSeedError: bool)
      requires request.spec.seed == Some(seed)
      modifies this
      ensures r.Some? ==>
        old(Rest(Seeding(request.Copy(), ReadSeed)))
        == Rest(Aligning(SeedPlaced(request.Copy(), Ref(r.value.provider.name, r.value.conn.name)), ReadService(r)))
      ensures r.None? ==>
        old(Rest(Seeding(request.Copy(), ReadSeed)))
        == Exec(Fail(world, request.Copy(), if knownSeedError then InvalidSeed else Cause.HandleSeed), script)
    {
      knownSeedError := false;
      var dbInfo, data := SeedDatabase(request, seed);
      if dbInfo.None? {
        return None, knownSeedError;
      }
      var d := dbInfo.value;
      var ok;
      ok, knownSeedError := TestSeedConnection(request, data, d);
      if !ok {
        return None, knownSeedError;
      }
      var found := MatchSeed(request, data, d);
      if found.None? {
        return None, false;
      }
      var (p, conn) := found.value;
      ok := RecordSeedInfo(request, data, d, p, conn);
      if ok {
        ok := DeleteSeedSecret(request, seed, data, d, p, conn);
      }
      r, knownSeedError := if ok then Some(Target(d, p, conn, true)) else None, false;
    }

    /** deleteDatabase */

    method DeleteDatabase(request: DatabaseRequest)
      modifies this, request
      ensures old(Exec(StartDelete(world, request.Copy()), script)) == State(world, Idle)
    {
      var dropped := None;
      if request.spec.seed.None? && request.spec.dropOnDelete {
        match request.spec.typ
        case MySqlType | PostgresType =>
          if request.spec.ref.None? {
            HandleError(request, DropFailed);
            return;
          }
          var ok;
          ok, dropped := RelDbDeletion(request);
          if !ok {
            HandleError(request, DropFailed);
            return;
          }
        case MongoDbType =>
        case MariaDbType =>
          HandleError(request, InvalidType);
          return;
      }
      DeleteObjects(request, dropped);
    }

    method DeleteObjects(request: DatabaseRequest, dropped: Option<Dropped>)
      modifies this, request
      ensures old(Rest(Deleting(request.Copy(), DelService(dropped)))) == State(world, Idle)
    {
      var a := Await(Deleting(request.Copy(), DelService(dropped)));
      if !a.fault.Refused? {
        world := world.(services := world.services - {request.spec.name},
                        log := Away(world.log, OwnedService(request.spec.name)));
      }
      if !a.fault.Ok? {
        HandleError(request, Cause.DeleteService);
        return;
      }
      DeleteOwnSecret(request, dropped);
    }

    method DeleteOwnSecret(request: DatabaseRequest, dropped: Option<Dropped>)
      modifies this, request
      ensures old(Rest(Deleting(request.Copy(), DelSecret(dropped)))) == State(world, Idle)
    {
      var a := Await(Deleting(request.Copy(), DelSecret(dropped)));
      if !a.fault.Refused? {
        world := world.(secrets := world.secrets - {OwnSecret(world.key)}, log := Away(world.log, OwnedSecret));
      }
      if !a.fault.Ok? {
        HandleError(request, Cause.DeleteSecret);
        return;
      }
      if request.finalizer {
        request.finalizer := false;
        RemoveFinalizer(request, dropped);
      }
    }

    // The removal is recorded with what was true of it.
    method RemoveFinalizer(request: DatabaseRequest, dropped: Option<Dropped>)
      modifies this, request
      ensures old(Rest(Deleting(request.Copy(), DelFinalizer(dropped)))) == State(world, Idle)
    {
      var a := Await(Deleting(request.Copy(), DelFinalizer(dropped)));
      var before := world;
      var ok := Update(request, a);
      if before.request.Some? && world != before {
        var o := before.request.value;
        world := world.(history := world.
          history.(removals := world.history.removals + {RemovalOf(before, o, dropped)}));
      }
      if !ok {
        HandleError(request, Cause.RemoveFinalizer);
      }
    }

    /** Reconcile */

    method CreateDatabase(request: DatabaseRequest) returns (ok: bool)
      modifies this, request
      ensures old(Relational(request.spec.typ)) && ok ==>
        request.spec.ref.Some? && old(Rest(Placing(request.Copy(), SelectProvider)))
        == Exec(Inform(world, request.Copy()), script)
      ensures old(Relational(request.spec.typ)) && !ok ==>
        old(Rest(Placing(request.Copy(), SelectProvider)))
        == Exec(Fail(world, request.Copy(), Cause.CreateDatabase), script)
      ensures !old(Relational(request.spec.typ)) ==>
        && (ok <==> request.spec.typ.MongoDbType?)
        && world == old(world) && script == old(script) && request.Copy() == old(request.Copy())
    {
      match request.spec.typ
      case MySqlType | PostgresType =>
        ok := CreateRelationalDatabase(request);
      case MongoDbType =>
        ok := true;
      case MariaDbType =>
        ok := false;
    }

    // The end of Reconcile: the Update, then the status if its conditions change.
    method Conclude(request: DatabaseRequest, changed: bool)
      modifies this, request
      ensures old(Rest(Closing(request.Copy(), Finalize(changed)))) == State(world, Idle)
    {
      var a := Await(Closing(request.Copy(), Finalize(changed)));
      var ok := Update(request, a);
      if !ok || world.request.None? {
        return;
      }
      var reason := if changed then DatabaseRequestChanged else DatabaseRequestCreated;
      var readyChanges := request.status.conditions.ready != Up(reason);
      request.status := request.status.(conditions := Conditions(Up(reason), None));
      if readyChanges {
        a := Await(Closing(request.Copy(), WriteReady));
        ok := UpdateStatus(request, a);
        if !ok {
          HandleError(request, Cause.UpdateStatus);
        }
      }
    }

    // From handleService on.
    method AlignObjects(dbInfo: Option<Target>, request: DatabaseRequest)
      modifies this, request
      ensures old(Rest(Aligning(request.Copy(), ReadService(dbInfo)))) == State(world, Idle)
    {
      var serviceChanged, host, panics := HandleService(dbInfo, request);
      if panics {
        return;
      }
      if serviceChanged.Failure? {
        HandleError(request, Cause.HandleService);
        return;
      }
      var secretChanged := HandleSecret(dbInfo.value, request, host, serviceChanged.value);
      if secretChanged.Failure? {
        HandleError(request, Cause.HandleSecret);
        return;
      }
      var data := world.secrets[OwnSecret(world.key)];
      var sync := Sync(request.uid, request.generation, request.spec, dbInfo.value, host, data, world.log.start);
      world := world.(history := world.history.(synced := world.history.synced + {sync}));
      request.status := request.status.(observedGeneration := request.generation);
      Conclude(request, serviceChanged.value || secretChanged.value);
    }

    // After the copy carries a reference.
    method InformAndAlign(request: DatabaseRequest)
      modifies this, request
      ensures old(Exec(Inform(world, request.Copy()), script)) == State(world, Idle)
    {
      request.status := request.status.(observedRef := request.spec.ref);
      var dbInfo := None;
      if Relational(request.spec.typ) {
        dbInfo := RelDbInfo(request);
        if dbInfo.None? {
          HandleError(request, GetInfo);
          return;
        }
      }
      AlignObjects(dbInfo, request);
    }

    // After the finalizer is in place.
    method Provision(request: DatabaseRequest)
      modifies this, request
      ensures old(Exec(Proceed(world, request.Copy()), script)) == State(world, Idle)
    {
      if request.status.conditions.ready.Up? && request.status.observedGeneration >= request.generation {
        return;
      }
      if request.spec.seed.Some? {
        var dbInfo, knownSeedError := HandleSeed(request, request.spec.seed.value);
        if dbInfo.None? {
          HandleError(request, if knownSeedError then InvalidSeed else Cause.HandleSeed);
          return;
        }
        var ref := Ref(dbInfo.value.provider.name, dbInfo.value.conn.name);
        request.spec := request.spec.(ref := Some(ref), seed := None);
        request.status := request.status.(observedRef := Some(ref));
        AlignObjects(dbInfo, request);
        return;
      }
      if request.spec.ref.None? {
        var ok := CreateDatabase(request);
        if !ok {
          HandleError(request, Cause.CreateDatabase);
          return;
        }
        if request.spec.ref.None? {
          HandleError(request, MissingReference);
          return;
        }
      }
      InformAndAlign(request);
    }

    // read is the version that the Get of the request returns, if any. Whatever the script holds, what the method
    // leaves is sound; and if it was so before, then after it, too, Ready and Error exclude each
    // other, every finalizer so far has been removed safely, and every seed deleted so far was recorded first.
    method Reconcile(read: Option<nat>)
      modifies this
      ensures State(world, Idle) ==
        if read.Some? && read.value in old(world.versions)
        then Exec(AfterRead(Started(old(world)), old(world.versions)[read.value]), old(script))
        else State(Started(old(world)), Idle)
      ensures old(Safety.WorldOk(world)) ==> Sound(world)
    {
      ghost var before, replies := world, script;
      world := Started(world);
      Pass(read);
      if Safety.WorldOk(before) {
        PassIsSound(before, read, replies, world);
      }
    }

    method Pass(read: Option<nat>)
      modifies this
      ensures State(world, Idle) ==
        if read.Some? && read.value in old(world.versions)
        then Exec(AfterRead(old(world), old(world.versions)[read.value]), old(script)) else State(old(world), Idle)
    {
      if read.None? || read.value !in world.versions {
        return;
      }
      var request := new DatabaseRequest(world.versions[read.value]);
      if request.deleting {
        DeleteDatabase(request);
        return;
      }
      if !request.finalizer {
        request.finalizer := true;
        var a := Await(Adding(request.Copy()));
        var ok := Update(request, a);
        if !ok {
          HandleError(request, Cause.AddFinalizer);
          return;
        }
        if world.request.None? {
          return;
        }
      }
      Provision(request);
    }
  }
}
