// Deletion of a request: exactly when a fault-free pass completes it, and that no number of passes cut
// at any call changes that.
module Deletion {
  import opened Common
  import opened Registry
  import opened Placement
  import opened SecretKeys
  import opened Cluster
  import opened Reconcile
  import opened Safety
  import opened SafetySteps
  import opened Convergence
  import opened Guarantees
  import opened Conditions

  /** Passes */

  // The calls of a pass that is left alone.
  function Calls(s: State, answers: seq<Answer>): State
    decreases |answers|
  {
    if answers == [] then s else Calls(OnCall(s, answers[0]), answers[1..])
  }

  predicate AllOk(answers: seq<Answer>, drawn: Info) {
    forall a :: a in answers ==> a.fault.Ok? && a.drawn == drawn
  }

  // Statements left, whatever the server answers.
  function Statements(op: Op): nat {
    match op.pc
    case Use => 7 case Select => 6 case Insert => 5 case InsertIgnore => 1
    case CreateDb => 4 case CreateUser => 3 case GrantDb => 2 case Flush => 1
    case RoleCheck => 4 case CreateRole => 3 case GrantRole => 2 case CreateOwned => 1
    case Terminate => 4 case DropDb => 3 case DropUser => 2
    case Done => 0 case Failed => 0
  }

  // The calls a pass can still make.
  function Effort(pc: Pc): nat {
    match pc
    case Idle => 0
    case Reading => 0
    case Adding(_) => 41
    case Seeding(_, step) =>
      (match step
       case ReadSeed => 40 case PingSeed(_, _) => 39 case ListForSeed(_, _) => 38
       case ReadSeedPassword(_, _, _, _) => 37 case RecordSeed(_, _, _, _, op) => 29 + Statements(op)
       case DeleteSeed(_, _, _, _) => 29)
    case Placing(_, step) =>
      (match step
       case SelectProvider => 40 case ReadCreatePassword(_, _) => 39 case RunCreate(_, _, op) => 20 + Statements(op)
       case SavePlacement(_) => 20)
    case Informing(_, step) =>
      (match step
       case ReadProvider => 19 case ReadPassword(_, _) => 18 case RunFetch(_, _, op) => 10 + Statements(op))
    case Aligning(_, step) =>
      (match step
       case ReadService(_) => 9 case CreateService(_) => 8 case UpdateService(_) => 8
       case ReadSecret(_, _, _) => 6 case CreateSecret(_, _, _) => 5 case UpdateSecret(_, _) => 5)
    case Closing(_, step) => (match step case Finalize(_) => 3 case WriteReady => 2 case WriteError => 1)
    case Deleting(_, step) =>
      (match step
       case ReadDropProvider => 19 case ReadDropPassword(_, _) => 18 case RunDrop(_, _, op) => 10 + Statements(op)
       case SaveDrop(_) => 9 case DelService(_) => 8 case DelSecret(_) => 7 case DelFinalizer(_) => 6)
  }

  lemma StatementsDecrease(s: Server, op: Op)
    requires !Ended(op)
    ensures Statements(Step(s, op).1) < Statements(op)
  {
  }

  lemma SqlDecreases(w: World, typ: DbType, conn: Connection, op: Op, fault: Fault)
    requires !Ended(op)
    ensures var r := Sql(w, typ, conn, op, fault).1;
      r.Some? ==> Statements(r.value) < Statements(op) && (!r.value.pc.Done? ==> !Ended(r.value))
  {
  }

  // Operations in flight have not ended.
  predicate InFlight(pc: Pc) {
    && (pc.Seeding? && pc.seed.RecordSeed? ==> !Ended(pc.seed.op))
    && (pc.Placing? && pc.place.RunCreate? ==> !Ended(pc.place.op))
    && (pc.Informing? && pc.info.RunFetch? ==> !Ended(pc.info.op))
    && (pc.Deleting? && pc.del.RunDrop? ==> !Ended(pc.del.op))
  }

  // Every pass comes to an end: each call, however it is answered, leaves fewer to make.
  lemma PassProgresses(s: State, a: Answer)
    requires InFlight(s.pc) && !s.pc.Idle? && !s.pc.Reading?
    ensures InFlight(OnCall(s, a).pc) && Effort(OnCall(s, a).pc) < Effort(s.pc)
  {
    match s.pc
    case Adding(c) => AddingProgresses(s.w, c, a);
    case Seeding(c, step) => SeedingProgresses(s.w, c, step, a);
    case Placing(c, step) => PlacingProgresses(s.w, c, step, a);
    case Informing(c, step) => InformingProgresses(s.w, c, step, a);
    case Aligning(c, step) => AligningProgresses(s.w, c, step, a);
    case Closing(c, step) => ClosingProgresses(s.w, c, step, a);
    case Deleting(c, step) => DeletingProgresses(s.w, c, step, a);
  }

  predicate Progresses(s: State, t: State) {
    InFlight(t.pc) && Effort(t.pc) < Effort(s.pc)
  }

  lemma AddingProgresses(w: World, c: Object, a: Answer)
    ensures Progresses(State(w, Adding(c)), OnAddFinalizer(w, c, a))
  {
    var w' := Write(w, Update(w, c), a.fault).0;
    if w'.request.Some? {
      ProceedAhead(w', Decoded(c, w'.request.value, a.keep));
    }
  }

  lemma ProceedAhead(w: World, c: Object)
    ensures InFlight(Proceed(w, c).pc) && Effort(Proceed(w, c).pc) < LONGEST
  {
  }

  lemma AligningProgresses(w: World, c: Object, step: AlignStep, a: Answer)
    ensures Progresses(State(w, Aligning(c, step)), OnAligning(w, c, step, a))
  {
  }

  lemma ClosingProgresses(w: World, c: Object, step: CloseStep, a: Answer)
    ensures Progresses(State(w, Closing(c, step)), OnClosing(w, c, step, a))
  {
  }

  lemma SeedingProgresses(w: World, c: Object, step: SeedStep, a: Answer)
    requires InFlight(Seeding(c, step))
    ensures Progresses(State(w, Seeding(c, step)), OnSeeding(w, c, step, a))
  {
    if step.RecordSeed? {
      SqlDecreases(w, c.spec.typ, step.conn, step.op, a.fault);
    }
  }

  lemma PlacingProgresses(w: World, c: Object, step: PlaceStep, a: Answer)
    requires InFlight(Placing(c, step))
    ensures Progresses(State(w, Placing(c, step)), OnPlacing(w, c, step, a))
  {
    if step.RunCreate? {
      SqlDecreases(w, c.spec.typ, step.conn, step.op, a.fault);
    }
  }

  lemma InformingProgresses(w: World, c: Object, step: InfoStep, a: Answer)
    requires InFlight(Informing(c, step))
    ensures Progresses(State(w, Informing(c, step)), OnInforming(w, c, step, a))
  {
  }

  lemma DeletingProgresses(w: World, c: Object, step: DeleteStep, a: Answer)
    requires InFlight(Deleting(c, step))
    ensures Progresses(State(w, Deleting(c, step)), OnDeleting(w, c, step, a))
  {
    if step.RunDrop? {
      SqlDecreases(w, c.spec.typ, step.conn, step.op, a.fault);
    }
  }

  const LONGEST: nat := 41

  lemma {:induction false} PassEnds(s: State, answers: seq<Answer>)
    requires InFlight(s.pc) && !s.pc.Reading? && |answers| >= Effort(s.pc)
    ensures Calls(s, answers).pc.Idle?
    decreases |answers|
  {
    if s.pc.Idle? {
      IdleStays(s, answers);
    } else {
      PassProgresses(s, answers[0]);
      NeverReads(s, answers[0]);
      PassEnds(OnCall(s, answers[0]), answers[1..]);
    }
  }

  lemma NeverReads(s: State, a: Answer)
    requires !s.pc.Reading?
    ensures !OnCall(s, a).pc.Reading?
  {
  }

  lemma {:induction false} IdleStays(s: State, answers: seq<Answer>)
    requires s.pc.Idle?
    ensures Calls(s, answers) == s
    decreases |answers|
  {
    if answers == [] {
    } else {
      IdleStays(s, answers[1..]);
    }
  }

  /** When a fault-free delete pass completes */

  // The connection a drop needs: resolvable, with a password and a server behind it.
  predicate DropServer(w: World, spec: Spec, conn: Connection) {
    && Relational(spec.typ) && Referred(w, spec) == Some(conn)
    && HasPassword(w, conn) && ServerFor(w, spec.typ, conn).Some?
  }

  // The drop itself is not refused: the row is there or can be inserted, and no other database is in
  // the way.
  predicate ServerDrops(s: Server, key: Key, drawn: Info) {
    Completes(s, key, Drop, FirstRow(s, key, [], drawn))
  }

  ghost predicate Deletable(w: World, spec: Spec, drawn: Info) {
    || spec.seed.Some? || !spec.dropOnDelete || spec.typ.MongoDbType?
    || exists conn :: DropServer(w, spec, conn) && ServerDrops(ServerFor(w, spec.typ, conn).value, w.key, drawn)
  }

  // A stored request that is being deleted.
  predicate Condemned(w: World, c: Object) {
    w.request == Some(c) && c.deleting && c.finalizer
  }

  // From the Service on nothing can refuse.
  lemma {:induction false} CleanUp(w: World, c: Object, dropped: Option<Dropped>, answers: seq<Answer>, drawn: Info)
    requires w.request.Some? && w.request.value.deleting && w.request.value.finalizer
    requires w.request.value.rv == c.rv && c.finalizer
    requires AllOk(answers, drawn) && |answers| >= 3
    ensures Calls(State(w, Deleting(c, DelService(dropped))), answers).w.request.None?
  {
    var s := State(w, Deleting(c, DelService(dropped)));
    var s1 := OnCall(s, answers[0]);
    var s2 := OnCall(s1, answers[1]);
    var s3 := OnCall(s2, answers[2]);
    assert s1.pc == Deleting(c, DelSecret(dropped));
    assert s2.pc == Deleting(c.(finalizer := false), DelFinalizer(dropped));
    Three(s, answers);
    IdleStays(s3, answers[3..]);
  }

  lemma {:induction false} Three(s: State, answers: seq<Answer>)
    requires |answers| >= 3
    ensures Calls(s, answers) == Calls(OnCall(OnCall(OnCall(s, answers[0]), answers[1]), answers[2]), answers[3..])
  {
    assert answers[1..][1..] == answers[2..] && answers[2..][1..] == answers[3..];
    assert Calls(s, answers) == Calls(OnCall(s, answers[0]), answers[1..]);
    assert Calls(OnCall(s, answers[0]), answers[1..])
        == Calls(OnCall(OnCall(s, answers[0]), answers[1]), answers[2..]);
  }

  // An error only writes the status.
  lemma {:induction false} GivesUp(w: World, c: Object, answers: seq<Answer>)
    requires w.request.Some?
    ensures Calls(State(w, Closing(c, WriteError)), answers).w.request.Some?
  {
    if answers == [] {
    } else {
      IdleStays(OnCall(State(w, Closing(c, WriteError)), answers[0]), answers[1..]);
    }
  }

  // The statements of the drop, then the rest.
  lemma {:induction false} DropThrough(
    w: World, c: Object, p: Provider, conn: Connection, op: Op, answers: seq<Answer>, drawn: Info)
    requires Condemned(w, c) && c.spec.ref.Some? && ServerFor(w, c.spec.typ, conn).Some? && !Ended(op)
    requires AllOk(answers, drawn) && |answers| >= Statements(op) + 4
    ensures Calls(State(w, Deleting(c, RunDrop(p, conn, op))), answers).w.request.None?
        <==> Attempt(ServerFor(w, c.spec.typ, conn).value, op, Statements(op)).1.pc.Done?
    decreases |answers|
  {
    var s := ServerFor(w, c.spec.typ, conn).value;
    var (s', op') := Step(s, op);
    StatementsDecrease(s, op);
    var w' := w.(servers := w.servers[AddrOf(conn) := s']);
    var next := OnCall(State(w, Deleting(c, RunDrop(p, conn, op))), answers[0]);
    assert answers[0] in answers;
    assert Attempt(s, op, Statements(op)) == Attempt(s', op', Statements(op) - 1);
    if op'.pc.Failed? {
      assert next == Fail(w', c, DropFailed);
      GivesUp(w', SetError(c, DropFailed), answers[1..]);
    } else if op'.pc.Done? {
      DropSaved(w', c, Dropped(c.spec.ref.value, p, conn), answers[1..], drawn);
    } else {
      assert ServerFor(w', c.spec.typ, conn) == Some(s');
      DropThrough(w', c, p, conn, op', answers[1..], drawn);
      MoreChangesNothing(s', op', Statements(op'), Statements(op) - 1);
    }
  }

  lemma {:induction false} DropSaved(w: World, c: Object, done: Dropped, answers: seq<Answer>, drawn: Info)
    requires Condemned(w, c) && AllOk(answers, drawn) && |answers| >= 4
    ensures Calls(State(w, Deleting(c.(status := c.status.(observedRef := None)), SaveDrop(done))), answers)
              .w.request.None?
  {
    var s := State(w, Deleting(c.(status := c.status.(observedRef := None)), SaveDrop(done)));
    assert answers[0] in answers;
    var s1 := OnCall(s, answers[0]);
    CleanUp(s1.w, s1.pc.c, Some(done), answers[1..], drawn);
  }

  lemma {:induction false} MoreChangesNothing(s: Server, op: Op, b: nat, b': nat)
    requires Statements(op) <= b <= b'
    ensures Attempt(s, op, b) == Attempt(s, op, b') && Ended(Attempt(s, op, b).1)
    decreases b
  {
    if Ended(op) {
    } else {
      StatementsDecrease(s, op);
      var (s', op') := Step(s, op);
      MoreChangesNothing(s', op', b - 1, b' - 1);
    }
  }

  // Reads of the provider and the password, then the drop.
  lemma {:induction false} DropPass(w: World, c: Object, conn: Connection, answers: seq<Answer>, drawn: Info)
    requires Condemned(w, c) && NeedsDrop(c.spec) && DropServer(w, c.spec, conn)
    requires AllOk(answers, drawn) && |answers| >= 13
    ensures Calls(State(w, Deleting(c, ReadDropProvider)), answers).w.request.None?
        <==> ServerDrops(ServerFor(w, c.spec.typ, conn).value, w.key, drawn)
  {
    var p := GetProvider(w.providers, c.spec.ref.value.provider).value;
    var s := ServerFor(w, c.spec.typ, conn).value;
    var op := Start(s.engine, Drop, w.key, drawn);
    assert answers[0] in answers && answers[1] in answers && answers[1..][0] == answers[1];
    var s0 := State(w, Deleting(c, ReadDropProvider));
    var s1 := OnCall(s0, answers[0]);
    assert s1 == State(w, Deleting(c, ReadDropPassword(p, conn)));
    var s2 := OnCall(s1, answers[1]);
    assert s2 == State(w, Deleting(c, RunDrop(p, conn, op)));
    assert answers[1..][1..] == answers[2..];
    assert Calls(s0, answers) == Calls(s1, answers[1..]) == Calls(s2, answers[2..]);
    DropThrough(w, c, p, conn, op, answers[2..], drawn);
    MoreChangesNothing(s, op, Statements(op), FULL);
    FullAttempt(s, w.key, Drop, drawn);
  }

  // Without such a connection the pass fails before any statement.
  lemma {:induction false} NoDropServer(w: World, c: Object, answers: seq<Answer>, drawn: Info)
    requires Condemned(w, c) && NeedsDrop(c.spec) && !exists conn :: DropServer(w, c.spec, conn)
    requires AllOk(answers, drawn) && |answers| >= 4
    ensures Calls(StartDelete(w, c), answers).w.request.Some?
  {
    if c.spec.ref.None? {
      GivesUp(w, SetError(c, DropFailed), answers);
    } else {
      var s0 := State(w, Deleting(c, ReadDropProvider));
      var s1 := OnCall(s0, answers[0]);
      var s2 := OnCall(s1, answers[1]);
      var s3 := OnCall(s2, answers[2]);
      Three(s0, answers);
      UnresolvedFails(w, c, answers, drawn);
      IdleOrGivesUp(s3, answers[3..]);
    }
  }

  predicate GaveUp(s: State) {
    s.w.request.Some? && (s.pc.Idle? || (s.pc.Closing? && s.pc.close.WriteError?))
  }

  lemma IdleOrGivesUp(s: State, answers: seq<Answer>)
    requires GaveUp(s)
    ensures Calls(s, answers).w.request.Some?
  {
    if s.pc.Idle? {
      IdleStays(s, answers);
    } else {
      GivesUp(s.w, s.pc.c, answers);
    }
  }

  lemma UnresolvedFails(w: World, c: Object, answers: seq<Answer>, drawn: Info)
    requires Condemned(w, c) && NeedsDrop(c.spec) && c.spec.ref.Some?
    requires !exists conn :: DropServer(w, c.spec, conn)
    requires AllOk(answers, drawn) && |answers| >= 3
    ensures GaveUp(OnCall(OnCall(OnCall(State(w, Deleting(c, ReadDropProvider)), answers[0]), answers[1]), answers[2]))
  {
    var s1 := OnCall(State(w, Deleting(c, ReadDropProvider)), answers[0]);
    assert answers[0] in answers && answers[1] in answers;
    var p := GetProvider(w.providers, c.spec.ref.value.provider);
    if p.Some? && FindConnection(p.value.connections, c.spec.ref.value.connection).Some? {
      var conn := FindConnection(p.value.connections, c.spec.ref.value.connection).value;
      assert !DropServer(w, c.spec, conn);
      assert s1 == State(w, Deleting(c, ReadDropPassword(p.value, conn)));
      if HasPassword(w, conn) {
        assert ServerFor(w, c.spec.typ, conn).None?;
      }
    } else {
      assert s1 == Fail(w, c, DropFailed);
    }
  }

  lemma DeletableIff(w: World, spec: Spec, drawn: Info)
    requires ServersOk(w) && DistinctProviders(w.providers)
    ensures Deletable(w, spec, drawn) <==>
      || spec.seed.Some? || !spec.dropOnDelete || spec.typ.MongoDbType?
      || (OfSql(spec.typ) && CanDrop(w, spec, drawn))
  {
    if conn :| DropServer(w, spec, conn) && ServerDrops(ServerFor(w, spec.typ, conn).value, w.key, drawn) {
      RefersIff(w, spec, conn);
      TakesDropIff(At(w, conn), w.key, drawn);
      var p :| Refers(w, spec, p, conn);
      assert Usable(w, spec.typ, conn) && TakesDrop(At(w, conn), w.key, drawn);
    }
    if OfSql(spec.typ) && CanDrop(w, spec, drawn) {
      var p, conn :|
        Refers(w, spec, p, conn) && Usable(w, spec.typ, conn) && TakesDrop(At(w, conn), w.key, drawn);
      RefersIff(w, spec, conn);
      TakesDropIff(At(w, conn), w.key, drawn);
      assert DropServer(w, spec, conn);
    }
  }

  // A fault-free pass over a request that is being deleted completes, and the request goes, exactly under
  // this condition, which only concerns what is stored before the pass.
  lemma {:induction false} DeletesIff(w: World, c: Object, answers: seq<Answer>, drawn: Info)
    requires Condemned(w, c) && AllOk(answers, drawn) && |answers| >= 13
    ensures Calls(AfterRead(w, c), answers).w.request.None? <==> Deletable(w, c.spec, drawn)
    ensures ServersOk(w) && DistinctProviders(w.providers) ==>
      (Deletable(w, c.spec, drawn) <==>
         || c.spec.seed.Some? || !c.spec.dropOnDelete || c.spec.typ.MongoDbType?
         || (OfSql(c.spec.typ) && CanDrop(w, c.spec, drawn)))
  {
    if ServersOk(w) && DistinctProviders(w.providers) {
      DeletableIff(w, c.spec, drawn);
    }
    if NeedsDrop(c.spec) {
      if conn :| DropServer(w, c.spec, conn) {
        DropPass(w, c, conn, answers, drawn);
      } else {
        NoDropServer(w, c, answers, drawn);
      }
    } else if c.spec.seed.None? && c.spec.dropOnDelete && c.spec.typ.MariaDbType? {
      GivesUp(w, SetError(c, InvalidType), answers);
    } else {
      CleanUp(w, c, None, answers, drawn);
    }
  }

  /** Passes cut anywhere */

  // The databases that make PostgreSQL refuse to drop the user.
  function Blockers(s: Server, i: Info): set<string> {
    if s.engine.MySql? then {} else set d | d in s.dbs && d != i.dbname && s.dbs[d] == i.username
  }

  lemma DroppableIff(s: Server, i: Info)
    ensures Droppable(s, i) <==> Blockers(s, i) == {}
  {
    if !Droppable(s, i) {
      var d :| d in s.dbs && d != i.dbname && s.dbs[d] == i.username;
      assert d in Blockers(s, i);
    } else if s.engine.Postgres? {
      assert forall d :: d !in Blockers(s, i);
    }
  }

  // i is the request's row, or could become it.
  predicate RowOrRoom(s: Server, key: Key, i: Info) {
    match Lookup(s.rows, key)
    case Some(row) => row == i
    case None => !Clashes(s.rows, Row(key, i))
  }

  // What drop attempts of the request and any statements of others may have done to a server. Nothing new stands in
  // the way of a drop; if it was the request alone, nothing has been taken out of the way either, and at most its
  // row has been inserted.
  ghost predicate Tampered(key: Key, alone: bool, s: Server, s': Server) {
    && s'.engine == s.engine && Unique(s.rows) && Unique(s'.rows) && s.rows <= s'.rows
    && (forall i :: RowOrRoom(s', key, i) ==> Blockers(s', i) <= Blockers(s, i))
    && (alone ==>
          && (forall i :: RowOrRoom(s', key, i) ==> Blockers(s', i) == Blockers(s, i))
          && (Lookup(s'.rows, key).None? ==> s'.rows == s.rows))
  }

  // Room later is room earlier.
  lemma RoomBefore(key: Key, s: Server, s': Server, i: Info)
    requires Unique(s'.rows) && s.rows <= s'.rows && RowOrRoom(s', key, i)
    ensures RowOrRoom(s, key, i)
  {
    match Lookup(s.rows, key)
    case Some(row) =>
      assert Row(key, row) in s'.rows;
      LookupIs(s'.rows, key, row);
    case None =>
  }

  lemma TamperedTwice(key: Key, alone: bool, s: Server, s': Server, s'': Server)
    requires Tampered(key, alone, s, s') && Tampered(key, alone, s', s'')
    ensures Tampered(key, alone, s, s'')
  {
    forall i | RowOrRoom(s'', key, i)
      ensures Blockers(s'', i) <= Blockers(s, i) && (alone ==> Blockers(s'', i) == Blockers(s, i))
    {
      RoomBefore(key, s', s'', i);
    }
  }

  lemma DropTampers(s: Server, op: Op)
    requires Unique(s.rows) && OpOk(s, op) && op.task.Drop?
    ensures Tampered(op.key, true, s, Step(s, op).0)
  {
    var s' := Step(s, op).0;
    OwnStep(s, op);
    forall i | RowOrRoom(s', op.key, i) ensures Blockers(s', i) == Blockers(s, i) {
    }
  }

  // Another request's statement creates databases for its own user alone.
  lemma OtherTampers(s: Server, op: Op, key: Key)
    requires Unique(s.rows) && OpOk(s, op) && op.key != key
    ensures Tampered(key, false, s, Step(s, op).0)
  {
    var s' := Step(s, op).0;
    OwnStep(s, op);
    forall i | RowOrRoom(s', key, i) ensures Blockers(s', i) <= Blockers(s, i) {
      if op.pc.CreateOwned? && s.engine.Postgres? {
        assert Row(op.key, op.info) in s'.rows;
        NotTheOwner(s', key, i, Row(op.key, op.info));
      }
    }
  }

  lemma NotTheOwner(s: Server, key: Key, i: Info, other: Row)
    requires Unique(s.rows) && RowOrRoom(s, key, i) && other in s.rows && other.key != key
    ensures other.info.username != i.username
  {
    var k :| 0 <= k < |s.rows| && s.rows[k] == other;
    if Lookup(s.rows, key).Some? {
      RowsApart(s.rows, other.key, key);
      LookupIs(s.rows, other.key, other.info);
    } else {
      assert !Conflict(s.rows[k], Row(key, i));
    }
  }

  // The draw that counts: the row if it is there by now, else the next pass's.
  function EffectiveAt(s: Server, key: Key, drawn: Info): Info {
    match Lookup(s.rows, key) case None => drawn case Some(i) => i
  }

  function Effective(w: World, spec: Spec, drawn: Info): Info {
    match Referred(w, spec)
    case None => drawn
    case Some(conn) =>
      match ServerFor(w, spec.typ, conn)
      case None => drawn
      case Some(s) => EffectiveAt(s, w.key, drawn)
  }

  lemma ServerDropsIff(s: Server, key: Key, drawn: Info)
    ensures ServerDrops(s, key, drawn)
        <==> RowOrRoom(s, key, EffectiveAt(s, key, drawn)) && Blockers(s, EffectiveAt(s, key, drawn)) == {}
  {
    DroppableIff(s, EffectiveAt(s, key, drawn));
  }

  lemma TamperedDrops(key: Key, alone: bool, s: Server, s': Server, drawn: Info)
    requires Tampered(key, alone, s, s')
    ensures var e := EffectiveAt(s', key, drawn);
      && (ServerDrops(s', key, drawn) ==>
            ServerDrops(s, key, e) || (!alone && Blockers(s', e) < Blockers(s, e)))
      && (ServerDrops(s, key, e) && RowOrRoom(s', key, e) ==> ServerDrops(s', key, drawn))
      && (alone && ServerDrops(s, key, e) ==> ServerDrops(s', key, drawn))
  {
    var e := EffectiveAt(s', key, drawn);
    ServerDropsIff(s', key, drawn);
    ServerDropsIff(s, key, e);
    if RowOrRoom(s', key, e) {
      RoomBefore(key, s, s', e);
      assert EffectiveAt(s, key, e) == e;
    }
  }

  // What a run of the controller, alone or among others, may have changed since w, as far as the deletion is
  // concerned.
  ghost predicate Since(w: World, alone: bool, w': World) {
    && w'.key == w.key && w'.providers == w.providers && w'.servers.Keys == w.servers.Keys
    && (forall r :: r != OwnSecret(w.key) && r in w.secrets ==> r in w'.secrets && w'.secrets[r] == w.secrets[r])
    && (forall r :: r != OwnSecret(w.key) && r in w'.secrets ==> r in w.secrets)
    && (forall a :: a in w.servers ==> Tampered(w.key, alone, w.servers[a], w'.servers[a]))
    && (w'.request.Some? ==>
          && w.request.Some? && w'.request.value.spec == w.request.value.spec
          && w'.request.value.deleting && w'.request.value.finalizer)
  }

  predicate AtDeletion(pc: Pc) {
    pc.Idle? || pc.Reading? || pc.Deleting? || (pc.Closing? && pc.close.WriteError?)
  }

  lemma SinceTwice(w: World, alone: bool, w': World, w'': World)
    requires Since(w, alone, w') && Since(w', alone, w'')
    ensures Since(w, alone, w'')
  {
    forall a | a in w.servers ensures Tampered(w.key, alone, w.servers[a], w''.servers[a]) {
      TamperedTwice(w.key, alone, w.servers[a], w'.servers[a], w''.servers[a]);
    }
  }

  predicate Condemning(w: World) {
    w.request.Some? ==> w.request.value.deleting && w.request.value.finalizer
  }

  lemma SinceItself(w: World, alone: bool)
    requires ServersOk(w) && Condemning(w)
    ensures Since(w, alone, w)
  {
  }

  lemma AloneOrNot(w: World, w': World)
    requires Since(w, true, w')
    ensures Since(w, false, w')
  {
    forall a | a in w.servers ensures Tampered(w.key, false, w.servers[a], w'.servers[a]) {
      assert Tampered(w.key, true, w.servers[a], w'.servers[a]);
    }
  }

  lemma DropSince(w: World, c: Object, p: Provider, conn: Connection, op: Op, a: Answer)
    requires WorldOk(w) && DelOk(w, c, RunDrop(p, conn, op)) && Condemning(w)
    ensures Since(w, true, OnDrop(w, c, p, conn, op, a).w) && AtDeletion(OnDrop(w, c, p, conn, op, a).pc)
  {
    SqlSince(w, c, conn, op, a.fault);
    DropIsSql(w, c, p, conn, op, a);
  }

  lemma SqlSince(w: World, c: Object, conn: Connection, op: Op, fault: Fault)
    requires ServersOk(w) && OpAt(w, c, conn, op) && op.task.Drop? && Condemning(w)
    ensures Since(w, true, Sql(w, c.spec.typ, conn, op, fault).0)
  {
    var s := ServerFor(w, c.spec.typ, conn);
    SinceItself(w, true);
    if s.Some? && !fault.Refused? {
      DropTampers(s.value, op);
      ServerSince(w, AddrOf(conn), Step(s.value, op).0);
    }
  }

  lemma ServerSince(w: World, a: Addr, s: Server)
    requires ServersOk(w) && Condemning(w) && a in w.servers && Tampered(w.key, true, w.servers[a], s)
    ensures Since(w, true, w.(servers := w.servers[a := s]))
  {
    SinceItself(w, true);
  }

  lemma DropIsSql(w: World, c: Object, p: Provider, conn: Connection, op: Op, a: Answer)
    ensures OnDrop(w, c, p, conn, op, a).w == Sql(w, c.spec.typ, conn, op, a.fault).0
    ensures AtDeletion(OnDrop(w, c, p, conn, op, a).pc)
  {
  }

  lemma ReadsSince(w: World, c: Object, step: DeleteStep, a: Answer)
    requires step.ReadDropProvider? || step.ReadDropPassword?
    ensures OnDeleting(w, c, step, a).w == w && AtDeletion(OnDeleting(w, c, step, a).pc)
  {
  }

  lemma SameServersSince(w: World, w': World)
    requires ServersOk(w) && Condemning(w)
    requires w' == w.(services := w'.services, secrets := w'.secrets, log := w'.log, history := w'.history,
                      request := w'.request, versions := w'.versions, clock := w'.clock)
    requires w'.secrets == w.secrets || w'.secrets == w.secrets - {OwnSecret(w.key)}
    requires w'.request == w.request || w'.request.None?
    ensures Since(w, true, w')
  {
  }

  lemma ServiceSince(w: World, c: Object, dropped: Option<Dropped>, a: Answer)
    requires ServersOk(w) && Condemning(w)
    ensures Since(w, true, OnDeleteService(w, c, dropped, a).w) && AtDeletion(OnDeleteService(w, c, dropped, a).pc)
  {
    SameServersSince(w, OnDeleteService(w, c, dropped, a).w);
  }

  lemma SecretSince(w: World, c: Object, dropped: Option<Dropped>, a: Answer)
    requires ServersOk(w) && Condemning(w)
    ensures Since(w, true, OnDeleteSecret(w, c, dropped, a).w) && AtDeletion(OnDeleteSecret(w, c, dropped, a).pc)
  {
    SameServersSince(w, OnDeleteSecret(w, c, dropped, a).w);
  }

  lemma RemovalSince(w: World, c: Object, dropped: Option<Dropped>, a: Answer)
    requires DelOk(w, c, DelFinalizer(dropped)) && ServersOk(w) && Condemning(w)
    ensures Since(w, true, OnRemoveFinalizer(w, c, dropped, a).w) && AtDeletion(OnRemoveFinalizer(w, c, dropped, a).pc)
  {
    RemovalForgets(w, c, dropped, a);
    SameServersSince(w, OnRemoveFinalizer(w, c, dropped, a).w);
  }

  lemma RemovalForgets(w: World, c: Object, dropped: Option<Dropped>, a: Answer)
    requires DelOk(w, c, DelFinalizer(dropped))
    ensures var s := OnRemoveFinalizer(w, c, dropped, a);
      && s.w == w.(request := s.w.request, history := s.w.history) && (s.w.request == w.request || s.w.request.None?)
      && AtDeletion(s.pc)
  {
  }

  lemma StatusSince(w: World, c: Object, fault: Fault)
    requires ServersOk(w) && Condemning(w)
    ensures Since(w, true, Write(w, UpdateStatusOf(w, c), fault).0)
  {
  }

  lemma DeletingSince(w: World, c: Object, step: DeleteStep, a: Answer)
    requires WorldOk(w) && DelOk(w, c, step) && Condemning(w)
    ensures Since(w, true, OnDeleting(w, c, step, a).w) && AtDeletion(OnDeleting(w, c, step, a).pc)
  {
    match step
    case RunDrop(p, conn, op) => DropSince(w, c, p, conn, op, a);
    case SaveDrop(done) => StatusSince(w, c, a.fault);
    case DelFinalizer(dropped) => RemovalSince(w, c, dropped, a);
    case DelService(dropped) => ServiceSince(w, c, dropped, a);
    case DelSecret(dropped) => SecretSince(w, c, dropped, a);
    case _ => ReadsSince(w, c, step, a);
  }

  lemma NextSince(s: State, a: Action)
    requires Inv(s) && AtDeletion(s.pc) && Condemning(s.w) && !a.Env?
    requires a.Read? ==> s.w.request.Some? && s.w.request.value.rv == a.version
    ensures Since(s.w, true, Next(s, a).w) && AtDeletion(Next(s, a).pc)
  {
    match a
    case Begin => SinceItself(s.w, true);
    case Read(n) => ReadSince(s, n);
    case ReadFails => SinceItself(s.w, true);
    case Call(answer) => CallSince(s, answer);
    case Restart => SinceItself(s.w, true);
  }

  lemma CallSince(s: State, a: Answer)
    requires Inv(s) && AtDeletion(s.pc) && Condemning(s.w)
    ensures Since(s.w, true, OnCall(s, a).w) && AtDeletion(OnCall(s, a).pc)
  {
    match s.pc
    case Deleting(c, step) => DeletingSince(s.w, c, step, a);
    case Closing(c, step) => StatusSince(s.w, c, a.fault);
    case _ => SinceItself(s.w, true);
  }

  lemma ReadSince(s: State, n: nat)
    requires Inv(s) && s.w.request.Some? && s.w.request.value.rv == n && s.w.request.value.deleting && AtDeletion(s.pc)
    ensures Since(s.w, true, Next(s, Read(n)).w) && AtDeletion(Next(s, Read(n)).pc)
  {
    StoredObjectOk(s.w);
    SinceItself(s.w, true);
    ReadChangesNothing(s.w, s.w.request.value);
  }

  // What other requests' workers do: statements on the shared servers, and Services.
  predicate OfOthers(e: Outside) {
    e.OtherRequest? || e.PutService? || e.RemoveService?
  }

  lemma OthersSince(w: World, e: Outside)
    requires ServersOk(w) && Condemning(w) && OfOthers(e)
    ensures Since(w, false, Happen(w, e))
  {
    SinceItself(w, false);
    if e.OtherRequest? && Allowed(w, e) {
      OtherTampers(w.servers[e.addr], e.op, w.key);
    }
  }

  predicate NoOutside(actions: seq<Action>) {
    forall a :: a in actions ==> !a.Env?
  }

  predicate AmongOthers(actions: seq<Action>) {
    forall a :: a in actions ==> a.Env? ==> OfOthers(a.e)
  }

  lemma StepSince(s: State, a: Action, alone: bool)
    requires Inv(s) && AtDeletion(s.pc) && Condemning(s.w) && (a.Env? ==> !alone && OfOthers(a.e))
    requires a.Read? ==> s.w.request.Some? && s.w.request.value.rv == a.version
    ensures Since(s.w, alone, Next(s, a).w) && AtDeletion(Next(s, a).pc)
  {
    if a.Env? {
      OthersSince(s.w, a.e);
    } else {
      NextSince(s, a);
      AloneOrNot(s.w, Next(s, a).w);
    }
  }

  // Any number of passes, cut at any call, with any faults and restarts, and the work of others in between.
  lemma {:induction false} RunSince(s: State, actions: seq<Action>, alone: bool)
    requires Inv(s) && AtDeletion(s.pc) && Condemning(s.w) && CurrentReads(s, actions)
    requires if alone then NoOutside(actions) else AmongOthers(actions)
    ensures Since(s.w, alone, Run(s, actions).w)
    decreases |actions|
  {
    if actions == [] {
      SinceItself(s.w, alone);
    } else {
      var s' := Next(s, actions[0]);
      assert actions[0] in actions;
      NextOk(s, actions[0]);
      StepSince(s, actions[0], alone);
      RunSince(s', actions[1..], alone);
      SinceTwice(s.w, alone, s'.w, Run(s, actions).w);
    }
  }

  lemma SinceSameServer(w: World, alone: bool, w': World, spec: Spec, conn: Connection)
    requires Since(w, alone, w') && conn.passwordSecretRef != OwnSecret(w.key)
    ensures DropServer(w', spec, conn) <==> DropServer(w, spec, conn)
  {
  }

  // Another request's drop has removed a database that stood in the way.
  ghost predicate Unblocked(w: World, w': World, spec: Spec, i: Info) {
    exists conn :: DropServer(w, spec, conn) && DropServer(w', spec, conn)
      && Blockers(ServerFor(w', spec.typ, conn).value, i) < Blockers(ServerFor(w, spec.typ, conn).value, i)
  }

  // The row is there or the draw is still free.
  predicate Room(w: World, spec: Spec, drawn: Info) {
    match Referred(w, spec)
    case None => true
    case Some(conn) =>
      match ServerFor(w, spec.typ, conn)
      case None => true
      case Some(s) => RowOrRoom(s, w.key, EffectiveAt(s, w.key, drawn))
  }

  predicate PasswordElsewhere(w: World, spec: Spec) {
    Referred(w, spec).Some? ==> Referred(w, spec).value.passwordSecretRef != OwnSecret(w.key)
  }

  lemma SinceDeletable(w: World, alone: bool, w': World, spec: Spec, drawn: Info)
    requires Since(w, alone, w') && PasswordElsewhere(w, spec)
    ensures var e := Effective(w', spec, drawn);
      && (Deletable(w', spec, drawn) ==> Deletable(w, spec, e) || (!alone && Unblocked(w, w', spec, e)))
      && (Deletable(w, spec, e) && (alone || Room(w', spec, drawn)) ==> Deletable(w', spec, drawn))
  {
    assert forall conn :: DropServer(w, spec, conn) || DropServer(w', spec, conn) ==> Referred(w, spec) == Some(conn);
    if Referred(w, spec).Some? {
      var conn := Referred(w, spec).value;
      SinceSameServer(w, alone, w', spec, conn);
      if DropServer(w, spec, conn) {
        TamperedDrops(w.key, alone, ServerFor(w, spec.typ, conn).value, ServerFor(w', spec.typ, conn).value, drawn);
      }
    }
  }

  // Retry safety: whatever passes a request being deleted has been through, cut at whichever calls,
  // a fault-free pass completes exactly when it would have at the start, with the row that by then exists (or
  // will be drawn) as its draw. The one thing asked of the configuration: the connection's
  // password is not kept in the Secret that the passes delete.
  lemma RetrySafe(s: State, actions: seq<Action>, answers: seq<Answer>, drawn: Info)
    requires Inv(s) && s.pc.Idle? && s.w.request.Some? && s.w.request.value.deleting
    requires NoOutside(actions) && CurrentReads(s, actions) && Run(s, actions).w.request.Some?
    requires AllOk(answers, drawn) && |answers| >= 13 && PasswordElsewhere(s.w, s.w.request.value.spec)
    ensures var t := Run(s, actions).w; var spec := s.w.request.value.spec;
      && t.request.value.spec == spec
      && (Calls(AfterRead(t, t.request.value), answers).w.request.None?
          <==> Deletable(s.w, spec, Effective(t, spec, drawn)))
  {
    StoredObjectOk(s.w);
    RunSince(s, actions, true);
    var t := Run(s, actions).w;
    DeletesIff(t, t.request.value, answers, drawn);
    SinceDeletable(s.w, true, t, s.w.request.value.spec, drawn);
  }

  // And among others: what they do never makes a deletion that would have completed fail, unless the draw for a missing
  // row has been taken; nor one that would have failed complete, unless they have dropped the database that stood
  // in the way.
  lemma RetrySafeAmongOthers(s: State, actions: seq<Action>, answers: seq<Answer>, drawn: Info)
    requires Inv(s) && s.pc.Idle? && s.w.request.Some? && s.w.request.value.deleting
    requires AmongOthers(actions) && CurrentReads(s, actions) && Run(s, actions).w.request.Some?
    requires AllOk(answers, drawn) && |answers| >= 13 && PasswordElsewhere(s.w, s.w.request.value.spec)
    ensures var t := Run(s, actions).w; var spec := s.w.request.value.spec; var e := Effective(t, spec, drawn);
      var completes := Calls(AfterRead(t, t.request.value), answers).w.request.None?;
      && t.request.value.spec == spec
      && (Deletable(s.w, spec, e) && Room(t, spec, drawn) ==> completes)
      && (completes ==> Deletable(s.w, spec, e) || Unblocked(s.w, t, spec, e))
  {
    StoredObjectOk(s.w);
    RunSince(s, actions, false);
    var t := Run(s, actions).w;
    DeletesIff(t, t.request.value, answers, drawn);
    SinceDeletable(s.w, false, t, s.w.request.value.spec, drawn);
  }

  // What it is asked for: once a pass has deleted a Secret that is also the password of the connection, no
  // drop completes any more, whatever is drawn.
  lemma OwnPasswordStrands(w: World, spec: Spec, conn: Connection, drawn: Info)
    requires NeedsDrop(spec) && Referred(w, spec) == Some(conn)
    ensures var w' := w.(secrets := w.secrets - {OwnSecret(w.key)});
      Deletable(w', spec, drawn) <==> Deletable(w, spec, drawn) && conn.passwordSecretRef != OwnSecret(w.key)
  {
    var w' := w.(secrets := w.secrets - {OwnSecret(w.key)});
    assert forall other :: DropServer(w, spec, other) || DropServer(w', spec, other) ==> other == conn;
    assert DropServer(w', spec, conn) <==> DropServer(w, spec, conn) && conn.passwordSecretRef != OwnSecret(w.key);
  }
}
