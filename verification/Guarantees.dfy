// What the reconcile machine guarantees over whole runs: any order of outside moves, stale reads,
// failed and lost calls, and restarts.
module Guarantees {
  import opened Common
  import opened Registry
  import opened Placement
  import opened SecretKeys
  import opened Cluster
  import opened Reconcile
  import opened Safety
  import opened SafetySteps

  lemma Reachable(s: State, actions: seq<Action>)
    requires Init(s)
    ensures Inv(Run(s, actions))
  {
    InitInv(s);
    RunOk(s, actions);
  }

  /** Status */

  // In every version ever stored, Ready and Error exclude each other and ObservedGeneration does not run ahead.
  lemma StatusSound(s: State, actions: seq<Action>, n: nat)
    requires Init(s)
    ensures var w := Run(s, actions).w; n in w.versions ==>
      var o := w.versions[n];
      && o.status.observedGeneration <= o.generation
      && (o.status.conditions == Conditions(Unset, None)
          || (o.status.conditions.ready.Up? && o.status.conditions.error.None?)
          || (o.status.conditions.ready.Down? && o.status.conditions.error.Some?))
  {
    Reachable(s, actions);
    var w := Run(s, actions).w;
    if n in w.versions {
      assert ObjectOk(w.history, w.versions[n]);
    }
  }

  // When the last status write is skipped because SetStatusCondition reports no change, the stored conditions
  // already are those it would have written: the preceding Update has checked the version.
  lemma SkippedWriteStrandsNothing(s: State, actions: seq<Action>, a: Answer)
    requires Init(s)
    ensures var t := Run(s, actions); var t' := OnCall(t, a);
      t.pc.Closing? && t.pc.close.Finalize? && Write(t.w, Update(t.w, t.pc.c), a.fault).1
      && t'.pc.Idle? && t'.w.request.Some? ==>
        t'.w.request.value.status.conditions
          == Conditions(Up(if t.pc.close.changed then DatabaseRequestChanged else DatabaseRequestCreated), None)
  {
    Reachable(s, actions);
    var t := Run(s, actions);
    if t.pc.Closing? && t.pc.close.Finalize? && Write(t.w, Update(t.w, t.pc.c), a.fault).1 {
      SkippedWrite(t.w, t.pc.c, t.pc.close.changed, a);
    }
  }

  lemma SkippedWrite(w: World, c: Object, changed: bool, a: Answer)
    requires WorldOk(w) && CloseOk(w, c, Finalize(changed)) && Write(w, Update(w, c), a.fault).1
    ensures var t := OnFinalize(w, c, changed, a);
      t.pc.Idle? && t.w.request.Some? ==>
        t.w.request.value.status.conditions
          == Conditions(Up(if changed then DatabaseRequestChanged else DatabaseRequestCreated), None)
  {
  }

  // Whenever a stored status would make Reconcile skip, an earlier pass brought the Service and the Secret into
  // line with the spec of exactly that generation: both held what the connection the spec refers to, in a
  // provider list of that pass, and the registry row on its server call for; or, for a seed, its match there and
  // the seed's credentials, which the row holds exactly if no other row stands in the way.
  lemma SkipsOnlyWhenSynced(s: State, actions: seq<Action>, n: nat) returns (y: Sync)
    requires Init(s)
    requires var w := Run(s, actions).w;
      && n in w.versions && w.versions[n].status.conditions.ready.Up?
      && w.versions[n].status.observedGeneration >= w.versions[n].generation
    ensures var w := Run(s, actions).w; var o := w.versions[n];
      && y in w.history.synced && y.uid == o.uid && y.generation == o.generation && y.spec == o.spec
      && o.spec.ref.Some? && y.target.provider.name == o.spec.ref.value.provider
      && y.host == y.target.conn.hostname
      && y.data == GetSecretData(y.target.info, o.spec.name, o.spec.name)
      && y.target.info.port == y.target.conn.port
      && (if y.target.seeded then SeedTarget(w, y.since, o.spec, y.target) else RowTarget(w, y.since, o.spec, y.target))
  {
    Reachable(s, actions);
    var w := Run(s, actions).w;
    var o := w.versions[n];
    assert ObjectOk(w.history, o);
    y :| y in w.history.synced && y.uid == o.uid && y.generation == o.generation && y.spec == o.spec;
    assert SyncOk(w, y);
    if y.target.seeded {
      RowsHold(w, AddrOf(y.target.conn), Credentials(y.target.info));
    }
  }

  // The reference resolved to this connection, and the row on its server holds the credentials.
  ghost predicate RowTarget(w: World, since: nat, spec: Spec, t: Target)
    requires spec.ref.Some?
  {
    && ListedSince(w, since, spec.ref.value.provider, t.provider)
    && FindConnection(t.provider.connections, spec.ref.value.connection) == Some(t.conn)
    && AddrOf(t.conn) in w.servers
    && Lookup(w.servers[AddrOf(t.conn)].rows, w.key) == Some(Credentials(t.info))
  }

  // The seed was matched with this connection, which the reference names.
  ghost predicate SeedTarget(w: World, since: nat, spec: Spec, t: Target)
    requires spec.ref.Some?
  {
    && MatchedSince(w, since, Sought(spec), t.info, t.provider, t.conn)
    && t.conn in t.provider.connections && t.conn.name == spec.ref.value.connection
    && AddrOf(t.conn) in w.servers
    && var rows := w.servers[AddrOf(t.conn)].rows;
       Lookup(rows, w.key) == Some(Credentials(t.info)) <==> !Rival(rows, Row(w.key, Credentials(t.info)))
  }

  lemma RivalOrRow(rows: seq<Row>, row: Row)
    requires Unique(rows) && Clashes(rows, row)
    ensures row in rows <==> !Rival(rows, row)
  {
  }

  // Recorded credentials are the request's row exactly if no other row stands in the way.
  lemma RowsHold(w: World, a: Addr, i: Info)
    requires ServersOk(w) && RecordedOrRival(w, a, i)
    ensures var rows := w.servers[a].rows; Lookup(rows, w.key) == Some(i) <==> !Rival(rows, Row(w.key, i))
  {
    var rows := w.servers[a].rows;
    RivalOrRow(rows, Row(w.key, i));
    if Row(w.key, i) in rows {
      LookupIs(rows, w.key, i);
    }
  }

  /** What a call of the controller may do to the stored request */

  // Identity and deletion mark stay, the finalizer is not lost, a settled placement is not touched,
  // and the generation counts spec changes. The wish to keep the database does not survive an Update.
  predicate Amends(o: Object, o': Object) {
    && o'.uid == o.uid && o'.deleting == o.deleting && (o.finalizer ==> o'.finalizer)
    && (o'.spec == o.spec || o'.spec == Sent(o.spec) || Placed(Sent(o.spec), o'.spec))
    && o'.generation == (if o'.spec == o.spec then o.generation else o.generation + 1)
  }

  ghost predicate CallEffect(s: State, s': State) {
    || s'.w.request == s.w.request
    || (s.w.request.Some? && s'.w.request.Some? && Amends(s.w.request.value, s'.w.request.value))
    || (s.w.request.Some? && s'.w.request.None? && s.pc.Deleting? && s.pc.del.DelFinalizer? && Current(s.w, s.pc.c))
  }

  lemma StatusWriteAmends(w: World, c: Object, fault: Fault)
    ensures var w' := Write(w, UpdateStatusOf(w, c), fault).0;
      w'.request == w.request
      || (w.request.Some? && w'.request.Some? && Amends(w.request.value, w'.request.value))
  {
  }

  lemma DeletingEffect(w: World, c: Object, step: DeleteStep, a: Answer)
    requires WorldOk(w) && DelOk(w, c, step)
    ensures CallEffect(State(w, Deleting(c, step)), OnDeleting(w, c, step, a))
  {
    match step
    case SaveDrop(done) => StatusWriteAmends(w, c, a.fault);
    case DelFinalizer(dropped) => RemovalEffect(w, c, dropped, a);
    case RunDrop(p, conn, op) => DropKeepsRequest(w, c, p, conn, op, a);
    case _ => CleaningKeepsRequest(w, c, step, a);
  }

  lemma CleaningKeepsRequest(w: World, c: Object, step: DeleteStep, a: Answer)
    requires step.ReadDropProvider? || step.ReadDropPassword? || step.DelService? || step.DelSecret?
    ensures OnDeleting(w, c, step, a).w.request == w.request
  {
  }

  lemma DropKeepsRequest(w: World, c: Object, p: Provider, conn: Connection, op: Op, a: Answer)
    ensures OnDrop(w, c, p, conn, op, a).w.request == w.request
  {
  }

  lemma RemovalEffect(w: World, c: Object, dropped: Option<Dropped>, a: Answer)
    requires WorldOk(w) && DelOk(w, c, DelFinalizer(dropped))
    ensures CallEffect(State(w, Deleting(c, DelFinalizer(dropped))), OnRemoveFinalizer(w, c, dropped, a))
  {
    if Update(w, c).Success? {
      UpdateOk(w, c);
    }
  }

  lemma ClosingEffect(w: World, c: Object, step: CloseStep, a: Answer)
    requires WorldOk(w) && CloseOk(w, c, step)
    ensures CallEffect(State(w, Closing(c, step)), OnClosing(w, c, step, a))
  {
    match step
    case Finalize(changed) => FinalizeEffect(w, c, changed, a);
    case WriteReady => StatusWriteAmends(w, c, a.fault);
    case WriteError => StatusWriteAmends(w, c, a.fault);
  }

  lemma FinalizeEffect(w: World, c: Object, changed: bool, a: Answer)
    requires WorldOk(w) && CloseOk(w, c, Finalize(changed))
    ensures CallEffect(State(w, Closing(c, Finalize(changed))), OnFinalize(w, c, changed, a))
  {
  }

  lemma AddingEffect(w: World, c: Object, a: Answer)
    requires WorldOk(w) && PcOk(w, Adding(c))
    ensures CallEffect(State(w, Adding(c)), OnAddFinalizer(w, c, a))
  {
    if Update(w, c).Success? {
      UpdateOk(w, c);
    }
  }

  lemma PlacingEffect(w: World, c: Object, step: PlaceStep, a: Answer)
    ensures CallEffect(State(w, Placing(c, step)), OnPlacing(w, c, step, a))
  {
    if step.SavePlacement? {
      StatusWriteAmends(w, c, a.fault);
    }
  }

  lemma SeedingEffect(w: World, c: Object, step: SeedStep, a: Answer)
    ensures OnSeeding(w, c, step, a).w.request == w.request
  {
  }

  lemma InformingEffect(w: World, c: Object, step: InfoStep, a: Answer)
    ensures OnInforming(w, c, step, a).w.request == w.request
  {
  }

  lemma AligningEffect(w: World, c: Object, step: AlignStep, a: Answer)
    ensures OnAligning(w, c, step, a).w.request == w.request
  {
  }

  lemma CallHasEffect(s: State, a: Answer)
    requires Inv(s)
    ensures CallEffect(s, OnCall(s, a))
  {
    match s.pc
    case Idle =>
    case Reading =>
    case Adding(c) => AddingEffect(s.w, c, a);
    case Seeding(c, step) => SeedingEffect(s.w, c, step, a);
    case Placing(c, step) => PlacingEffect(s.w, c, step, a);
    case Informing(c, step) => InformingEffect(s.w, c, step, a);
    case Aligning(c, step) => AligningEffect(s.w, c, step, a);
    case Closing(c, step) => ClosingEffect(s.w, c, step, a);
    case Deleting(c, step) => DeletingEffect(s.w, c, step, a);
  }

  /** Deletion */

  // Deletion safety: when a write of the controller removes the finalizer, the request is marked deleted. Its
  // Service and Secret are absent, but for what somebody else has put back since the pass deleted them.
  // Where the spec calls for a drop, the database and user its row names are gone from the server of the connection
  // that the stored reference named at some moment of the pass; names now, if the providers have not changed since;
  // and the status says that there is no connection any more.
  lemma FinalizerRemovedSafely(s: State, actions: seq<Action>, a: Answer)
    requires Init(s)
    ensures RemovesFinalizer(Run(s, actions), a) ==> SafelyRemovable(Run(s, actions).w)
  {
    Reachable(s, actions);
    if RemovesFinalizer(Run(s, actions), a) {
      RemovableHere(Run(s, actions), a);
    }
  }

  lemma RemovableHere(t: State, a: Answer)
    requires Inv(t) && RemovesFinalizer(t, a)
    ensures SafelyRemovable(t.w)
  {
    CallHasEffect(t, a);
    CleanedUp(t.w, t.pc.c, t.pc.del.dropped);
  }

  lemma CleanedUp(w: World, c: Object, dropped: Option<Dropped>)
    requires WorldOk(w) && DelOk(w, c, DelFinalizer(dropped)) && Current(w, c)
    ensures SafelyRemovable(w)
  {
    if NeedsDrop(w.request.value.spec) {
      DropMade(w, w.request.value.spec, dropped.value);
    }
  }

  lemma DropMade(w: World, spec: Spec, x: Dropped)
    requires LogOk(w) && DroppedOk(w, x) && spec.ref == Some(x.ref)
    ensures exists k :: w.log.start <= k < |w.log.lists| && GoneFrom(w, ReferredIn(w.log.lists[k], spec))
    ensures w.log.start == |w.log.lists| - 1 ==> GoneFrom(w, Referred(w, spec))
  {
    var k :| w.log.start <= k < |w.log.lists| && GetProvider(w.log.lists[k], x.ref.provider) == Some(x.provider);
    assert GoneFrom(w, ReferredIn(w.log.lists[k], spec));
  }

  // The call takes the finalizer off the stored request, or the request away with it.
  predicate RemovesFinalizer(s: State, a: Answer) {
    var s' := OnCall(s, a);
    && s.w.request.Some? && s.w.request.value.finalizer
    && (s'.w.request.None? || !s'.w.request.value.finalizer)
  }

  // On the server of that connection nothing that the request's row names exists any more.
  predicate GoneFrom(w: World, conn: Option<Connection>) {
    conn.Some? && AddrOf(conn.value) in w.servers && Gone(w.servers[AddrOf(conn.value)], w.key)
  }

  ghost predicate SafelyRemovable(w: World) {
    && w.request.Some?
    && var o := w.request.value;
       && o.deleting && Tracked(w, OwnedService(o.spec.name)) && Tracked(w, OwnedSecret)
       && (NeedsDrop(o.spec) ==>
             && o.status.observedRef.None?
             && (exists k :: w.log.start <= k < |w.log.lists| && GoneFrom(w, ReferredIn(w.log.lists[k], o.spec)))
             && (w.log.start == |w.log.lists| - 1 ==> GoneFrom(w, Referred(w, o.spec))))
  }

  // The actions of one pass, during which nobody changes the providers.
  predicate SameProviders(actions: seq<Action>) {
    forall a :: a in actions ==> !a.Begin? && (a.Env? ==> !a.e.SetProviders?)
  }

  lemma {:induction false} ListsStay(s: State, actions: seq<Action>)
    requires Inv(s) && SameProviders(actions)
    ensures var l, l' := s.w.log, Run(s, actions).w.log; l'.lists == l.lists && l'.start == l.start
    decreases |actions|
  {
    if actions == [] {
    } else {
      NextOk(s, actions[0]);
      NextLists(s, actions[0]);
      ListsStay(Next(s, actions[0]), actions[1..]);
    }
  }

  lemma NextLists(s: State, a: Action)
    requires !a.Begin? && (a.Env? ==> !a.e.SetProviders?)
    ensures var l, l' := s.w.log, Next(s, a).w.log; l'.lists == l.lists && l'.start == l.start
  {
    if a.Call? {
      CallLists(s, a.answer);
    } else if a.Read? && s.pc.Reading? && a.version in s.w.versions {
      ReadChangesNothing(s.w, s.w.versions[a.version]);
    }
  }

  function Engines(servers: map<Addr, Server>): map<Addr, Engine> {
    map a | a in servers :: servers[a].engine
  }

  // No call of the controller touches these records, or which providers and servers there are; it only deletes
  // what others have put back, and forgets no deletion of a seed.
  predicate SameLists(w: World, w': World) {
    && w'.key == w.key && w'.log.lists == w.log.lists && w'.log.start == w.log.start && w'.log.back <= w.log.back
    && w.history.seedDeletions <= w'.history.seedDeletions
    && w'.providers == w.providers && Engines(w'.servers) == Engines(w.servers)
  }

  lemma CallLists(s: State, a: Answer)
    ensures SameLists(s.w, OnCall(s, a).w)
  {
    match s.pc
    case Idle =>
    case Reading =>
    case Adding(c) => AddingLists(s.w, c, a);
    case Seeding(c, step) => SeedingLists(s.w, c, step, a);
    case Placing(c, step) => PlacingLists(s.w, c, step, a);
    case Informing(c, step) => InformingLists(s.w, c, step, a);
    case Aligning(c, step) => AligningLists(s.w, c, step, a);
    case Closing(c, step) => ClosingLists(s.w, c, step, a);
    case Deleting(c, step) => DeletingLists(s.w, c, step, a);
  }

  lemma UpdateLists(w: World, c: Object, fault: Fault)
    ensures SameLists(w, Write(w, Update(w, c), fault).0)
  {
  }

  lemma StatusLists(w: World, c: Object, fault: Fault)
    ensures SameLists(w, Write(w, UpdateStatusOf(w, c), fault).0)
  {
  }

  lemma SqlLists(w: World, typ: DbType, conn: Connection, op: Op, fault: Fault)
    ensures SameLists(w, Sql(w, typ, conn, op, fault).0)
  {
    if ServerFor(w, typ, conn).Some? {
      StepEngine(w.servers, AddrOf(conn), op);
    }
  }

  lemma StepEngine(servers: map<Addr, Server>, a: Addr, op: Op)
    requires a in servers
    ensures Engines(servers[a := Step(servers[a], op).0]) == Engines(servers)
  {
  }

  lemma AddingLists(w: World, c: Object, a: Answer)
    ensures SameLists(w, OnAddFinalizer(w, c, a).w)
  {
    UpdateLists(w, c, a.fault);
    assert OnAddFinalizer(w, c, a).w == Write(w, Update(w, c), a.fault).0;
  }

  lemma SeedingLists(w: World, c: Object, step: SeedStep, a: Answer)
    ensures SameLists(w, OnSeeding(w, c, step, a).w)
  {
    match step
    case PingSeed(data, d) => PingLists(w, c, data, d, a);
    case RecordSeed(data, d, p, conn, op) => RecordLists(w, c, data, d, p, conn, op, a);
    case DeleteSeed(data, d, p, conn) => SeedDeletionLists(w, c, data, d, p, conn, a);
    case _ =>
  }

  lemma PingLists(w: World, c: Object, data: map<string, string>, d: DbInfo, a: Answer)
    ensures SameLists(w, OnPingSeed(w, c, data, d, a).w)
  {
  }

  lemma RecordLists(
    w: World, c: Object, data: map<string, string>, d: DbInfo, p: Provider, conn: Connection, op: Op, a: Answer)
    ensures SameLists(w, OnRecordSeed(w, c, data, d, p, conn, op, a).w)
  {
    SqlLists(w, c.spec.typ, conn, op, a.fault);
  }

  lemma SeedDeletionLists(
    w: World, c: Object, data: map<string, string>, d: DbInfo, p: Provider, conn: Connection, a: Answer)
    ensures SameLists(w, OnDeleteSeed(w, c, data, d, p, conn, a).w)
  {
  }

  lemma PlacingLists(w: World, c: Object, step: PlaceStep, a: Answer)
    ensures SameLists(w, OnPlacing(w, c, step, a).w)
  {
    match step
    case SelectProvider => SelectLists(w, c, a);
    case ReadCreatePassword(_, _) =>
    case RunCreate(p, conn, op) =>
      SqlLists(w, c.spec.typ, conn, op, a.fault);
      assert OnCreate(w, c, p, conn, op, a).w == Sql(w, c.spec.typ, conn, op, a.fault).0;
    case SavePlacement(ref) => SavingLists(w, c, ref, a);
  }

  lemma SelectLists(w: World, c: Object, a: Answer)
    ensures SameLists(w, OnSelect(w, c, a).w)
  {
  }

  lemma SavingLists(w: World, c: Object, ref: Ref, a: Answer)
    ensures SameLists(w, OnSavePlacement(w, c, ref, a).w)
  {
    StatusLists(w, c, a.fault);
    assert OnSavePlacement(w, c, ref, a).w == Write(w, UpdateStatusOf(w, c), a.fault).0;
  }

  lemma InformingLists(w: World, c: Object, step: InfoStep, a: Answer)
    ensures SameLists(w, OnInforming(w, c, step, a).w)
  {
    if step.RunFetch? {
      SqlLists(w, c.spec.typ, step.conn, step.op, a.fault);
    }
  }

  lemma AligningLists(w: World, c: Object, step: AlignStep, a: Answer)
    ensures SameLists(w, OnAligning(w, c, step, a).w)
  {
    match step
    case ReadService(_) =>
    case CreateService(t) => ServiceLists(w, c, t, false, a);
    case UpdateService(t) => ServiceLists(w, c, t, true, a);
    case ReadSecret(t, host, changed) => ReadSecretLists(w, c, t, host, changed, a);
    case CreateSecret(t, host, changed) => SecretLists(w, c, t, host, changed, false, a);
    case UpdateSecret(t, host) => SecretLists(w, c, t, host, true, true, a);
  }

  lemma ServiceLists(w: World, c: Object, t: Target, update: bool, a: Answer)
    ensures SameLists(w, OnWriteService(w, c, t, update, a).w)
  {
  }

  lemma ReadSecretLists(w: World, c: Object, t: Target, host: string, changed: bool, a: Answer)
    ensures SameLists(w, OnReadSecret(w, c, t, host, changed, a).w)
  {
    if OwnSecret(w.key) in w.secrets {
      AlignedLists(w, c, t, host, changed);
    }
  }

  lemma AlignedLists(w: World, c: Object, t: Target, host: string, changed: bool)
    requires OwnSecret(w.key) in w.secrets
    ensures SameLists(w, Aligned(w, c, t, host, changed).w)
  {
  }

  lemma SecretLists(w: World, c: Object, t: Target, host: string, changed: bool, update: bool, a: Answer)
    ensures SameLists(w, OnWriteSecret(w, c, t, host, changed, update, a).w)
  {
  }

  lemma ClosingLists(w: World, c: Object, step: CloseStep, a: Answer)
    ensures SameLists(w, OnClosing(w, c, step, a).w)
  {
    UpdateLists(w, c, a.fault);
    StatusLists(w, c, a.fault);
    match step
    case Finalize(changed) => assert OnFinalize(w, c, changed, a).w == Write(w, Update(w, c), a.fault).0;
    case WriteReady => assert OnSetReady(w, c, a).w == Write(w, UpdateStatusOf(w, c), a.fault).0;
    case WriteError =>
  }

  lemma DeletingLists(w: World, c: Object, step: DeleteStep, a: Answer)
    ensures SameLists(w, OnDeleting(w, c, step, a).w)
  {
    match step
    case ReadDropProvider =>
    case ReadDropPassword(_, _) =>
    case RunDrop(p, conn, op) => DropLists(w, c, p, conn, op, a);
    case SaveDrop(done) => SaveDropLists(w, c, done, a);
    case DelService(dropped) => DelServiceLists(w, c, dropped, a);
    case DelSecret(dropped) => DelSecretLists(w, c, dropped, a);
    case DelFinalizer(dropped) => RemovalLists(w, c, dropped, a);
  }

  lemma DropLists(w: World, c: Object, p: Provider, conn: Connection, op: Op, a: Answer)
    ensures SameLists(w, OnDrop(w, c, p, conn, op, a).w)
  {
    SqlLists(w, c.spec.typ, conn, op, a.fault);
    assert OnDrop(w, c, p, conn, op, a).w == Sql(w, c.spec.typ, conn, op, a.fault).0;
  }

  lemma SaveDropLists(w: World, c: Object, done: Dropped, a: Answer)
    ensures SameLists(w, OnSaveDrop(w, c, done, a).w)
  {
    StatusLists(w, c, a.fault);
    assert OnSaveDrop(w, c, done, a).w == Write(w, UpdateStatusOf(w, c), a.fault).0;
  }

  lemma DelServiceLists(w: World, c: Object, dropped: Option<Dropped>, a: Answer)
    ensures SameLists(w, OnDeleteService(w, c, dropped, a).w)
  {
  }

  lemma DelSecretLists(w: World, c: Object, dropped: Option<Dropped>, a: Answer)
    ensures SameLists(w, OnDeleteSecret(w, c, dropped, a).w)
  {
  }

  lemma RemovalLists(w: World, c: Object, dropped: Option<Dropped>, a: Answer)
    ensures SameLists(w, OnRemoveFinalizer(w, c, dropped, a).w)
  {
    UpdateLists(w, c, a.fault);
    RemovalIs(w, c, dropped, a);
  }

  lemma RemovalIs(w: World, c: Object, dropped: Option<Dropped>, a: Answer)
    ensures var w', w'' := Write(w, Update(w, c), a.fault).0, OnRemoveFinalizer(w, c, dropped, a).w;
      w'' == w' || w'' == w'.(history := w'.history.(removals := w'.history.removals
                                                       + {RemovalOf(w, w.request.value, dropped)}))
  {
  }

  // When nobody changes the providers during the pass, it is the server the stored reference names at the end.
  lemma DropsOnReferredServer(s: State, actions: seq<Action>, a: Answer)
    requires Inv(s) && s.pc.Idle? && SameProviders(actions)
    ensures var t := Run(Next(s, Begin), actions);
      RemovesFinalizer(t, a) && NeedsDrop(t.w.request.value.spec) ==>
        GoneFrom(t.w, Referred(t.w, t.w.request.value.spec))
  {
    var s' := Next(s, Begin);
    NextOk(s, Begin);
    ListsStay(s', actions);
    RunOk(s', actions);
    var t := Run(s', actions);
    if RemovesFinalizer(t, a) {
      RemovableHere(t, a);
    }
  }

  // Putting it in place is the only way back.
  predicate PutsBack(key: Key, a: Action, x: Owned) {
    a.Env? && match x
      case OwnedService(name) => a.e.PutService? && a.e.name == name
      case OwnedSecret => a.e.PutSecret? && a.e.ref == OwnSecret(key)
  }

  lemma {:induction false} StaysAway(s: State, actions: seq<Action>, x: Owned)
    requires x !in s.w.log.back && forall a :: a in actions ==> !PutsBack(s.w.key, a, x)
    ensures x !in Run(s, actions).w.log.back
    decreases |actions|
  {
    if actions == [] {
    } else {
      NextAway(s, actions[0], x);
      StaysAway(Next(s, actions[0]), actions[1..], x);
    }
  }

  lemma NextAway(s: State, a: Action, x: Owned)
    requires x !in s.w.log.back && !PutsBack(s.w.key, a, x)
    ensures x !in Next(s, a).w.log.back && Next(s, a).w.key == s.w.key
  {
    if a.Call? {
      CallLists(s, a.answer);
    } else if a.Read? && s.pc.Reading? && a.version in s.w.versions {
      ReadChangesNothing(s.w, s.w.versions[a.version]);
    }
  }

  // The finalizer goes with the Service absent, if nobody else has created one of that name since this pass
  // deleted it; and likewise with the Secret.
  lemma OwnedGone(s: State, a: Answer, actions: seq<Action>, b: Answer, x: Owned)
    requires Inv(s) && s.pc.Deleting? && OnCall(s, a).pc.Deleting?
    requires match x
      case OwnedService(name) => s.pc.del.DelService? && name == s.pc.c.spec.name
      case OwnedSecret => s.pc.del.DelSecret?
    requires forall e :: e in actions ==> !PutsBack(s.w.key, e, x)
    ensures var t := Run(OnCall(s, a), actions);
      RemovesFinalizer(t, b) && t.w.request.value.spec.name == s.pc.c.spec.name ==> !Present(t.w, x)
  {
    CallOk(s, a);
    CallLists(s, a);
    StaysAway(OnCall(s, a), actions, x);
    RunOk(OnCall(s, a), actions);
    var t := Run(OnCall(s, a), actions);
    if RemovesFinalizer(t, b) {
      RemovableHere(t, b);
    }
  }

  // A deletion that asks for no drop.
  predicate DropsNothing(spec: Spec) {
    spec.seed.Some? || !spec.dropOnDelete || spec.typ.MongoDbType?
  }

  // And here somebody has: another request of the namespace with the same Spec.Name, say, which works under
  // another lock. The request goes with the Service in place.
  lemma ServiceReturns(s: State, o: Object, host: string, a: Answer)
    requires Inv(s) && s.pc.Idle? && s.w.request == Some(o) && o.deleting && DropsNothing(o.spec) && a.fault.Ok?
    ensures var actions := [Begin, Read(o.rv), Call(a)] + [Env(PutService(o.spec.name, host)), Call(a), Call(a)];
      var t := Run(s, actions);
      RemovesFinalizer(Run(s, actions[..5]), a) && t.w.request.None? && o.spec.name in t.w.services
  {
    var first, put := [Begin, Read(o.rv), Call(a)], Env(PutService(o.spec.name, host));
    var s1 := Run(s, first);
    DeletionBegins(s, o, a);
    AfterReturn(s1, o, host, a);
    Two(s1, put, Call(a));
    Three(s1, put, Call(a), Call(a));
    RunAppend(s, first, [put, Call(a)]);
    RunAppend(s, first, [put, Call(a), Call(a)]);
    assert (first + [put, Call(a), Call(a)])[..5] == first + [put, Call(a)];
  }

  lemma DeletionBegins(s: State, o: Object, a: Answer)
    requires Inv(s) && s.pc.Idle? && s.w.request == Some(o) && o.deleting && DropsNothing(o.spec) && a.fault.Ok?
    ensures var t := Run(s, [Begin, Read(o.rv), Call(a)]);
      o.finalizer && t.pc == Deleting(o, DelSecret(None)) && t.w.request == Some(o)
  {
    StoredObjectOk(s.w);
    Three(s, Begin, Read(o.rv), Call(a));
  }

  lemma AfterReturn(s: State, o: Object, host: string, a: Answer)
    requires s.pc == Deleting(o, DelSecret(None)) && s.w.request == Some(o) && o.deleting && o.finalizer && a.fault.Ok?
    ensures var t := OnCall(Next(s, Env(PutService(o.spec.name, host))), a);
      RemovesFinalizer(t, a) && OnCall(t, a).w.request.None? && o.spec.name in OnCall(t, a).w.services
  {
    var t := OnCall(Next(s, Env(PutService(o.spec.name, host))), a);
    assert t.pc == Deleting(o.(finalizer := false), DelFinalizer(None)) && t.w.request == Some(o);
  }

  /** Placement */

  predicate Settled(o: Object) {
    o.spec.seed.None? && o.spec.ref.Some?
  }

  // The same placement; the wish to keep the database may be lost.
  predicate SamePlacement(spec: Spec, spec': Spec) {
    spec' == spec || spec' == Sent(spec)
  }

  // The controller clears a settled reference only in the write that removes the finalizer, and never changes it.
  lemma ReferenceSticks(s: State, a: Answer)
    requires Inv(s) && s.w.request.Some? && Settled(s.w.request.value)
    ensures var s' := OnCall(s, a);
      if s'.w.request.None? then s.pc.Deleting? && s.pc.del.DelFinalizer?
      else
        && SamePlacement(s.w.request.value.spec, s'.w.request.value.spec)
        && s'.w.request.value.uid == s.w.request.value.uid
  {
    CallHasEffect(s, a);
  }

  // An Update over an unchanged spec leaves it unchanged exactly if it says to drop the database, or does not take
  // effect: a false dropDatabaseOnDelete becomes true.
  lemma KeepsWishIff(w: World, c: Object, fault: Fault)
    requires Current(w, c) && c.spec == w.request.value.spec && (w.request.value.deleting ==> c.finalizer)
    ensures var w' := Write(w, Update(w, c), fault).0;
      && w'.request.Some?
      && (w'.request.value.spec == w.request.value.spec <==> w.request.value.spec.dropOnDelete || fault.Refused?)
  {
  }

  lemma FinalizerSends(w: World, o: Object, a: Answer)
    requires w.request == Some(o) && !o.deleting && !a.fault.Refused?
    ensures var w' := OnAddFinalizer(w, o.(finalizer := true), a).w;
      w'.request.Some? && w'.request.value.spec == Sent(o.spec)
      && w'.request.value.generation == o.generation + if o.spec.dropOnDelete then 0 else 1
  {
  }

  // So every request loses that wish with its finalizer write, before anything else is done for it.
  lemma WishIsLost(s: State, spec: Spec, a: Answer)
    requires Init(s) && !a.fault.Refused?
    ensures var t := Run(s, [Env(Apply(spec)), Begin, Read(s.w.clock), Call(a)]);
      && t.w.request.Some? && t.w.request.value.spec == Sent(spec)
      && t.w.request.value.generation == if spec.dropOnDelete then 1 else 2
  {
    FirstPass(s, spec);
    RunThenCall(s, [Env(Apply(spec)), Begin, Read(s.w.clock)], a);
    assert [Env(Apply(spec)), Begin, Read(s.w.clock)] + [Call(a)]
        == [Env(Apply(spec)), Begin, Read(s.w.clock), Call(a)];
    FinalizerSends(Run(s, [Env(Apply(spec)), Begin, Read(s.w.clock)]).w, Fresh(s.w.clock, spec), a);
  }

  predicate NoEdits(actions: seq<Action>) {
    forall a :: a in actions && a.Env? ==> !a.e.Apply?
  }

  // A settled request keeps its placement or goes, and none appears.
  ghost predicate Kept(w: World, w': World) {
    w'.request.Some? ==>
      && w.request.Some? && SamePlacement(w.request.value.spec, w'.request.value.spec)
      && w'.request.value.uid == w.request.value.uid
  }

  lemma ActionKeeps(s: State, a: Action)
    requires Inv(s) && (a.Env? ==> !a.e.Apply?)
    requires s.w.request.Some? ==> Settled(s.w.request.value)
    ensures Kept(s.w, Next(s, a).w)
  {
    match a
    case Env(e) => MoveKeeps(s.w, e);
    case Read(n) =>
      if s.pc.Reading? && n in s.w.versions {
        ReadChangesNothing(s.w, s.w.versions[n]);
      }
    case Call(answer) => ReferenceKept(s, answer);
    case _ =>
  }

  lemma MoveKeeps(w: World, e: Outside)
    requires !e.Apply?
    ensures Kept(w, Happen(w, e))
  {
  }

  lemma ReferenceKept(s: State, a: Answer)
    requires Inv(s) && (s.w.request.Some? ==> Settled(s.w.request.value))
    ensures Kept(s.w, OnCall(s, a).w)
  {
    CallHasEffect(s, a);
  }

  lemma ReadChangesNothing(w: World, c: Object)
    ensures AfterRead(w, c).w == w
  {
  }

  // Over whole runs without outside edits: the placement stays until the request is gone, and so does the whole spec
  // if it says to drop the database.
  lemma {:induction false} PlacementSticks(s: State, actions: seq<Action>)
    requires Inv(s) && NoEdits(actions)
    requires s.w.request.Some? ==> Settled(s.w.request.value)
    ensures Kept(s.w, Run(s, actions).w)
    decreases |actions|
  {
    if actions == [] {
    } else {
      NextOk(s, actions[0]);
      ActionKeeps(s, actions[0]);
      PlacementSticks(Next(s, actions[0]), actions[1..]);
    }
  }

  // Every look-up and every drop goes where the reference of the version the pass read points in a provider list
  // of that pass, and that is the stored reference as long as the version is current.
  lemma ResolvesStoredReference(s: State, actions: seq<Action>)
    requires Init(s)
    ensures var t := Run(s, actions);
      && (t.pc.Informing? && t.pc.info.RunFetch? ==>
            && t.pc.c.spec.ref.Some? && ResolvedInPass(t.w, t.pc.c.spec.ref.value, t.pc.info.p, t.pc.info.conn)
            && (Current(t.w, t.pc.c) && t.w.request.value.spec.seed.None? && t.w.request.value.spec.ref.Some? ==>
                  t.pc.c.spec.ref == t.w.request.value.spec.ref))
      && (t.pc.Deleting? && t.pc.del.RunDrop? ==>
            && t.pc.c.spec.ref.Some? && ResolvedInPass(t.w, t.pc.c.spec.ref.value, t.pc.del.p, t.pc.del.conn)
            && (Current(t.w, t.pc.c) ==> t.pc.c.spec.ref == t.w.request.value.spec.ref))
  {
    Reachable(s, actions);
  }

  // Every read of the request in the run returns the version then stored.
  predicate CurrentReads(s: State, actions: seq<Action>)
    decreases |actions|
  {
    actions == []
    || ((actions[0].Read? ==> s.w.request.Some? && s.w.request.value.rv == actions[0].version)
        && CurrentReads(Next(s, actions[0]), actions[1..]))
  }

  predicate Searching(pc: Pc) {
    pc.Placing? || pc.Seeding?
  }

  // The step from s to s' neither searches nor goes on to.
  predicate NoSearch(s: State, s': State) {
    !Searching(s'.pc) && s'.w.history.selections == s.w.history.selections
  }

  lemma InformingNoSearch(w: World, c: Object, step: InfoStep, a: Answer)
    ensures NoSearch(State(w, Informing(c, step)), OnInforming(w, c, step, a))
  {
  }

  lemma AligningNoSearch(w: World, c: Object, step: AlignStep, a: Answer)
    ensures NoSearch(State(w, Aligning(c, step)), OnAligning(w, c, step, a))
  {
  }

  lemma ClosingNoSearch(w: World, c: Object, step: CloseStep, a: Answer)
    ensures NoSearch(State(w, Closing(c, step)), OnClosing(w, c, step, a))
  {
  }

  lemma DeletingNoSearch(w: World, c: Object, step: DeleteStep, a: Answer)
    ensures NoSearch(State(w, Deleting(c, step)), OnDeleting(w, c, step, a))
  {
  }

  lemma AddingNoSearch(w: World, c: Object, a: Answer)
    requires WorldOk(w) && PcOk(w, Adding(c)) && (w.request.Some? ==> Settled(w.request.value))
    ensures NoSearch(State(w, Adding(c)), OnAddFinalizer(w, c, a))
  {
    if Update(w, c).Success? {
      UpdateOk(w, c);
    }
  }

  lemma ReadNoSearch(w: World, c: Object)
    requires Settled(c)
    ensures NoSearch(State(w, Reading), AfterRead(w, c))
  {
  }

  lemma StaysPlaced(s: State, a: Action)
    requires Inv(s) && !Searching(s.pc)
    requires s.w.request.Some? ==> Settled(s.w.request.value)
    requires a.Read? ==> s.w.request.Some? && s.w.request.value.rv == a.version
    ensures NoSearch(s, Next(s, a))
  {
    match a
    case Env(e) => MoveNoSearch(s.w, e);
    case Begin =>
    case Read(n) =>
      if s.pc.Reading? && n in s.w.versions {
        ReadNoSearch(s.w, s.w.versions[n]);
      }
    case ReadFails =>
    case Call(answer) => CallNoSearch(s, answer);
    case Restart =>
  }

  lemma MoveNoSearch(w: World, e: Outside)
    ensures Happen(w, e).history == w.history
  {
  }

  lemma CallNoSearch(s: State, a: Answer)
    requires Inv(s) && !Searching(s.pc) && (s.w.request.Some? ==> Settled(s.w.request.value))
    ensures NoSearch(s, OnCall(s, a))
  {
    match s.pc
    case Adding(c) => AddingNoSearch(s.w, c, a);
    case Informing(c, step) => InformingNoSearch(s.w, c, step, a);
    case Aligning(c, step) => AligningNoSearch(s.w, c, step, a);
    case Closing(c, step) => ClosingNoSearch(s.w, c, step, a);
    case Deleting(c, step) => DeletingNoSearch(s.w, c, step, a);
    case _ =>
  }

  // Sticky placement, given current reads: once a reference is stored and the seed is nil, no later
  // pass searches for a provider or creates a database.
  lemma {:induction false} NoSecondSearch(s: State, actions: seq<Action>)
    requires Inv(s) && !Searching(s.pc) && NoEdits(actions) && CurrentReads(s, actions)
    requires s.w.request.Some? ==> Settled(s.w.request.value)
    ensures !Searching(Run(s, actions).pc) && Run(s, actions).w.history.selections == s.w.history.selections
    decreases |actions|
  {
    if actions == [] {
    } else {
      var a := actions[0];
      StaysPlaced(s, a);
      NextOk(s, a);
      ActionKeeps(s, a);
      NoSecondSearch(Next(s, a), actions[1..]);
    }
  }

  // What the version a pass reads must be for it to search: finalized, not deleted, not skipping, and
  // with a seed or, if relational, without reference.
  predicate Unplaced(c: Object) {
    && c.finalizer && !c.deleting && !Skips(c)
    && (c.spec.seed.Some? || (c.spec.ref.None? && Relational(c.spec.typ)))
  }

  // At some moment of the run.
  predicate EverSearches(s: State, actions: seq<Action>)
    decreases |actions|
  {
    Searching(s.pc) || (actions != [] && EverSearches(Next(s, actions[0]), actions[1..]))
  }

  // The rest of a pass, after its read.
  predicate RestOfPass(actions: seq<Action>) {
    forall a :: a in actions ==> a.Env? || a.Call?
  }

  // The exact condition, for passes while the stored request is settled: one searches precisely when the
  // version it read is finalized and unplaced. From an unfinalized one it does not, because the finalizer write
  // checks the version.
  lemma SearchesIff(s: State, n: nat, actions: seq<Action>)
    requires Inv(s) && s.pc.Reading? && n in s.w.versions && NoEdits(actions) && RestOfPass(actions)
    requires s.w.request.Some? ==> Settled(s.w.request.value)
    ensures EverSearches(Next(s, Read(n)), actions) <==> Unplaced(s.w.versions[n])
  {
    NextOk(s, Read(n));
    ReadChangesNothing(s.w, s.w.versions[n]);
    if !Unplaced(s.w.versions[n]) {
      NeverSearches(Next(s, Read(n)), actions);
    }
  }

  lemma {:induction false} NeverSearches(s: State, actions: seq<Action>)
    requires Inv(s) && !Searching(s.pc) && NoEdits(actions) && RestOfPass(actions)
    requires s.w.request.Some? ==> Settled(s.w.request.value)
    ensures !EverSearches(s, actions)
    decreases |actions|
  {
    if actions == [] {
    } else {
      assert actions[0] in actions;
      StaysPlaced(s, actions[0]);
      NextOk(s, actions[0]);
      ActionKeeps(s, actions[0]);
      NeverSearches(Next(s, actions[0]), actions[1..]);
    }
  }

  // Such a version can be older than the settled one: here a stale cache sends a pass to search again
  // although the stored request has its reference.
  lemma StaleReadSearches(s: State, spec: Spec, ref: Ref, a: Answer)
    requires Init(s) && Relational(spec.typ) && spec.seed.None? && spec.ref.None? && a.fault.Ok?
    ensures var stale := s.w.clock + 1;
      var actions := [Env(Apply(spec)), Begin, Read(s.w.clock), Call(a), Restart,
                      Env(Apply(spec.(ref := Some(ref)))), Begin, Read(stale)];
      var t := Run(s, actions);
      t.w.request.Some? && Settled(t.w.request.value) && t.pc.Placing? && t.pc.place.SelectProvider?
  {
    var v0, v1 := s.w.clock, s.w.clock + 1;
    var edit := Env(Apply(spec.(ref := Some(ref))));
    var first, second, third := [Env(Apply(spec)), Begin, Read(v0)], [Call(a), Restart, edit], [Begin, Read(v1)];
    FirstPass(s, spec);
    var s1 := Run(s, first);
    EditBehind(s1, spec, ref, a);
    var s2 := Run(s1, second);
    Two(s2, Begin, Read(v1));
    RunAppend(s1, second, third);
    RunAppend(s, first, second + third);
    Eight(Env(Apply(spec)), Begin, Read(v0), Call(a), Restart, edit, Begin, Read(v1));
  }

  lemma Eight(a: Action, b: Action, c: Action, d: Action, e: Action, f: Action, g: Action, h: Action)
    ensures [a, b, c] + ([d, e, f] + [g, h]) == [a, b, c, d, e, f, g, h]
  {
  }

  function Fresh(v: nat, spec: Spec): Object {
    Object(v, v, 1, false, false, spec, NO_STATUS)
  }

  // The next version, with the finalizer.
  function Finalized(v: nat, spec: Spec): Object
    requires v > 0
  {
    var o := Fresh(v - 1, spec);
    Updated(o, o.(finalizer := true)).(rv := v)
  }

  lemma FirstPass(s: State, spec: Spec)
    requires Init(s)
    ensures var v := s.w.clock; var t := Run(s, [Env(Apply(spec)), Begin, Read(v)]);
      && t.pc == Adding(Fresh(v, spec).(finalizer := true))
      && t.w.request == Some(Fresh(v, spec)) && t.w.clock == v + 1
  {
    Three(s, Env(Apply(spec)), Begin, Read(s.w.clock));
  }

  lemma EditBehind(s: State, spec: Spec, ref: Ref, a: Answer)
    requires s.w.request.Some? && spec.ref.None? && a.fault.Ok?
    requires var v := s.w.request.value.rv;
      && s.w.request.value == Fresh(v, spec) && s.w.clock == v + 1
      && s.pc == Adding(Fresh(v, spec).(finalizer := true))
    ensures var v := s.w.clock; var t := Run(s, [Call(a), Restart, Env(Apply(spec.(ref := Some(ref))))]);
      && t.pc.Idle? && t.w.request.Some? && t.w.request.value.spec == spec.(ref := Some(ref))
      && v in t.w.versions && t.w.versions[v] == Finalized(v, spec)
  {
    var edit := Env(Apply(spec.(ref := Some(ref))));
    Three(s, Call(a), Restart, edit);
    FinalizerAdded(s, spec, a);
    Edited(State(OnCall(s, a).w, Idle), spec.(ref := Some(ref)));
  }

  lemma FinalizerAdded(s: State, spec: Spec, a: Answer)
    requires s.w.request.Some? && a.fault.Ok?
    requires var v := s.w.request.value.rv;
      s.w.request.value == Fresh(v, spec) && s.w.clock == v + 1 && s.pc == Adding(Fresh(v, spec).(finalizer := true))
    ensures var v := s.w.clock; var w := OnCall(s, a).w; var o := Finalized(v, spec);
      w.request == Some(o) && w.clock == v + 1 && v in w.versions && w.versions[v] == o
  {
  }

  lemma Edited(s: State, spec: Spec)
    requires s.w.request.Some? && s.w.request.value.spec != spec
    ensures var t := Next(s, Env(Apply(spec)));
      && t.pc == s.pc && t.w.request.Some? && t.w.request.value.spec == spec
      && t.w.versions == s.w.versions[s.w.clock := t.w.request.value]
  {
  }

  lemma RunThenCall(s: State, actions: seq<Action>, a: Answer)
    ensures Run(s, actions + [Call(a)]) == OnCall(Run(s, actions), a)
  {
    var t := Run(s, actions);
    RunAppend(s, actions, [Call(a)]);
    assert Run(t, [Call(a)]) == Run(Next(t, Call(a)), []);
  }

  lemma Two(s: State, a: Action, b: Action)
    ensures Run(s, [a, b]) == Next(Next(s, a), b)
  {
    assert [a, b][1..] == [b] && [b][1..] == [];
    assert Run(Next(s, a), [b]) == Run(Next(Next(s, a), b), []);
  }

  lemma Three(s: State, a: Action, b: Action, c: Action)
    ensures Run(s, [a, b, c]) == Next(Next(Next(s, a), b), c)
  {
    assert [a, b, c][1..] == [b, c];
    Two(Next(s, a), b, c);
  }

  lemma {:induction false} RunAppend(s: State, xs: seq<Action>, ys: seq<Action>)
    ensures Run(s, xs + ys) == Run(Run(s, xs), ys)
    decreases |xs|
  {
    if xs == [] {
      assert xs + ys == ys;
    } else {
      assert (xs + ys)[1..] == xs[1..] + ys;
      RunAppend(Next(s, xs[0]), xs[1..], ys);
    }
  }
}
