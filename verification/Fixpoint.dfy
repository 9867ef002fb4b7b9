// A successful pass brings the Service and the Secret into line with the registry, and from then on the
// controller alone writes nothing more to Service, Secret, registry or spec.
module Fixpoint {
  import opened Common
  import opened Registry
  import opened Placement
  import opened SecretKeys
  import opened Cluster
  import opened Reconcile
  import opened Safety
  import opened SafetySteps
  import opened Guarantees
  import opened Deletion
  import opened Conditions

  /** One pass, left alone by the outside world */

  // The target's provider is the one the reference names now (for a seed: one of those listed).
  predicate Grounded(w: World, spec: Spec, t: Target) {
    && Relational(spec.typ) && spec.ref.Some? && ServerFor(w, spec.typ, t.conn).Some?
    && if t.seeded then t.provider in w.providers
       else GetProvider(w.providers, spec.ref.value.provider) == Some(t.provider)
  }

  predicate ServicePoints(w: World, spec: Spec, host: string) {
    spec.name in w.services && w.services[spec.name] == host
  }

  // Service and Secret are what the target calls for.
  ghost predicate Brought(w: World, spec: Spec, t: Target) {
    && TargetOk(w, w.log.start, spec, t) && Grounded(w, spec, t) && ServicePoints(w, spec, t.info.hostName)
    && OwnSecret(w.key) in w.secrets && w.secrets[OwnSecret(w.key)] == GetSecretData(t.info, spec.name, spec.name)
  }

  predicate SeedGrounded(w: World, c: Object, step: SeedStep) {
    match step
    case ReadSeedPassword(_, _, p, _) => p in w.providers
    case RecordSeed(_, _, p, _, _) => p in w.providers
    case DeleteSeed(_, _, p, conn) => p in w.providers && ServerFor(w, c.spec.typ, conn).Some?
    case _ => true
  }

  predicate InfoGrounded(w: World, c: Object, step: InfoStep) {
    match step
    case ReadProvider => true
    case ReadPassword(p, _) => c.spec.ref.Some? && GetProvider(w.providers, c.spec.ref.value.provider) == Some(p)
    case RunFetch(p, _, _) => c.spec.ref.Some? && GetProvider(w.providers, c.spec.ref.value.provider) == Some(p)
  }

  predicate AlignGrounded(w: World, c: Object, step: AlignStep) {
    match step
    case ReadService(wanted) => wanted.Some? ==> Grounded(w, c.spec, wanted.value)
    case CreateService(t) => Grounded(w, c.spec, t)
    case UpdateService(t) => Grounded(w, c.spec, t)
    case ReadSecret(t, _, _) => Grounded(w, c.spec, t) && ServicePoints(w, c.spec, t.info.hostName)
    case CreateSecret(t, _, _) => Grounded(w, c.spec, t) && ServicePoints(w, c.spec, t.info.hostName)
    case UpdateSecret(t, _) => Grounded(w, c.spec, t) && ServicePoints(w, c.spec, t.info.hostName)
  }

  // What a pass left alone knows about the world beyond the invariant.
  ghost predicate PassOk(s: State) {
    match s.pc
    case Adding(c) => c.finalizer
    case Seeding(c, step) => c.finalizer && SeedGrounded(s.w, c, step)
    case Placing(c, step) => c.finalizer
    case Informing(c, step) => c.finalizer && InfoGrounded(s.w, c, step)
    case Aligning(c, step) => c.finalizer && AlignGrounded(s.w, c, step)
    case Closing(c, step) => step.Finalize? ==> c.finalizer && exists t :: Brought(s.w, c.spec, t)
    case _ => true
  }

  lemma ProceedPasses(w: World, c: Object)
    requires c.finalizer
    ensures PassOk(Proceed(w, c))
  {
  }

  lemma AddingPasses(w: World, c: Object, a: Answer)
    requires PcOk(w, Adding(c)) && c.finalizer
    ensures PassOk(OnAddFinalizer(w, c, a))
  {
    var (w', ok) := Write(w, Update(w, c), a.fault);
    if ok && w'.request.Some? {
      ProceedPasses(w', Decoded(c, w'.request.value, a.keep));
    }
  }

  lemma RecordPasses(w: World, c: Object, step: SeedStep, a: Answer)
    requires step.RecordSeed? && PassOk(State(w, Seeding(c, step)))
    ensures PassOk(OnSeeding(w, c, step, a))
  {
  }

  lemma SeedingPasses(w: World, c: Object, step: SeedStep, a: Answer)
    requires SeedOk(w, c, step) && PassOk(State(w, Seeding(c, step)))
    ensures PassOk(OnSeeding(w, c, step, a))
  {
    if step.RecordSeed? {
      RecordPasses(w, c, step, a);
    }
  }

  lemma PlacingPasses(w: World, c: Object, step: PlaceStep, a: Answer)
    requires PlaceOk(w, c, step) && c.finalizer
    ensures PassOk(OnPlacing(w, c, step, a))
  {
  }

  lemma InformingPasses(w: World, c: Object, step: InfoStep, a: Answer)
    requires InfoOk(w, c, step) && PassOk(State(w, Informing(c, step)))
    ensures PassOk(OnInforming(w, c, step, a))
  {
  }

  lemma AlignedPasses(w: World, c: Object, t: Target, host: string, changed: bool)
    requires TargetOk(w, w.log.start, c.spec, t) && Grounded(w, c.spec, t) && ServicePoints(w, c.spec, t.info.hostName)
    requires OwnSecret(w.key) in w.secrets && w.secrets[OwnSecret(w.key)] == SecretDataFor(c, t) && c.finalizer
    ensures PassOk(Aligned(w, c, t, host, changed))
  {
    var s := Aligned(w, c, t, host, changed);
    assert TargetOk(s.w, s.w.log.start, c.spec, t);
    assert Brought(s.w, s.pc.c.spec, t);
  }

  lemma ServicePasses(w: World, c: Object, t: Target, update: bool, a: Answer)
    requires Grounded(w, c.spec, t) && c.finalizer
    ensures PassOk(OnWriteService(w, c, t, update, a))
  {
  }

  lemma SecretPasses(w: World, c: Object, t: Target, host: string, changed: bool, update: bool, a: Answer)
    requires TargetOk(w, w.log.start, c.spec, t) && Grounded(w, c.spec, t) && ServicePoints(w, c.spec, t.info.hostName)
    requires c.finalizer
    ensures PassOk(OnWriteSecret(w, c, t, host, changed, update, a))
  {
    if !(a.fault.Refused? || (OwnSecret(w.key) in w.secrets) != update || a.fault.Lost?) {
      var w' := w.(secrets := w.secrets[OwnSecret(w.key) := SecretDataFor(c, t)]);
      assert TargetOk(w', w'.log.start, c.spec, t);
      AlignedPasses(w', c, t, host, changed || update);
    }
  }

  lemma ReadSecretPasses(w: World, c: Object, t: Target, host: string, changed: bool, a: Answer)
    requires TargetOk(w, w.log.start, c.spec, t) && Grounded(w, c.spec, t) && ServicePoints(w, c.spec, t.info.hostName)
    requires c.finalizer
    ensures PassOk(OnReadSecret(w, c, t, host, changed, a))
  {
    if OwnSecret(w.key) in w.secrets && w.secrets[OwnSecret(w.key)] == SecretDataFor(c, t) {
      AlignedPasses(w, c, t, host, changed);
    }
  }

  lemma AligningPasses(w: World, c: Object, step: AlignStep, a: Answer)
    requires AlignOk(w, c, step) && PassOk(State(w, Aligning(c, step)))
    ensures PassOk(OnAligning(w, c, step, a))
  {
    match step
    case ReadService(wanted) =>
    case CreateService(t) => ServicePasses(w, c, t, false, a);
    case UpdateService(t) => ServicePasses(w, c, t, true, a);
    case ReadSecret(t, host, changed) => ReadSecretPasses(w, c, t, host, changed, a);
    case CreateSecret(t, host, changed) => SecretPasses(w, c, t, host, changed, false, a);
    case UpdateSecret(t, host) => SecretPasses(w, c, t, host, true, true, a);
  }

  lemma ClosingPasses(w: World, c: Object, step: CloseStep, a: Answer)
    ensures PassOk(OnClosing(w, c, step, a))
  {
  }

  lemma DeletingPasses(w: World, c: Object, step: DeleteStep, a: Answer)
    ensures PassOk(OnDeleting(w, c, step, a))
  {
  }

  lemma CallPasses(s: State, a: Answer)
    requires Inv(s) && PassOk(s)
    ensures PassOk(OnCall(s, a))
  {
    match s.pc
    case Idle =>
    case Reading =>
    case Adding(c) => AddingPasses(s.w, c, a);
    case Seeding(c, step) => SeedingPasses(s.w, c, step, a);
    case Placing(c, step) => PlacingPasses(s.w, c, step, a);
    case Informing(c, step) => InformingPasses(s.w, c, step, a);
    case Aligning(c, step) => AligningPasses(s.w, c, step, a);
    case Closing(c, step) => ClosingPasses(s.w, c, step, a);
    case Deleting(c, step) => DeletingPasses(s.w, c, step, a);
  }

  // The rest of a pass during which others only execute their statements on the shared servers.
  predicate AmongStatements(actions: seq<Action>) {
    forall a :: a in actions ==> a.Call? || (a.Env? && a.e.OtherRequest?)
  }

  // They leave what the pass knows alone.
  lemma StatementPasses(w: World, e: Outside, pc: Pc)
    requires WorldOk(w) && e.OtherRequest? && PassOk(State(w, pc))
    ensures PassOk(State(Happen(w, e), pc))
  {
    if pc.Closing? && pc.close.Finalize? {
      var t :| Brought(w, pc.c.spec, t);
      StatementBrings(w, e, pc.c.spec, t);
    }
  }

  lemma StatementBrings(w: World, e: Outside, spec: Spec, t: Target)
    requires WorldOk(w) && e.OtherRequest? && Brought(w, spec, t)
    ensures Brought(Happen(w, e), spec, t)
  {
    var w' := Happen(w, e);
    HappenKeeps(w, e);
    EvolvingRowsGrow(w, w');
    TargetStays(w, w', w.log.start, spec, t);
  }

  lemma StepPasses(s: State, a: Action)
    requires Inv(s) && PassOk(s) && (a.Call? || (a.Env? && a.e.OtherRequest?))
    ensures Inv(Next(s, a)) && PassOk(Next(s, a))
  {
    NextOk(s, a);
    if a.Call? {
      CallPasses(s, a.answer);
    } else {
      StatementPasses(s.w, a.e, s.pc);
    }
  }

  lemma {:induction false} RunPasses(s: State, actions: seq<Action>)
    requires Inv(s) && PassOk(s) && AmongStatements(actions)
    ensures Inv(Run(s, actions)) && PassOk(Run(s, actions))
    decreases |actions|
  {
    if actions == [] {
    } else {
      assert actions[0] in actions;
      StepPasses(s, actions[0]);
      RunPasses(Next(s, actions[0]), actions[1..]);
    }
  }

  lemma ReadPasses(w: World, c: Object)
    ensures PassOk(AfterRead(w, c))
  {
  }

  // Wherever a pass over the stored request has got to.
  lemma PassReaches(w: World, pass: seq<Action>)
    requires WorldOk(w) && w.request.Some? && AmongStatements(pass)
    ensures var s := Run(AfterRead(w, w.request.value), pass); Inv(s) && PassOk(s)
  {
    AfterReadOk(w, w.request.value.rv);
    ReadPasses(w, w.request.value);
    RunPasses(AfterRead(w, w.request.value), pass);
  }

  /** In line */

  // The Service points at the host of the connection the reference names, and the Secret holds the
  // registry row on its server.
  ghost predicate InLine(w: World, spec: Spec, t: Target) {
    && Relational(spec.typ) && Referred(w, spec) == Some(t.conn) && ServerFor(w, spec.typ, t.conn).Some?
    && t.info.hostName == t.conn.hostname && t.info.port == t.conn.port
    && Lookup(w.servers[AddrOf(t.conn)].rows, w.key) == Some(Credentials(t.info))
    && ServicePoints(w, spec, t.conn.hostname)
    && OwnSecret(w.key) in w.secrets && w.secrets[OwnSecret(w.key)] == GetSecretData(t.info, spec.name, spec.name)
  }

  // Names a seed's reference resolves by.
  predicate NamesDistinct(w: World, p: Provider) {
    DistinctProviders(w.providers) && DistinctNames(p.connections)
  }

  // What a pass brought about is in line; for a seed, exactly when no other row stood in the way.
  lemma BroughtInLine(w: World, spec: Spec, t: Target)
    requires Brought(w, spec, t) && ServersOk(w)
    ensures !t.seeded ==> InLine(w, spec, t)
    ensures t.seeded && NamesDistinct(w, t.provider) ==>
      (InLine(w, spec, t) <==> !Rival(w.servers[AddrOf(t.conn)].rows, Row(w.key, Credentials(t.info))))
  {
    if t.seeded && NamesDistinct(w, t.provider) {
      ListedFound(w.providers, t.provider);
      var k :| 0 <= k < |t.provider.connections| && t.provider.connections[k] == t.conn;
      FindByDistinctName(t.provider.connections, k);
      RowsHold(w, AddrOf(t.conn), Credentials(t.info));
    }
  }

  // A pass over the stored request has got to its Update, and that gets through.
  predicate GetsThrough(w: World, pass: seq<Action>, last: Answer)
    requires w.request.Some?
  {
    var s := Run(AfterRead(w, w.request.value), pass);
    s.pc.Closing? && s.pc.close.Finalize? && Write(s.w, Update(s.w, s.pc.c), last.fault).1
  }

  // Convergence: such a pass, whichever of its later calls fail, leaves the stored request settled and Service and
  // Secret in line with its spec.
  lemma SuccessfulPass(w: World, pass: seq<Action>, last: Answer) returns (t: Target)
    requires WorldOk(w) && w.request.Some? && AmongStatements(pass) && GetsThrough(w, pass, last)
    ensures var w' := OnCall(Run(AfterRead(w, w.request.value), pass), last).w;
      && InUse(w') && w'.request.value.spec.dropOnDelete
      && Brought(w', w'.request.value.spec, t)
      && (!t.seeded ==> InLine(w', w'.request.value.spec, t))
      && (t.seeded && NamesDistinct(w', t.provider) ==>
            (InLine(w', w'.request.value.spec, t)
             <==> !Rival(w'.servers[AddrOf(t.conn)].rows, Row(w'.key, Credentials(t.info)))))
    ensures var w' := OnCall(Run(AfterRead(w, w.request.value), pass), last).w; var spec := w'.request.value.spec;
      && HandedOut(w', spec.name, t.info) && t.info.hostName == t.conn.hostname && t.info.port == t.conn.port
      && (!t.seeded ==> RowSays(w', t.conn, t.info))
      && (!t.seeded && DistinctProviders(w'.providers) ==> exists p :: Refers(w', spec, p, t.conn))
  {
    PassReaches(w, pass);
    var s := Run(AfterRead(w, w.request.value), pass);
    t :| Brought(s.w, s.pc.c.spec, t);
    FinalizeBrings(s.w, s.pc.c, s.pc.close.changed, last, t);
    var w' := OnCall(s, last).w;
    BroughtInLine(w', w'.request.value.spec, t);
    BroughtSays(w', w'.request.value.spec, t);
  }

  // The same, entry by entry.
  lemma BroughtSays(w: World, spec: Spec, t: Target)
    requires Brought(w, spec, t)
    ensures HandedOut(w, spec.name, t.info) && t.info.hostName == t.conn.hostname && t.info.port == t.conn.port
    ensures !t.seeded ==> RowSays(w, t.conn, t.info)
    ensures !t.seeded && DistinctProviders(w.providers) ==> exists p :: Refers(w, spec, p, t.conn)
  {
    UpperCaseExists(spec.name);
    FiveKeys(t.info, spec.name, spec.name, Prefix(spec.name));
    if !t.seeded {
      assert Row(w.key, Credentials(t.info)) in At(w, t.conn).rows;
      if DistinctProviders(w.providers) {
        RefersIff(w, spec, t.conn);
      }
    }
  }

  // The stored request is settled and not on its way out.
  predicate InUse(w: World) {
    w.request.Some? && Settled(w.request.value) && !w.request.value.deleting && w.request.value.finalizer
  }

  lemma FinalizeBrings(w: World, c: Object, changed: bool, a: Answer, t: Target)
    requires WorldOk(w) && CloseOk(w, c, Finalize(changed)) && c.finalizer && Brought(w, c.spec, t)
    requires Write(w, Update(w, c), a.fault).1
    ensures var w' := OnFinalize(w, c, changed, a).w;
      WorldOk(w') && InUse(w') && w'.request.value.spec == Sent(c.spec) && Brought(w', w'.request.value.spec, t)
  {
    UpdateOk(w, c);
    var w' := OnFinalize(w, c, changed, a).w;
    assert w'.servers == w.servers && w'.log == w.log;
    assert w'.request.value.spec == Sent(c.spec);
    BroughtSent(w, w', c.spec, t);
  }

  lemma BroughtSent(w: World, w': World, spec: Spec, t: Target)
    requires Brought(w, spec, t) && OnlyRequest(w, w')
    ensures Brought(w', Sent(spec), t)
  {
  }

  /** What the controller then no longer does */

  // The same objects and the same placement; the same spec if it says to drop the database.
  predicate Still(w: World, w': World) {
    && w'.key == w.key && w'.services == w.services && w'.secrets == w.secrets && w'.providers == w.providers
    && w.request.Some? && w'.request.Some?
    && var o, o' := w.request.value, w'.request.value;
       && SamePlacement(o.spec, o'.spec) && o'.deleting == o.deleting && o'.finalizer == o.finalizer
       && (o.spec.dropOnDelete ==> o'.spec == o.spec && o'.generation == o.generation)
  }

  // What the statements of others alone make of the servers.
  function ByOthers(servers: map<Addr, Server>, key: Key, actions: seq<Action>): map<Addr, Server>
    decreases |actions|
  {
    if actions == [] then servers else ByOthers(ByOther(servers, key, actions[0]), key, actions[1..])
  }

  function ByOther(servers: map<Addr, Server>, key: Key, a: Action): map<Addr, Server> {
    if a.Env? && a.e.OtherRequest? && a.e.addr in servers && a.e.op.key != key && OpOk(servers[a.e.addr], a.e.op) then
      servers[a.e.addr := Step(servers[a.e.addr], a.e.op).0]
    else servers
  }

  // Where passes over such a request can be: they find everything as it should be.
  predicate Steady(spec: Spec, t: Target, pc: Pc) {
    match pc
    case Idle => true
    case Reading => true
    case Informing(c, step) =>
      && c.spec == spec && c.finalizer
      && (match step
          case ReadProvider => true
          case ReadPassword(_, conn) => conn == t.conn
          case RunFetch(_, conn, op) => conn == t.conn && (op.pc.Use? || op.pc.Select?) && op.task.Fetch?)
    case Aligning(c, step) =>
      && c.spec == spec && c.finalizer
      && (match step
          case ReadService(wanted) => wanted.Some? && wanted.value.info == t.info
          case ReadSecret(x, _, _) => x.info == t.info
          case _ => false)
    case Closing(c, step) => step.Finalize? ==> c.spec == spec && c.finalizer
    case _ => false
  }

  // A step of the controller that leaves everything as it was.
  ghost predicate Rests(w: World, t: Target, s: State) {
    Still(w, s.w) && s.w.servers == w.servers && Steady(s.w.request.value.spec, t, s.pc)
  }

  ghost predicate Held(w: World, t: Target) {
    InUse(w) && InLine(w, w.request.value.spec, t)
  }

  lemma InformingHolds(w: World, c: Object, step: InfoStep, a: Answer, t: Target)
    requires Held(w, t) && InfoOk(w, c, step) && Steady(w.request.value.spec, t, Informing(c, step))
    ensures var s := OnInforming(w, c, step, a); Rests(w, t, s)
  {
    match step
    case ReadProvider => ReferredHolds(w, c, a, t);
    case ReadPassword(p, conn) => PasswordHolds(w, c, p, conn, a, t);
    case RunFetch(p, conn, op) => FetchHolds(w, c, p, conn, op, a, t);
  }

  lemma ReferredHolds(w: World, c: Object, a: Answer, t: Target)
    requires Held(w, t) && Steady(w.request.value.spec, t, Informing(c, ReadProvider))
    ensures var s := OnReadProvider(w, c, a); Rests(w, t, s)
  {
  }

  lemma PasswordHolds(w: World, c: Object, p: Provider, conn: Connection, a: Answer, t: Target)
    requires Held(w, t) && Steady(w.request.value.spec, t, Informing(c, ReadPassword(p, conn)))
    ensures var s := OnReadPassword(w, c, p, conn, a); Rests(w, t, s)
  {
  }

  // The row is there, so nothing is inserted and it is what is returned.
  lemma FetchHolds(w: World, c: Object, p: Provider, conn: Connection, op: Op, a: Answer, t: Target)
    requires Held(w, t) && Steady(w.request.value.spec, t, Informing(c, RunFetch(p, conn, op))) && op.key == w.key
    ensures var s := OnFetch(w, c, p, conn, op, a); Rests(w, t, s)
  {
    var (w', r) := Sql(w, c.spec.typ, conn, op, a.fault);
    var addr := AddrOf(conn);
    assert w.servers[addr := w.servers[addr]] == w.servers;
    assert w'.servers == w.servers;
    if r.Some? && r.value.pc.Done? {
      var i := r.value.info;
      assert i == Credentials(t.info);
      assert DbInfo(i.dbname, conn.hostname, i.username, i.password, conn.port) == t.info;
    }
  }

  lemma AligningHolds(w: World, c: Object, step: AlignStep, a: Answer, t: Target)
    requires Held(w, t) && AlignOk(w, c, step) && Steady(w.request.value.spec, t, Aligning(c, step))
    ensures var s := OnAligning(w, c, step, a); Rests(w, t, s)
  {
    match step
    case ReadService(wanted) =>
    case ReadSecret(x, host, changed) => ReadSecretHolds(w, c, x, host, changed, a, t);
  }

  lemma ReadSecretHolds(w: World, c: Object, x: Target, host: string, changed: bool, a: Answer, t: Target)
    requires Held(w, t) && Steady(w.request.value.spec, t, Aligning(c, ReadSecret(x, host, changed)))
    ensures var s := OnReadSecret(w, c, x, host, changed, a); Rests(w, t, s)
  {
  }

  lemma StatusHolds(w: World, c: Object, fault: Fault)
    requires w.request.Some?
    ensures var w' := Write(w, UpdateStatusOf(w, c), fault).0;
      && Still(w, w') && w'.servers == w.servers && w'.request.value.spec == w.request.value.spec
  {
  }

  // The Update finds nothing to change, if the database is to be dropped.
  lemma FinalizeHolds(w: World, c: Object, changed: bool, a: Answer, t: Target)
    requires Held(w, t) && CloseOk(w, c, Finalize(changed)) && c.finalizer && c.spec == w.request.value.spec
    ensures var s := OnFinalize(w, c, changed, a);
      Still(w, s.w) && s.w.servers == w.servers && (s.pc.Idle? || (s.pc.Closing? && s.pc.close.WriteReady?))
  {
  }

  lemma ClosingHolds(w: World, c: Object, step: CloseStep, a: Answer, t: Target)
    requires Held(w, t) && CloseOk(w, c, step) && Steady(w.request.value.spec, t, Closing(c, step))
    ensures Rests(w, t, OnClosing(w, c, step, a))
  {
    match step
    case Finalize(changed) => FinalizeHolds(w, c, changed, a, t);
    case WriteReady => StatusHolds(w, c, a.fault);
    case WriteError => StatusHolds(w, c, a.fault);
  }

  lemma ReadHolds(w: World, c: Object, t: Target)
    requires InUse(w) && Relational(c.spec.typ) && w.request == Some(c)
    ensures AfterRead(w, c).w == w && Steady(c.spec, t, AfterRead(w, c).pc)
  {
  }

  lemma NextHolds(s: State, a: Action, t: Target)
    requires Inv(s) && Held(s.w, t) && Steady(s.w.request.value.spec, t, s.pc) && !a.Env?
    requires a.Read? ==> s.w.request.value.rv == a.version
    ensures Rests(s.w, t, Next(s, a))
  {
    match a
    case Begin =>
    case Read(n) => ReadRests(s, t);
    case ReadFails =>
    case Call(answer) => CallHolds(s, answer, t);
    case Restart =>
  }

  lemma ReadRests(s: State, t: Target)
    requires Inv(s) && Held(s.w, t) && Steady(s.w.request.value.spec, t, s.pc)
    ensures Rests(s.w, t, Next(s, Read(s.w.request.value.rv)))
  {
    if s.pc.Reading? {
      ReadHolds(s.w, s.w.request.value, t);
    }
  }

  lemma CallHolds(s: State, a: Answer, t: Target)
    requires Inv(s) && Held(s.w, t) && Steady(s.w.request.value.spec, t, s.pc)
    ensures Rests(s.w, t, OnCall(s, a))
  {
    match s.pc
    case Idle =>
    case Reading =>
    case Informing(c, step) => InformingHolds(s.w, c, step, a, t);
    case Aligning(c, step) => AligningHolds(s.w, c, step, a, t);
    case Closing(c, step) => ClosingHolds(s.w, c, step, a, t);
  }

  // In line stays in line: under a step of the controller, and under a statement of another request.
  lemma RestsHeld(w: World, t: Target, s: State)
    requires Held(w, t) && Rests(w, t, s)
    ensures Held(s.w, t)
  {
  }

  lemma StatementHolds(w: World, e: Outside, t: Target)
    requires WorldOk(w) && Held(w, t) && e.OtherRequest?
    ensures var w' := Happen(w, e);
      && Still(w, w') && Held(w', t) && w'.request == w.request && w'.servers == ByOther(w.servers, w.key, Env(e))
  {
    if Allowed(w, e) {
      OtherRows(w.servers[e.addr], e.op, w.key);
    }
  }

  predicate AmongServerWork(actions: seq<Action>) {
    forall a :: a in actions ==> a.Env? ==> a.e.OtherRequest?
  }

  // Fixpoint: over any number of further passes, with any failures and restarts and others' statements in between, the
  // Service and the Secret stay exactly as they are, and so does the spec if it says to drop the database; and
  // every registry is what the others' statements alone have made of it.
  lemma {:induction false} InLineStays(s: State, actions: seq<Action>, t: Target)
    requires Inv(s) && Held(s.w, t) && Steady(s.w.request.value.spec, t, s.pc)
    requires AmongServerWork(actions) && CurrentReads(s, actions)
    ensures var w' := Run(s, actions).w;
      Still(s.w, w') && Held(w', t) && w'.servers == ByOthers(s.w.servers, s.w.key, actions)
    decreases |actions|
  {
    if actions == [] {
    } else {
      var a, s' := actions[0], Next(s, actions[0]);
      assert a in actions;
      NextOk(s, a);
      StepHolds(s, a, t);
      InLineStays(s', actions[1..], t);
      StillTwice(s.w, s'.w, Run(s, actions).w);
    }
  }

  lemma StepHolds(s: State, a: Action, t: Target)
    requires Inv(s) && Held(s.w, t) && Steady(s.w.request.value.spec, t, s.pc) && (a.Env? ==> a.e.OtherRequest?)
    requires a.Read? ==> s.w.request.value.rv == a.version
    ensures var s' := Next(s, a);
      && Still(s.w, s'.w) && Held(s'.w, t) && Steady(s'.w.request.value.spec, t, s'.pc)
      && s'.w.servers == ByOther(s.w.servers, s.w.key, a)
  {
    if a.Env? {
      StatementHolds(s.w, a.e, t);
    } else {
      NextHolds(s, a, t);
      RestsHeld(s.w, t, Next(s, a));
    }
  }

  lemma StillTwice(w: World, w': World, w'': World)
    requires Still(w, w') && Still(w', w'')
    ensures Still(w, w'')
  {
  }

  // From the stored request to rest: once a pass has got through its Update (and, for a seed, no other row stood in
  // its way), nothing the controller does on unchanged inputs writes to Service, Secret, registry or spec again.
  lemma ConvergesOnce(w: World, pass: seq<Action>, last: Answer, actions: seq<Action>) returns (t: Target)
    requires WorldOk(w) && w.request.Some? && AmongStatements(pass) && GetsThrough(w, pass, last)
    requires AmongServerWork(actions) && CurrentReads(OnCall(Run(AfterRead(w, w.request.value), pass), last), actions)
    ensures var s := OnCall(Run(AfterRead(w, w.request.value), pass), last); var w' := Run(s, actions).w;
      && InUse(s.w) && Brought(s.w, s.w.request.value.spec, t)
      && (!t.seeded || (NamesDistinct(s.w, t.provider)
                        && !Rival(s.w.servers[AddrOf(t.conn)].rows, Row(s.w.key, Credentials(t.info))))
          ==>
            && InLine(s.w, s.w.request.value.spec, t) && Still(s.w, w')
            && w'.request.value.spec == s.w.request.value.spec
            && w'.servers == ByOthers(s.w.servers, s.w.key, actions))
  {
    t := SuccessfulPass(w, pass, last);
    var s := Run(AfterRead(w, w.request.value), pass);
    var s' := OnCall(s, last);
    PassReaches(w, pass);
    CallOk(s, last);
    if InLine(s'.w, s'.w.request.value.spec, t) {
      FinalizeEnds(s.w, s.pc.c, s.pc.close.changed, last);
      InLineStays(s', actions, t);
    }
  }

  lemma FinalizeEnds(w: World, c: Object, changed: bool, a: Answer)
    ensures var pc := OnFinalize(w, c, changed, a).pc; pc.Idle? || (pc.Closing? && pc.close.WriteReady?)
  {
  }
}
