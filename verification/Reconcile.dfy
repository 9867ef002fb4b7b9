// Reconcile as a state machine: one step per API call and per SQL statement, over an
// in-memory copy of the request that a crash discards. Between any two steps the outside
// world may move, any call may fail or be lost, and reads of the request may be stale.
module Reconcile {
  import opened Common
  import opened Registry
  import opened Placement
  import opened SecretKeys
  import opened Cluster

  // The calls of handleSeed: d are a seed's credentials, data the Secret they were read from, p and conn the
  // connection they were matched with.
  datatype SeedStep =
    | ReadSeed
    | PingSeed(data: map<string, string>, d: DbInfo)
    | ListForSeed(data: map<string, string>, d: DbInfo)
    | ReadSeedPassword(data: map<string, string>, d: DbInfo, p: Provider, conn: Connection)
    | RecordSeed(data: map<string, string>, d: DbInfo, p: Provider, conn: Connection, op: Op)
    | DeleteSeed(data: map<string, string>, d: DbInfo, p: Provider, conn: Connection)

  // createDatabase.
  datatype PlaceStep =
    | SelectProvider
    | ReadCreatePassword(p: Provider, conn: Connection)
    | RunCreate(p: Provider, conn: Connection, op: Op)
    | SavePlacement(ref: Ref)

  // relDBInfo.
  datatype InfoStep =
    | ReadProvider
    | ReadPassword(p: Provider, conn: Connection)
    | RunFetch(p: Provider, conn: Connection, op: Op)

  // handleService and handleSecret.
  datatype AlignStep =
    | ReadService(wanted: Option<Target>)
    | CreateService(target: Target)
    | UpdateService(target: Target)
    | ReadSecret(target: Target, host: string, changed: bool)
    | CreateSecret(target: Target, host: string, changed: bool)
    | UpdateSecret(target: Target, host: string)

  // The last writes of a pass: the request, its Ready status, or the report of handleError.
  datatype CloseStep = Finalize(changed: bool) | WriteReady | WriteError

  // deleteDatabase.
  datatype DeleteStep =
    | ReadDropProvider
    | ReadDropPassword(p: Provider, conn: Connection)
    | RunDrop(p: Provider, conn: Connection, op: Op)
    | SaveDrop(done: Dropped)
    | DelService(dropped: Option<Dropped>)
    | DelSecret(dropped: Option<Dropped>)
    | DelFinalizer(dropped: Option<Dropped>)

  // The call the pass makes next; c is the in-memory copy of the request.
  datatype Pc =
    | Idle
    | Reading
    | Adding(c: Object)
    | Seeding(c: Object, seed: SeedStep)
    | Placing(c: Object, place: PlaceStep)
    | Informing(c: Object, info: InfoStep)
    | Aligning(c: Object, align: AlignStep)
    | Closing(c: Object, close: CloseStep)
    | Deleting(c: Object, del: DeleteStep)

  datatype State = State(w: World, pc: Pc)

  // How the environment answers a call: whether it works, which status fields an Update's response
  // leaves in memory, what the random generator draws, which loads the servers report, and whether a
  // failed ping names its cause.
  datatype Answer = Answer(fault: Fault, keep: Keep, drawn: Info, loads: Loads, knownSeedError: bool)

  datatype Action =
    | Env(e: Outside)
    | Begin                          // a worker takes the lock and calls Reconcile
    | Read(version: nat)             // the Get of the request returns this version
    | ReadFails                      // it fails, or finds no request
    | Call(answer: Answer)
    | Restart

  /** Conditions */

  function SetError(c: Object, cause: Cause): Object {
    c.(status := c.status.(conditions := Conditions(Down(cause), Some(cause))))
  }

  function SetReady(c: Object, reason: Reason): Object {
    c.(status := c.status.(conditions := Conditions(Up(reason), None)))
  }

  // What SetStatusCondition reports for Ready, given the conditions before.
  predicate ReadyChanges(c: Object, reason: Reason) {
    c.status.conditions.ready != Up(reason)
  }

  // The early return of Reconcile.
  predicate Skips(c: Object) {
    c.status.conditions.ready.Up? && c.status.observedGeneration >= c.generation
  }

  function Fail(w: World, c: Object, cause: Cause): State {
    State(w, Closing(SetError(c, cause), WriteError))
  }

  /** Where a pass goes between calls */

  // After the finalizer is in place.
  function Proceed(w: World, c: Object): State {
    if Skips(c) then State(w, Idle)
    else if c.spec.seed.Some? then State(w, Seeding(c, ReadSeed))
    else if c.spec.ref.Some? then Inform(w, c)
    else
      match c.spec.typ
      case MySqlType | PostgresType => State(w, Placing(c, SelectProvider))
      case MongoDbType => Fail(w, c, MissingReference)
      case MariaDbType => Fail(w, c, CreateDatabase)
  }

  // After the copy carries a reference.
  function Inform(w: World, c: Object): State {
    var c' := c.(status := c.status.(observedRef := c.spec.ref));
    if Relational(c.spec.typ) then State(w, Informing(c', ReadProvider)) else State(w, Aligning(c', ReadService(None)))
  }

  // The top of deleteDatabase.
  function StartDelete(w: World, c: Object): State {
    if c.spec.seed.None? && c.spec.dropOnDelete then
      match c.spec.typ
      case MySqlType | PostgresType =>
        if c.spec.ref.None? then Fail(w, c, DropFailed) else State(w, Deleting(c, ReadDropProvider))
      case MongoDbType => State(w, Deleting(c, DelService(None)))
      case MariaDbType => Fail(w, c, InvalidType)
    else State(w, Deleting(c, DelService(None)))
  }

  function AfterRead(w: World, c: Object): State {
    if c.deleting then StartDelete(w, c)
    else if !c.finalizer then State(w, Adding(c.(finalizer := true)))
    else Proceed(w, c)
  }

  // After the Service holds host: on to the Secret.
  function SecretDataFor(c: Object, t: Target): map<string, string> {
    GetSecretData(t.info, c.spec.name, c.spec.name)
  }

  // handleSecret is done: the last writes come.
  function Aligned(w: World, c: Object, t: Target, host: string, changed: bool): State
    requires OwnSecret(w.key) in w.secrets
  {
    var sync := Sync(c.uid, c.generation, c.spec, t, host, w.secrets[OwnSecret(w.key)], w.log.start);
    State(w.(history := w.history.(synced := w.history.synced + {sync})),
          Closing(c.(status := c.status.(observedGeneration := c.generation)), Finalize(changed)))
  }

  /** SQL statements */

  // The next statement of an operation; None is an error returned to the controller.
  function Sql(w: World, typ: DbType, conn: Connection, op: Op, fault: Fault): (World, Option<Op>) {
    match ServerFor(w, typ, conn)
    case None => (w, None)
    case Some(s) =>
      if fault.Refused? then (w, None)
      else
        var (s', op') := Step(s, op);
        (w.(servers := w.servers[AddrOf(conn) := s']),
         if fault.Lost? || op'.pc.Failed? then None else Some(op'))
  }

  /** The calls */

  function OnAddFinalizer(w: World, c: Object, a: Answer): State {
    var (w', ok) := Write(w, Update(w, c), a.fault);
    if !ok then Fail(w', c, AddFinalizer)
    else if w'.request.None? then State(w', Idle)
    else Proceed(w', Decoded(c, w'.request.value, a.keep))
  }

  function OnReadSeed(w: World, c: Object, a: Answer): State {
    if c.spec.seed.None? || !a.fault.Ok? || c.spec.seed.value !in w.secrets then Fail(w, c, HandleSeed)
    else
      var data := w.secrets[c.spec.seed.value];
      match DbInfoFromSeed(data)
      case None => Fail(w, c, HandleSeed)
      case Some(d) => State(w, Seeding(c, PingSeed(data, d)))
  }

  function OnPingSeed(w: World, c: Object, data: map<string, string>, d: DbInfo, a: Answer): State {
    // No driver is registered for the other types, so their ping fails.
    if !a.fault.Ok? || !Relational(c.spec.typ) then Fail(w, c, if a.knownSeedError then InvalidSeed else HandleSeed)
    else State(w.(history := w.history.(pinged := w.history.pinged + {d})), Seeding(c, ListForSeed(data, d)))
  }

  function OnListForSeed(w: World, c: Object, data: map<string, string>, d: DbInfo, a: Answer): State {
    if !a.fault.Ok? then Fail(w, c, HandleSeed)
    else
      match SeedMatch(w.providers, Query(c.spec.selector, c.spec.typ), d.hostName, d.port)
      case None => Fail(w, c, HandleSeed)
      case Some((p, conn)) => State(w, Seeding(c, ReadSeedPassword(data, d, p, conn)))
  }

  function OnReadSeedPassword(
    w: World, c: Object, data: map<string, string>, d: DbInfo, p: Provider, conn: Connection, a: Answer): State
  {
    if !a.fault.Ok? || PasswordOf(w, conn).None? then Fail(w, c, HandleSeed)
    else
      var op := Start(EngineOf(c.spec.typ), Record(Credentials(d)), w.key, Credentials(d));
      State(w, Seeding(c, RecordSeed(data, d, p, conn, op)))
  }

  function OnRecordSeed(
    w: World, c: Object, data: map<string, string>, d: DbInfo, p: Provider, conn: Connection, op: Op, a: Answer): State
  {
    match Sql(w, c.spec.typ, conn, op, a.fault)
    case (w', None) => Fail(w', c, HandleSeed)
    case (w', Some(op')) =>
      if op'.pc.Done? then SeedRecorded(w', c, data, d, p, conn)
      else State(w', Seeding(c, RecordSeed(data, d, p, conn, op')))
  }

  // SetDatabaseInfo has returned.
  function SeedRecorded(w: World, c: Object, data: map<string, string>, d: DbInfo, p: Provider,
    conn: Connection): State {
    State(w.(history := w.history.(recorded := w.history.recorded + {(AddrOf(conn), Credentials(d))})),
          Seeding(c, DeleteSeed(data, d, p, conn)))
  }

  function OnDeleteSeed(
    w: World, c: Object, data: map<string, string>, d: DbInfo, p: Provider, conn: Connection, a: Answer): State
  {
    if c.spec.seed.None? || c.spec.seed.value !in w.secrets || a.fault.Refused? then Fail(w, c, HandleSeed)
    else
      var ref := c.spec.seed.value;
      var gone := SeedDeletion(c.spec, data, d, Some(w.secrets[ref]), p, conn,
                               if AddrOf(conn) in w.servers then w.servers[AddrOf(conn)].rows else []);
      var w' := w.(secrets := w.secrets - {ref},
                   history := w.history.(seedDeletions := w.history.seedDeletions + {gone}));
      if a.fault.Lost? then Fail(w', c, HandleSeed)
      else
        State(w', Aligning(SeedPlaced(c, Ref(p.name, conn.name)), ReadService(Some(Target(d, p, conn, true)))))
  }

  // The copy after a seed has been taken over.
  function SeedPlaced(c: Object, ref: Ref): Object {
    c.(spec := c.spec.(ref := Some(ref), seed := None), status := c.status.(observedRef := Some(ref)))
  }

  // findRelationalDatabaseProvider and the look-up of its connection name.
  function OnSelect(w: World, c: Object, a: Answer): State {
    if !a.fault.Ok? then Fail(w, c, CreateDatabase)
    else
      var w' := w.(history := w.history.(selections := w.history.selections + {c}));
      match Place(w.providers, Query(c.spec.selector, c.spec.typ), a.loads)
      case None => Fail(w', c, CreateDatabase)
      case Some((x, y)) =>
        PlaceInRange(w.providers, Query(c.spec.selector, c.spec.typ), a.loads);
        var p := w.providers[x];
        match FindConnection(p.connections, p.connections[y].name)
        case None => Fail(w', c, CreateDatabase)
        case Some(conn) => State(w', Placing(c, ReadCreatePassword(p, conn)))
  }

  function OnReadCreatePassword(w: World, c: Object, p: Provider, conn: Connection, a: Answer): State {
    if !a.fault.Ok? || PasswordOf(w, conn).None? then Fail(w, c, CreateDatabase)
    else State(w, Placing(c,
      RunCreate(p, conn, Start(EngineOf(c.spec.typ), Task.Create(conn.username), w.key, a.drawn))))
  }

  function OnCreate(w: World, c: Object, p: Provider, conn: Connection, op: Op, a: Answer): State {
    match Sql(w, c.spec.typ, conn, op, a.fault)
    case (w', None) => Fail(w', c, CreateDatabase)
    case (w', Some(op')) =>
      if op'.pc.Done? then Created(w', c, p, conn, op'.info) else State(w', Placing(c, RunCreate(p, conn, op')))
  }

  // CreateDatabase has returned i.
  function Created(w: World, c: Object, p: Provider, conn: Connection, i: Info): State {
    var r := Ref(p.name, conn.name);
    State(w, Placing(c.(status := c.status.(observedRef := Some(r), databaseInfo := Some((i.username, i.dbname)))),
                     SavePlacement(r)))
  }

  function OnSavePlacement(w: World, c: Object, ref: Ref, a: Answer): State {
    var (w', ok) := Write(w, UpdateStatusOf(w, c), a.fault);
    if !ok || w'.request.None? then Fail(w', c, CreateDatabase)
    else Inform(w', w'.request.value.(spec := w'.request.value.spec.(ref := Some(ref))))
  }

  function OnReadProvider(w: World, c: Object, a: Answer): State {
    if !a.fault.Ok? || c.spec.ref.None? then Fail(w, c, GetInfo)
    else
      match GetProvider(w.providers, c.spec.ref.value.provider)
      case None => Fail(w, c, GetInfo)
      case Some(p) =>
        match FindConnection(p.connections, c.spec.ref.value.connection)
        case None => Fail(w, c, GetInfo)
        case Some(conn) => State(w, Informing(c, ReadPassword(p, conn)))
  }

  function OnReadPassword(w: World, c: Object, p: Provider, conn: Connection, a: Answer): State {
    if !a.fault.Ok? || PasswordOf(w, conn).None? then Fail(w, c, GetInfo)
    else State(w, Informing(c, RunFetch(p, conn, Start(EngineOf(c.spec.typ), Fetch, w.key, a.drawn))))
  }

  function OnFetch(w: World, c: Object, p: Provider, conn: Connection, op: Op, a: Answer): State {
    match Sql(w, c.spec.typ, conn, op, a.fault)
    case (w', None) => Fail(w', c, GetInfo)
    case (w', Some(op')) =>
      if op'.pc.Done? then Fetched(w', c, p, conn, op'.info) else State(w', Informing(c, RunFetch(p, conn, op')))
  }

  // GetDatabaseInfo has returned i.
  function Fetched(w: World, c: Object, p: Provider, conn: Connection, i: Info): State {
    var d := DbInfo(i.dbname, conn.hostname, i.username, i.password, conn.port);
    State(w, Aligning(c, ReadService(Some(Target(d, p, conn, false)))))
  }

  // A nil dbInfo (types without an implementation) panics here, which ends the pass without a write.
  function OnReadService(w: World, c: Object, target: Option<Target>, a: Answer): State {
    if !a.fault.Ok? then Fail(w, c, HandleService)
    else if target.None? then State(w, Idle)
    else
      var t := target.value;
      if c.spec.name !in w.services then State(w, Aligning(c, CreateService(t)))
      else if w.services[c.spec.name] != t.info.hostName then State(w, Aligning(c, UpdateService(t)))
      else State(w, Aligning(c, ReadSecret(t, w.services[c.spec.name], false)))
  }

  // A Create of an object that exists by now, and an Update of one that is gone, are errors.
  function OnWriteService(w: World, c: Object, t: Target, update: bool, a: Answer): State {
    if a.fault.Refused? || (c.spec.name in w.services) != update then Fail(w, c, HandleService)
    else
      var w' := w.(services := w.services[c.spec.name := t.info.hostName]);
      if a.fault.Lost? then Fail(w', c, HandleService)
      else State(w', Aligning(c, ReadSecret(t, w'.services[c.spec.name], update)))
  }

  function OnReadSecret(w: World, c: Object, t: Target, host: string, changed: bool, a: Answer): State {
    var own := OwnSecret(w.key);
    if !a.fault.Ok? then Fail(w, c, HandleSecret)
    else if own !in w.secrets then State(w, Aligning(c, CreateSecret(t, host, changed)))
    else if w.secrets[own] != SecretDataFor(c, t) then State(w, Aligning(c, UpdateSecret(t, host)))
    else Aligned(w, c, t, host, changed)
  }

  function OnWriteSecret(w: World, c: Object, t: Target, host: string, changed: bool, update: bool, a: Answer): State {
    var own := OwnSecret(w.key);
    if a.fault.Refused? || (own in w.secrets) != update then Fail(w, c, HandleSecret)
    else
      var w' := w.(secrets := w.secrets[own := SecretDataFor(c, t)]);
      if a.fault.Lost? then Fail(w', c, HandleSecret) else Aligned(w', c, t, host, changed || update)
  }

  // The Update of the request, then the decision whether to write its status.
  function OnFinalize(w: World, c: Object, changed: bool, a: Answer): State {
    var (w', ok) := Write(w, Update(w, c), a.fault);
    if !ok || w'.request.None? then State(w', Idle)
    else
      var c' := Decoded(c, w'.request.value, a.keep);
      var reason := if changed then DatabaseRequestChanged else DatabaseRequestCreated;
      if ReadyChanges(c', reason) then State(w', Closing(SetReady(c', reason), WriteReady)) else State(w', Idle)
  }

  function OnSetReady(w: World, c: Object, a: Answer): State {
    var (w', ok) := Write(w, UpdateStatusOf(w, c), a.fault);
    if ok then State(w', Idle) else Fail(w', c, UpdateStatus)
  }

  function OnError(w: World, c: Object, a: Answer): State {
    State(Write(w, UpdateStatusOf(w, c), a.fault).0, Idle)
  }

  function OnReadDropProvider(w: World, c: Object, a: Answer): State {
    if !a.fault.Ok? || c.spec.ref.None? then Fail(w, c, DropFailed)
    else
      match GetProvider(w.providers, c.spec.ref.value.provider)
      case None => Fail(w, c, DropFailed)
      case Some(p) =>
        match FindConnection(p.connections, c.spec.ref.value.connection)
        case None => Fail(w, c, DropFailed)
        case Some(conn) => State(w, Deleting(c, ReadDropPassword(p, conn)))
  }

  function OnReadDropPassword(w: World, c: Object, p: Provider, conn: Connection, a: Answer): State {
    if !a.fault.Ok? || PasswordOf(w, conn).None? then Fail(w, c, DropFailed)
    else State(w, Deleting(c, RunDrop(p, conn, Start(EngineOf(c.spec.typ), Drop, w.key, a.drawn))))
  }

  function OnDrop(w: World, c: Object, p: Provider, conn: Connection, op: Op, a: Answer): State {
    match Sql(w, c.spec.typ, conn, op, a.fault)
    case (w', None) => Fail(w', c, DropFailed)
    case (w', Some(op')) =>
      if op'.pc.Done? then DropReturned(w', c, p, conn) else State(w', Deleting(c, RunDrop(p, conn, op')))
  }

  // DropDatabase has returned.
  function DropReturned(w: World, c: Object, p: Provider, conn: Connection): State {
    if c.spec.ref.None? then Fail(w, c, DropFailed)
    else State(w, Deleting(c.(status := c.status.(observedRef := None)), SaveDrop(Dropped(c.spec.ref.value, p, conn))))
  }

  function OnSaveDrop(w: World, c: Object, dropped: Dropped, a: Answer): State {
    var (w', ok) := Write(w, UpdateStatusOf(w, c), a.fault);
    if !ok || w'.request.None? then Fail(w', c, DropFailed)
    else
      var o := w'.request.value;
      State(w', Deleting(o.(spec := o.spec.(ref := None)), DelService(Some(dropped))))
  }

  function OnDeleteService(w: World, c: Object, dropped: Option<Dropped>, a: Answer): State {
    if a.fault.Refused? then Fail(w, c, DeleteService)
    else
      var w' := w.(services := w.services - {c.spec.name}, log := Away(w.log, OwnedService(c.spec.name)));
      if a.fault.Lost? then Fail(w', c, DeleteService) else State(w', Deleting(c, DelSecret(dropped)))
  }

  function OnDeleteSecret(w: World, c: Object, dropped: Option<Dropped>, a: Answer): State {
    if a.fault.Refused? then Fail(w, c, DeleteSecret)
    else
      var w' := w.(secrets := w.secrets - {OwnSecret(w.key)}, log := Away(w.log, OwnedSecret));
      if a.fault.Lost? then Fail(w', c, DeleteSecret)
      else if c.finalizer then State(w', Deleting(c.(finalizer := false), DelFinalizer(dropped)))
      else State(w', Idle)
  }

  // Whether the row of the request names nothing that exists on the server.
  predicate Gone(s: Server, key: Key) {
    match Lookup(s.rows, key)
    case None => false
    case Some(i) => i.dbname !in s.dbs && i.username !in s.users
  }

  predicate DatabaseGone(w: World, dropped: Option<Dropped>) {
    dropped.Some? && AddrOf(dropped.value.conn) in w.servers && Gone(w.servers[AddrOf(dropped.value.conn)], w.key)
  }

  function RemovalOf(w: World, o: Object, dropped: Option<Dropped>): Removal {
    Removal(o, dropped, if w.log.start <= |w.log.lists| then w.log.lists[w.log.start..] else [], w.log.back,
            o.spec.name !in w.services, OwnSecret(w.key) !in w.secrets, DatabaseGone(w, dropped))
  }

  function OnRemoveFinalizer(w: World, c: Object, dropped: Option<Dropped>, a: Answer): State {
    var (w', ok) := Write(w, Update(w, c), a.fault);
    var w'' :=
      if w.request.Some? && w' != w then
        w'.(history := w'.history.(removals := w'.history.removals + {RemovalOf(w, w.request.value, dropped)}))
      else w';
    if ok then State(w'', Idle) else Fail(w'', c, RemoveFinalizer)
  }

  function OnSeeding(w: World, c: Object, step: SeedStep, a: Answer): State {
    match step
    case ReadSeed => OnReadSeed(w, c, a)
    case PingSeed(data, d) => OnPingSeed(w, c, data, d, a)
    case ListForSeed(data, d) => OnListForSeed(w, c, data, d, a)
    case ReadSeedPassword(data, d, p, conn) => OnReadSeedPassword(w, c, data, d, p, conn, a)
    case RecordSeed(data, d, p, conn, op) => OnRecordSeed(w, c, data, d, p, conn, op, a)
    case DeleteSeed(data, d, p, conn) => OnDeleteSeed(w, c, data, d, p, conn, a)
  }

  function OnPlacing(w: World, c: Object, step: PlaceStep, a: Answer): State {
    match step
    case SelectProvider => OnSelect(w, c, a)
    case ReadCreatePassword(p, conn) => OnReadCreatePassword(w, c, p, conn, a)
    case RunCreate(p, conn, op) => OnCreate(w, c, p, conn, op, a)
    case SavePlacement(ref) => OnSavePlacement(w, c, ref, a)
  }

  function OnInforming(w: World, c: Object, step: InfoStep, a: Answer): State {
    match step
    case ReadProvider => OnReadProvider(w, c, a)
    case ReadPassword(p, conn) => OnReadPassword(w, c, p, conn, a)
    case RunFetch(p, conn, op) => OnFetch(w, c, p, conn, op, a)
  }

  function OnAligning(w: World, c: Object, step: AlignStep, a: Answer): State {
    match step
    case ReadService(wanted) => OnReadService(w, c, wanted, a)
    case CreateService(t) => OnWriteService(w, c, t, false, a)
    case UpdateService(t) => OnWriteService(w, c, t, true, a)
    case ReadSecret(t, host, changed) => OnReadSecret(w, c, t, host, changed, a)
    case CreateSecret(t, host, changed) => OnWriteSecret(w, c, t, host, changed, false, a)
    case UpdateSecret(t, host) => OnWriteSecret(w, c, t, host, true, true, a)
  }

  function OnClosing(w: World, c: Object, step: CloseStep, a: Answer): State {
    match step
    case Finalize(changed) => OnFinalize(w, c, changed, a)
    case WriteReady => OnSetReady(w, c, a)
    case WriteError => OnError(w, c, a)
  }

  function OnDeleting(w: World, c: Object, step: DeleteStep, a: Answer): State {
    match step
    case ReadDropProvider => OnReadDropProvider(w, c, a)
    case ReadDropPassword(p, conn) => OnReadDropPassword(w, c, p, conn, a)
    case RunDrop(p, conn, op) => OnDrop(w, c, p, conn, op, a)
    case SaveDrop(done) => OnSaveDrop(w, c, done, a)
    case DelService(dropped) => OnDeleteService(w, c, dropped, a)
    case DelSecret(dropped) => OnDeleteSecret(w, c, dropped, a)
    case DelFinalizer(dropped) => OnRemoveFinalizer(w, c, dropped, a)
  }

  function OnCall(s: State, a: Answer): State {
    match s.pc
    case Idle => s
    case Reading => s
    case Adding(c) => OnAddFinalizer(s.w, c, a)
    case Seeding(c, step) => OnSeeding(s.w, c, step, a)
    case Placing(c, step) => OnPlacing(s.w, c, step, a)
    case Informing(c, step) => OnInforming(s.w, c, step, a)
    case Aligning(c, step) => OnAligning(s.w, c, step, a)
    case Closing(c, step) => OnClosing(s.w, c, step, a)
    case Deleting(c, step) => OnDeleting(s.w, c, step, a)
  }

  function Next(s: State, a: Action): State {
    match a
    case Env(e) => State(Happen(s.w, e), s.pc)
    case Begin => if s.pc.Idle? then State(Started(s.w), Reading) else s
    case Read(n) => if s.pc.Reading? && n in s.w.versions then AfterRead(s.w, s.w.versions[n]) else s
    case ReadFails => if s.pc.Reading? then State(s.w, Idle) else s
    case Call(answer) => OnCall(s, answer)
    case Restart => State(s.w, Idle)
  }

  function Run(s: State, actions: seq<Action>): State
    decreases |actions|
  {
    if actions == [] then s else Run(Next(s, actions[0]), actions[1..])
  }
}
