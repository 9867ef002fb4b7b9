// The world of one DatabaseRequest: the API server's objects, the providers, the
// database servers, and what the API calls of the controller do to them.
module Cluster {
  import opened Common
  import opened Registry
  import opened Placement
  import opened SecretKeys

  /** The request object */

  // DatabaseConnectionReference, by the two names the controller resolves it with.
  datatype Ref = Ref(provider: string, connection: string)

  datatype Spec = Spec(
    name: string, selector: string, typ: DbType, seed: Option<SecretRef>, ref: Option<Ref>, dropOnDelete: bool)

  // The error labels handed to handleError.
  datatype Cause =
    | AddFinalizer | InvalidSeed | HandleSeed | CreateDatabase | MissingReference | GetInfo | HandleService
    | HandleSecret
    | UpdateStatus | DropFailed | InvalidType | DeleteService | DeleteSecret | RemoveFinalizer

  datatype Reason = DatabaseRequestChanged | DatabaseRequestCreated

  // The conditions "Ready" and "Error".
  datatype Ready = Unset | Up(reason: Reason) | Down(cause: Cause)
  datatype Conditions = Conditions(ready: Ready, error: Option<Cause>)

  datatype Status = Status(
    conditions: Conditions, observedGeneration: nat, observedRef: Option<Ref>, databaseInfo: Option<(string, string)>)

  const NO_STATUS := Status(Conditions(Unset, None), 0, None, None)

  // rv is the resourceVersion.
  datatype Object = Object(
    uid: nat, rv: nat, generation: nat, finalizer: bool, deleting: bool, spec: Spec, status: Status)

  /** The world */

  datatype Addr = Addr(hostname: string, port: int)

  // What a pass works towards: the connection it resolved and the credentials for it.
  datatype Target = Target(info: DbInfo, provider: Provider, conn: Connection, seeded: bool)

  // A record that a pass brought Service and Secret into line: what it had read, what the Service and the
  // Secret held when it was done with each, and when it began, as an index into the provider lists held.
  datatype Sync = Sync(
    uid: nat, generation: nat, spec: Spec, target: Target, host: string, data: map<string, string>, since: nat)

  // The drop a deleting pass has completed.
  datatype Dropped = Dropped(ref: Ref, provider: Provider, conn: Connection)

  // What belongs to the request beside itself: the Services of its namespace go by their names.
  datatype Owned = OwnedService(name: string) | OwnedSecret

  // A write of the controller that removed the finalizer: the stored object it replaced and the facts of
  // that moment. seen are the provider lists the cluster had held since the pass began.
  datatype Removal = Removal(
    stored: Object, dropped: Option<Dropped>, seen: seq<seq<Provider>>, back: set<Owned>,
    serviceGone: bool, secretGone: bool, databaseGone: bool)

  // A deletion of a seed Secret by the controller.
  datatype SeedDeletion = SeedDeletion(
    spec: Spec, data: map<string, string>, read: DbInfo, contents: Option<map<string, string>>, provider: Provider,
    conn: Connection, rows: seq<Row>)

  // Auxiliary records of what others have done; nothing the controller does depends on them. lists are the
  // provider lists the cluster has held, the current one last; the pass in progress began when lists[start] was
  // current; back is what somebody else has put in place since the controller last deleted it and nobody has
  // removed again.
  datatype Log = Log(lists: seq<seq<Provider>>, start: nat, back: set<Owned>)

  // Auxiliary records of what the controller has done, likewise.
  datatype History = History(
    synced: set<Sync>,
    pinged: set<DbInfo>,
    recorded: set<(Addr, Info)>,
    seedDeletions: set<SeedDeletion>,
    removals: set<Removal>,
    selections: set<Object>)

  // versions holds every version of the request ever stored, which is what a stale cache may
  // return; services maps the Services of the request's namespace to their ExternalName.
  datatype World = World(
    key: Key,
    clock: nat,
    request: Option<Object>,
    versions: map<nat, Object>,
    services: map<string, string>,
    secrets: map<SecretRef, map<string, string>>,
    providers: seq<Provider>,
    servers: map<Addr, Server>,
    log: Log,
    history: History)

  function OwnSecret(key: Key): SecretRef {
    SecretRef(key.name, key.namespace)
  }

  function AddrOf(conn: Connection): Addr {
    Addr(conn.hostname, conn.port)
  }

  function Credentials(d: DbInfo): Info {
    Info(d.userName, d.password, d.database)
  }

  predicate Relational(typ: DbType) {
    typ.MySqlType? || typ.PostgresType?
  }

  function EngineOf(typ: DbType): Engine {
    if typ.MySqlType? then MySql else Postgres
  }

  // The server at the connection's host and port is there, and it is of the request's type.
  predicate Speaks(w: World, typ: DbType, conn: Connection) {
    var a := Addr(conn.hostname, conn.port);
    && a in w.servers
    && match typ
       case MySqlType => w.servers[a].engine.MySql?
       case PostgresType => w.servers[a].engine.Postgres?
       case MariaDbType => false
       case MongoDbType => false
  }

  // The server behind a connection, if there is one that speaks the request's type.
  function ServerFor(w: World, typ: DbType, conn: Connection): (r: Option<Server>)
    ensures typ.MySqlType? || typ.PostgresType? ==> (r.Some? <==> Speaks(w, typ, conn))
    ensures r.Some? ==> Addr(conn.hostname, conn.port) in w.servers
    ensures r.Some? ==> r.value == w.servers[Addr(conn.hostname, conn.port)]
  {
    var a := AddrOf(conn);
    if a in w.servers && w.servers[a].engine == EngineOf(typ) then Some(w.servers[a]) else None
  }

  // The provider of that name; providers are cluster-scoped.
  function GetProvider(ps: seq<Provider>, name: string): (r: Option<Provider>)
    ensures r.Some? ==> r.value in ps && r.value.name == name
    ensures r.None? <==> forall p :: p in ps ==> p.name != name
  {
    if ps == [] then None else if ps[0].name == name then Some(ps[0]) else GetProvider(ps[1..], name)
  }

  // The connection the reference names now.
  function Referred(w: World, spec: Spec): Option<Connection> {
    ReferredIn(w.providers, spec)
  }

  // The one it names in such a list.
  function ReferredIn(ps: seq<Provider>, spec: Spec): Option<Connection> {
    if spec.ref.None? then None
    else
      match GetProvider(ps, spec.ref.value.provider)
      case None => None
      case Some(p) => FindConnection(p.connections, spec.ref.value.connection)
  }

  // A pass begins.
  function Started(w: World): World {
    w.(log := w.log.(start := if w.log.lists == [] then 0 else |w.log.lists| - 1))
  }

  // The Secret of a connection has a password that is not empty.
  predicate HasPassword(w: World, conn: Connection) {
    && conn.passwordSecretRef in w.secrets && "password" in w.secrets[conn.passwordSecretRef]
    && |w.secrets[conn.passwordSecretRef]["password"]| > 0
  }

  // What the controller reads of it.
  function PasswordOf(w: World, conn: Connection): (r: Option<string>)
    ensures r.Some? <==> HasPassword(w, conn)
    ensures r.Some? ==> r.value == w.secrets[conn.passwordSecretRef]["password"]
  {
    var r := conn.passwordSecretRef;
    if r !in w.secrets || "password" !in w.secrets[r] || w.secrets[r]["password"] == "" then None
    else Some(w.secrets[r]["password"])
  }

  /** API calls on the request */

  // Ok; Refused without effect; or Lost: it took effect but the caller sees an error or dies first.
  datatype Fault = Ok | Refused | Lost

  // The version the API server stores next.
  function Store(w: World, o: Object): World {
    var o' := o.(rv := w.clock);
    w.(clock := w.clock + 1, request := Some(o'), versions := w.versions[w.clock := o'])
  }

  predicate Current(w: World, c: Object) {
    w.request.Some? && w.request.value.rv == c.rv
  }

  // A false dropDatabaseOnDelete is left out of what the client sends, and the CRD's default for it is true.
  function Sent(spec: Spec): Spec {
    spec.(dropOnDelete := true)
  }

  function Updated(o: Object, c: Object): Object {
    o.(spec := Sent(c.spec), finalizer := c.finalizer,
       generation := if Sent(c.spec) == o.spec then o.generation else o.generation + 1)
  }

  // Update writes spec and metadata. The generation grows exactly when the spec changed, an update
  // that changes nothing stores no version, and an object being deleted goes with its last finalizer.
  function Update(w: World, c: Object): Result<World> {
    if !Current(w, c) then Failure
    else
      var o := w.request.value;
      var o' := Updated(o, c);
      if o' == o then Success(w)
      else if o.deleting && !c.finalizer then Success(w.(request := None))
      else Success(Store(w, o'))
  }

  // Status().Update writes the status alone.
  function UpdateStatusOf(w: World, c: Object): Result<World> {
    if !Current(w, c) then Failure
    else
      var o' := w.request.value.(status := c.status);
      if o' == w.request.value then Success(w) else Success(Store(w, o'))
  }

  // A write under a fault: the world it leaves and whether the caller sees success.
  function Write(w: World, r: Result<World>, fault: Fault): (World, bool) {
    if r.Failure? || fault.Refused? then (w, false) else (r.value, fault.Ok?)
  }

  // Which status fields of the in-memory copy survive the decoding of an Update's response.
  datatype Keep = Keep(conditions: bool, observedGeneration: bool, observedRef: bool, databaseInfo: bool)

  function Decoded(c: Object, o: Object, keep: Keep): Object {
    o.(status := Status(
      if keep.conditions then c.status.conditions else o.status.conditions,
      if keep.observedGeneration then c.status.observedGeneration else o.status.observedGeneration,
      if keep.observedRef then c.status.observedRef else o.status.observedRef,
      if keep.databaseInfo then c.status.databaseInfo else o.status.databaseInfo))
  }

  /** What others may do */

  // Outside actors: users and other controllers, and this controller's own workers for other requests,
  // whose statements on the shared servers are any that module Workers allows them.
  datatype Outside =
    | Apply(spec: Spec)                                     // create the request or edit its spec
    | Delete                                                // mark it deleted
    | PutSecret(ref: SecretRef, data: map<string, string>)
    | RemoveSecret(ref: SecretRef)
    | PutService(name: string, host: string)                // another request with that Spec.Name does so too
    | RemoveService(name: string)
    | SetProviders(providers: seq<Provider>)
    | OtherRequest(addr: Addr, op: Op)

  // The CRD admits only mysql and postgres providers.
  predicate Allowed(w: World, e: Outside) {
    match e
    case SetProviders(ps) => forall p :: p in ps ==> Relational(p.typ)
    case OtherRequest(addr, op) => addr in w.servers && op.key != w.key && OpOk(w.servers[addr], op)
    case _ => true
  }

  function Back(log: Log, x: Owned): Log {
    log.(back := log.back + {x})
  }

  function Away(log: Log, x: Owned): Log {
    log.(back := log.back - {x})
  }

  function Happen(w: World, e: Outside): World {
    if !Allowed(w, e) then w
    else
      match e
      case Apply(spec) =>
        (match w.request
         case None => Store(w, Object(w.clock, 0, 1, false, false, spec, NO_STATUS))
         case Some(o) => if o.spec == spec then w else Store(w, o.(spec := spec, generation := o.generation + 1)))
      case Delete =>
        (match w.request
         case None => w
         case Some(o) =>
           if o.deleting then w
           else if o.finalizer then Store(w, o.(deleting := true, generation := o.generation + 1))
           else w.(request := None))
      case PutSecret(ref, data) =>
        w.(secrets := w.secrets[ref := data],
           log := if ref == OwnSecret(w.key) then Back(w.log, OwnedSecret) else w.log)
      case RemoveSecret(ref) =>
        w.(secrets := w.secrets - {ref}, log := if ref == OwnSecret(w.key) then Away(w.log, OwnedSecret) else w.log)
      case PutService(name, host) => w.(services := w.services[name := host], log := Back(w.log, OwnedService(name)))
      case RemoveService(name) => w.(services := w.services - {name}, log := Away(w.log, OwnedService(name)))
      case SetProviders(ps) => w.(providers := ps, log := w.log.(lists := w.log.lists + [ps]))
      case OtherRequest(addr, op) => w.(servers := w.servers[addr := Step(w.servers[addr], op).0])
  }
}
