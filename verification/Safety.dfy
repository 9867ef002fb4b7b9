// The invariant of the reconcile machine, and that every action keeps it.
module Safety {
  import opened Common
  import opened Registry
  import opened Placement
  import opened SecretKeys
  import opened Cluster
  import opened Reconcile
  import Workers

  /** Stored objects */

  // No conditions; Ready=True without Error; or Ready=False with Error=True.
  predicate Exclusive(cs: Conditions) {
    cs.ready.Down? <==> cs.error.Some?
  }

  ghost predicate SyncedFor(synced: set<Sync>, uid: nat, generation: nat, spec: Spec) {
    exists y :: y in synced && y.uid == uid && y.generation == generation && y.spec == spec
  }

  ghost predicate ObjectOk(h: History, o: Object) {
    && Exclusive(o.status.conditions)
    && o.status.observedGeneration <= o.generation
    && (o.deleting ==> o.finalizer)
    && (Skips(o) ==> SyncedFor(h.synced, o.uid, o.generation, o.spec))
  }

  /** Records */

  // The credentials of t are the request's registry row on the server t names.
  ghost predicate Registered(w: World, t: Target) {
    && AddrOf(t.conn) in w.servers
    && Lookup(w.servers[AddrOf(t.conn)].rows, w.key) == Some(Credentials(t.info))
  }

  // The row itself, or one that stands in its way.
  ghost predicate RecordedOrRival(w: World, a: Addr, i: Info) {
    a in w.servers && Clashes(w.servers[a].rows, Row(w.key, i))
  }

  // A provider list the cluster has held, since lists[n] was current, has p under that name.
  ghost predicate ListedSince(w: World, n: nat, name: string, p: Provider) {
    exists k :: n <= k < |w.log.lists| && GetProvider(w.log.lists[k], name) == Some(p)
  }

  // The seed d of a request has its match there.
  ghost predicate MatchedSince(w: World, n: nat, q: Query, d: DbInfo, p: Provider, conn: Connection) {
    exists k :: n <= k < |w.log.lists| && SeedMatch(w.log.lists[k], q, d.hostName, d.port) == Some((p, conn))
  }

  function Sought(spec: Spec): Query {
    Query(spec.selector, spec.typ)
  }

  ghost predicate TargetOk(w: World, n: nat, spec: Spec, t: Target) {
    && spec.ref.Some? && spec.ref.value.provider == t.provider.name
    && t.info.hostName == t.conn.hostname && t.info.port == t.conn.port
    && (if t.seeded then
          && t.conn in t.provider.connections && spec.ref.value.connection == t.conn.name
          && MatchedSince(w, n, Sought(spec), t.info, t.provider, t.conn)
          && RecordedOrRival(w, AddrOf(t.conn), Credentials(t.info))
        else
          && ListedSince(w, n, t.provider.name, t.provider)
          && FindConnection(t.provider.connections, spec.ref.value.connection) == Some(t.conn)
          && Registered(w, t))
  }

  ghost predicate SyncOk(w: World, y: Sync) {
    && y.spec.seed.None? && TargetOk(w, y.since, y.spec, y.target)
    && y.host == y.target.info.hostName
    && y.data == GetSecretData(y.target.info, y.spec.name, y.spec.name)
  }

  // Another row stands in the way of a seed's row.
  ghost predicate Rival(rows: seq<Row>, row: Row) {
    exists other :: other in rows && other != row && Conflict(other, row)
  }

  ghost predicate SeedDeletionOk(w: World, x: SeedDeletion) {
    && DbInfoFromSeed(x.data) == Some(x.read)
    && x.read in w.history.pinged
    && MatchedSince(w, 0, Sought(x.spec), x.read, x.provider, x.conn)
    && (AddrOf(x.conn), Credentials(x.read)) in w.history.recorded
    && AddrOf(x.conn) in w.servers && x.rows <= w.servers[AddrOf(x.conn)].rows
    && Unique(x.rows)
    && Clashes(x.rows, Row(w.key, Credentials(x.read)))
  }

  // The drop the stored spec asks for.
  predicate NeedsDrop(spec: Spec) {
    spec.seed.None? && spec.dropOnDelete && Relational(spec.typ)
  }

  predicate ResolvedBy(ref: Ref, p: Provider, conn: Connection) {
    p.name == ref.provider && FindConnection(p.connections, ref.connection) == Some(conn)
  }

  // One of these lists has p under that name.
  predicate ListedIn(lists: seq<seq<Provider>>, name: string, p: Provider) {
    exists k :: 0 <= k < |lists| && GetProvider(lists[k], name) == Some(p)
  }

  // Service and Secret are gone but for what somebody else has put back; a drop that was asked for has been made
  // where the reference pointed at some moment of the pass.
  predicate RemovalOk(r: Removal) {
    && r.stored.deleting
    && (r.serviceGone <==> OwnedService(r.stored.spec.name) !in r.back)
    && (r.secretGone <==> OwnedSecret !in r.back)
    && (NeedsDrop(r.stored.spec) ==>
          && r.dropped.Some? && r.stored.spec.ref == Some(r.dropped.value.ref)
          && ListedIn(r.seen, r.dropped.value.ref.provider, r.dropped.value.provider)
          && ResolvedBy(r.dropped.value.ref, r.dropped.value.provider, r.dropped.value.conn)
          && r.databaseGone)
  }

  predicate SelectionOk(c: Object) {
    !c.deleting && c.spec.seed.None? && c.spec.ref.None? && Relational(c.spec.typ)
  }

  ghost predicate HistoryOk(w: World) {
    && (forall y :: y in w.history.synced ==> SyncOk(w, y))
    && (forall x :: x in w.history.seedDeletions ==> SeedDeletionOk(w, x))
    && (forall t :: t in w.history.recorded ==> RecordedOrRival(w, t.0, t.1))
    && (forall r :: r in w.history.removals ==> RemovalOk(r))
    && (forall c :: c in w.history.selections ==> SelectionOk(c))
  }

  ghost predicate VersionsOk(w: World) {
    && (forall n :: n in w.versions ==> w.versions[n].rv == n < w.clock && ObjectOk(w.history, w.versions[n]))
    && (w.request.Some? ==> w.request.value.rv in w.versions && w.versions[w.request.value.rv] == w.request.value)
  }

  ghost predicate ServersOk(w: World) {
    forall a :: a in w.servers ==> Unique(w.servers[a].rows)
  }

  predicate LogOk(w: World) {
    |w.log.lists| > 0 && w.log.lists[|w.log.lists| - 1] == w.providers && w.log.start < |w.log.lists|
  }

  ghost predicate WorldOk(w: World) {
    && VersionsOk(w) && ServersOk(w) && HistoryOk(w) && LogOk(w)
    && forall p :: p in w.providers ==> Relational(p.typ)
  }

  /** The in-memory copy at each program counter */

  ghost predicate Known(w: World, c: Object) {
    c.rv < w.clock && Exclusive(c.status.conditions) && c.status.observedGeneration <= c.generation
  }

  // As read: if the version is still the stored one, the copy equals it.
  ghost predicate Unmodified(w: World, c: Object) {
    Known(w, c) && (Current(w, c) ==> w.request.value == c)
  }

  // The reference may have been set and the seed cleared, but a settled placement is untouched.
  predicate Placed(stored: Spec, spec: Spec) {
    && spec == stored.(ref := spec.ref, seed := None)
    && (stored.seed.None? && stored.ref.Some? ==> spec == stored)
  }

  predicate SameMeta(o: Object, c: Object) {
    o.uid == c.uid && o.generation == c.generation && o.finalizer == c.finalizer && o.deleting == c.deleting
  }

  ghost predicate Moved(w: World, c: Object) {
    && Known(w, c) && !c.deleting && c.spec.seed.None? && c.spec.ref.Some?
    && (Current(w, c) ==>
          && SameMeta(w.request.value, c) && Placed(w.request.value.spec, c.spec)
          && w.request.value.status.conditions == c.status.conditions)
  }

  ghost predicate OpAt(w: World, c: Object, conn: Connection, op: Op) {
    && op.key == w.key && !Ended(op) && Relational(c.spec.typ)
    && (ServerFor(w, c.spec.typ, conn).Some? ==> OpOk(ServerFor(w, c.spec.typ, conn).value, op))
  }

  ghost predicate SeedOk(w: World, c: Object, step: SeedStep) {
    && Unmodified(w, c) && !c.deleting
    && match step
       case ReadSeed => true
       case PingSeed(data, d) => DbInfoFromSeed(data) == Some(d)
       case ListForSeed(data, d) => DbInfoFromSeed(data) == Some(d) && d in w.history.pinged
       case ReadSeedPassword(data, d, p, conn) => SeedMatched(w, c, data, d, p, conn)
       case RecordSeed(data, d, p, conn, op) =>
         SeedMatched(w, c, data, d, p, conn) && OpAt(w, c, conn, op) && op.task == Record(Credentials(d))
       case DeleteSeed(data, d, p, conn) =>
         && SeedMatched(w, c, data, d, p, conn)
         && (AddrOf(conn), Credentials(d)) in w.history.recorded
         && RecordedOrRival(w, AddrOf(conn), Credentials(d))
  }

  ghost predicate SeedMatched(
    w: World, c: Object, data: map<string, string>, d: DbInfo, p: Provider, conn: Connection)
  {
    && DbInfoFromSeed(data) == Some(d) && d in w.history.pinged
    && Relational(c.spec.typ) && MatchedSince(w, w.log.start, Sought(c.spec), d, p, conn)
  }

  // The request as stored, but for the placement in its status.
  ghost predicate StatusPlaced(w: World, c: Object) {
    Current(w, c) ==>
      var st := w.request.value.status;
      c == w.request.value.(status := st.(observedRef := c.status.observedRef, databaseInfo := c.status.databaseInfo))
  }

  ghost predicate PlaceOk(w: World, c: Object, step: PlaceStep) {
    && Known(w, c) && SelectionOk(c) && StatusPlaced(w, c)
    && match step
       case SelectProvider => Unmodified(w, c)
       case ReadCreatePassword(p, conn) => Unmodified(w, c) && FindConnection(p.connections, conn.name) == Some(conn)
       case RunCreate(p, conn, op) =>
         && Unmodified(w, c) && FindConnection(p.connections, conn.name) == Some(conn)
         && OpAt(w, c, conn, op) && op.task.Create?
       case SavePlacement(ref) => true
  }

  ghost predicate InfoOk(w: World, c: Object, step: InfoStep) {
    && Moved(w, c) && Relational(c.spec.typ) && c.status.observedRef == c.spec.ref
    && match step
       case ReadProvider => true
       case ReadPassword(p, conn) => ResolvedInPass(w, c.spec.ref.value, p, conn)
       case RunFetch(p, conn, op) =>
         ResolvedInPass(w, c.spec.ref.value, p, conn) && OpAt(w, c, conn, op) && op.task.Fetch?
  }

  // The pass read this provider, and the reference names its connection.
  ghost predicate ResolvedInPass(w: World, ref: Ref, p: Provider, conn: Connection) {
    ListedSince(w, w.log.start, ref.provider, p) && ResolvedBy(ref, p, conn)
  }

  ghost predicate AlignOk(w: World, c: Object, step: AlignStep) {
    && Moved(w, c) && c.status.observedRef == c.spec.ref
    && match step
       case ReadService(wanted) => wanted.Some? ==> TargetOk(w, w.log.start, c.spec, wanted.value)
       case CreateService(t) => TargetOk(w, w.log.start, c.spec, t)
       case UpdateService(t) => TargetOk(w, w.log.start, c.spec, t)
       case ReadSecret(t, host, _) => TargetOk(w, w.log.start, c.spec, t) && host == t.info.hostName
       case CreateSecret(t, host, _) => TargetOk(w, w.log.start, c.spec, t) && host == t.info.hostName
       case UpdateSecret(t, host) => TargetOk(w, w.log.start, c.spec, t) && host == t.info.hostName
  }

  ghost predicate CloseOk(w: World, c: Object, step: CloseStep) {
    && Known(w, c)
    && match step
       case Finalize(_) =>
         && Moved(w, c) && SyncedFor(w.history.synced, c.uid, c.generation, c.spec)
         && c.status.observedRef == c.spec.ref && c.status.observedGeneration == c.generation
       case WriteReady =>
         && c.status.conditions.ready.Up?
         && (Current(w, c) ==>
               && SameMeta(w.request.value, c) && w.request.value.spec == c.spec
               && (Skips(c) ==> SyncedFor(w.history.synced, c.uid, c.generation, c.spec)))
       case WriteError =>
         && c.status.conditions.ready.Down?
         && (Current(w, c) ==> w.request.value.generation == c.generation)
  }

  ghost predicate DroppedOk(w: World, x: Dropped) {
    && ResolvedInPass(w, x.ref, x.provider, x.conn)
    && AddrOf(x.conn) in w.servers && Gone(w.servers[AddrOf(x.conn)], w.key)
  }

  // In the second half of deleteDatabase.
  ghost predicate Cleaning(w: World, c: Object, dropped: Option<Dropped>) {
    && Known(w, c) && c.deleting
    && (NeedsDrop(c.spec) ==> dropped.Some?)
    && (dropped.Some? ==> DroppedOk(w, dropped.value))
    && (Current(w, c) ==>
          var o := w.request.value;
          && o.uid == c.uid && o.generation == c.generation && o.deleting
          && c.spec == o.spec.(ref := c.spec.ref)
          && (if dropped.Some? then o.spec.ref == Some(dropped.value.ref) && o.status.observedRef.None?
              else c.spec == o.spec))
  }

  ghost predicate DelOk(w: World, c: Object, step: DeleteStep) {
    && Known(w, c) && c.deleting
    && match step
       case ReadDropProvider => Unmodified(w, c) && NeedsDrop(c.spec) && c.spec.ref.Some?
       case ReadDropPassword(p, conn) =>
         Unmodified(w, c) && NeedsDrop(c.spec) && c.spec.ref.Some? && ResolvedInPass(w, c.spec.ref.value, p, conn)
       case RunDrop(p, conn, op) =>
         && Unmodified(w, c) && NeedsDrop(c.spec) && c.spec.ref.Some? && ResolvedInPass(w, c.spec.ref.value, p, conn)
         && OpAt(w, c, conn, op) && op.task.Drop?
       case SaveDrop(done) =>
         && NeedsDrop(c.spec) && c.spec.ref == Some(done.ref) && DroppedOk(w, done)
         && (Current(w, c) ==> c == w.request.value.(status := w.request.value.status.(observedRef := None)))
       case DelService(dropped) =>
         Cleaning(w, c, dropped) && (Current(w, c) ==> w.request.value.finalizer == c.finalizer)
       case DelSecret(dropped) =>
         && Cleaning(w, c, dropped) && Tracked(w, OwnedService(c.spec.name))
         && (Current(w, c) ==> w.request.value.finalizer == c.finalizer)
       case DelFinalizer(dropped) =>
         && Cleaning(w, c, dropped) && !c.finalizer
         && Tracked(w, OwnedService(c.spec.name)) && Tracked(w, OwnedSecret)
         && (Current(w, c) ==> w.request.value.finalizer)
  }

  predicate Present(w: World, x: Owned) {
    match x
    case OwnedService(name) => name in w.services
    case OwnedSecret => OwnSecret(w.key) in w.secrets
  }

  // Since the controller deleted it, it is there exactly when somebody else has put it back.
  predicate Tracked(w: World, x: Owned) {
    Present(w, x) <==> x in w.log.back
  }

  ghost predicate PcOk(w: World, pc: Pc) {
    match pc
    case Idle => true
    case Reading => true
    case Adding(c) => Known(w, c) && !c.deleting && (Current(w, c) ==> c == w.request.value.(finalizer := true))
    case Seeding(c, step) => SeedOk(w, c, step)
    case Placing(c, step) => PlaceOk(w, c, step)
    case Informing(c, step) => InfoOk(w, c, step)
    case Aligning(c, step) => AlignOk(w, c, step)
    case Closing(c, step) => CloseOk(w, c, step)
    case Deleting(c, step) => DelOk(w, c, step)
  }

  ghost predicate Inv(s: State) {
    WorldOk(s.w) && PcOk(s.w, s.pc)
  }

  // A cluster in which this request has not been seen yet.
  ghost predicate Init(s: State) {
    && s.pc.Idle? && s.w.request.None? && s.w.versions == map[]
    && s.w.history == History({}, {}, {}, {}, {}, {}) && s.w.log == Log([s.w.providers], 0, {})
    && ServersOk(s.w) && forall p :: p in s.w.providers ==> Relational(p.typ)
  }

  lemma InitInv(s: State)
    requires Init(s)
    ensures Inv(s)
  {
  }

  /** Outside moves */

  // What a server may have been through while the pass was not looking.
  ghost predicate Evolves(key: Key, s: Server, s': Server) {
    && s'.engine == s.engine && Unique(s'.rows) && s.rows <= s'.rows
    && (Gone(s, key) ==> Gone(s', key))
    && forall op: Op :: op.key == key && OpOk(s, op) ==> OpOk(s', op)
  }

  ghost predicate ServersEvolve(w: World, w': World) {
    && w'.servers.Keys == w.servers.Keys
    && forall a :: a in w.servers ==> Evolves(w.key, w.servers[a], w'.servers[a])
  }

  // The weaker fact that tables only grow, whoever writes.
  ghost predicate RowsGrow(w: World, w': World) {
    && w'.servers.Keys == w.servers.Keys
    && forall a :: a in w.servers ==>
         && w'.servers[a].engine == w.servers[a].engine
         && Unique(w'.servers[a].rows) && w.servers[a].rows <= w'.servers[a].rows
  }

  lemma EvolvingRowsGrow(w: World, w': World)
    requires ServersEvolve(w, w')
    ensures RowsGrow(w, w')
  {
  }

  ghost predicate Later(w: World, w': World) {
    && w'.key == w.key && w.clock <= w'.clock && w'.history == w.history
    && (w'.request == w.request || w'.request.None? || w'.request.value.rv >= w.clock)
    && ServersEvolve(w, w')
    && w'.log.start == w.log.start && w.log.lists <= w'.log.lists
    && forall x :: Tracked(w, x) ==> Tracked(w', x)
  }

  lemma EvolvesRefl(key: Key, s: Server)
    requires Unique(s.rows)
    ensures Evolves(key, s, s)
  {
  }

  // Other requests' statements are such moves; module Workers shows they satisfy OpOk.
  lemma OtherEvolves(key: Key, s: Server, other: Op)
    requires Unique(s.rows) && OpOk(s, other) && other.key != key
    ensures Evolves(key, s, Step(s, other).0)
  {
    var s' := Step(s, other).0;
    OwnStep(s, other);
    forall op: Op | op.key == key && OpOk(s, op) ensures OpOk(s', op) {
      OtherStep(s, op, other);
    }
    if Gone(s, key) {
      var i := Lookup(s.rows, key).value;
      var op := Op(Drop, key, i, Done, i);
      assert OpOk(s, op);
      assert OpOk(s', op);
    }
  }

  // Records stay true while servers evolve.
  lemma TargetStays(w: World, w': World, n: nat, spec: Spec, t: Target)
    requires TargetOk(w, n, spec, t) && w'.key == w.key && RowsGrow(w, w') && w.log.lists <= w'.log.lists
    ensures TargetOk(w', n, spec, t)
  {
  }

  predicate Extends(h: History, h': History) {
    && h.synced <= h'.synced && h.pinged <= h'.pinged && h.recorded <= h'.recorded
  }

  lemma SeedDeletionStays(w: World, w': World, x: SeedDeletion)
    requires SeedDeletionOk(w, x) && w'.key == w.key && RowsGrow(w, w') && w.log.lists <= w'.log.lists
    requires Extends(w.history, w'.history)
    ensures SeedDeletionOk(w', x)
  {
  }

  // What has been recorded stays true.
  lemma RecordsStay(w: World, w': World)
    requires HistoryOk(w) && w'.key == w.key && RowsGrow(w, w') && w.log.lists <= w'.log.lists
    requires Extends(w.history, w'.history)
    ensures forall y :: y in w.history.synced ==> SyncOk(w', y)
    ensures forall x :: x in w.history.seedDeletions ==> SeedDeletionOk(w', x)
    ensures forall t :: t in w.history.recorded ==> RecordedOrRival(w', t.0, t.1)
  {
    forall y | y in w.history.synced ensures SyncOk(w', y) {
      assert SyncOk(w, y);
      TargetStays(w, w', y.since, y.spec, y.target);
    }
    forall x | x in w.history.seedDeletions ensures SeedDeletionOk(w', x) {
      SeedDeletionStays(w, w', x);
    }
    forall t | t in w.history.recorded ensures RecordedOrRival(w', t.0, t.1) {
      RecordedStays(w, w', t.0, t.1);
    }
  }

  lemma HistoryStays(w: World, w': World)
    requires HistoryOk(w) && w'.key == w.key && w'.history == w.history && RowsGrow(w, w')
    requires w.log.lists <= w'.log.lists
    ensures HistoryOk(w')
  {
    RecordsStay(w, w');
  }

  lemma RecordedStays(w: World, w': World, a: Addr, i: Info)
    requires RecordedOrRival(w, a, i) && w'.key == w.key && RowsGrow(w, w')
    ensures RecordedOrRival(w', a, i)
  {
  }

  // A new version of the request.
  lemma StoreOk(w: World, o: Object)
    requires WorldOk(w) && ObjectOk(w.history, o)
    ensures WorldOk(Store(w, o))
    ensures Store(w, o).request.value.rv == w.clock
  {
  }

  lemma SameServers(w: World, w': World)
    requires ServersOk(w) && w'.servers == w.servers
    ensures ServersEvolve(w, w') && RowsGrow(w, w')
  {
  }

  lemma HappenKeeps(w: World, e: Outside)
    requires WorldOk(w)
    ensures WorldOk(Happen(w, e)) && Later(w, Happen(w, e))
  {
    if !Allowed(w, e) {
      LaterRefl(w);
    } else {
      match e
      case Apply(spec) => ApplyOk(w, spec);
      case Delete => DeleteOk(w);
      case OtherRequest(addr, op) => OtherRequestOk(w, addr, op);
      case _ => ObjectsOk(w, e);
    }
  }

  lemma ObjectsOk(w: World, e: Outside)
    requires WorldOk(w) && Allowed(w, e) && !e.Apply? && !e.Delete? && !e.OtherRequest?
    ensures WorldOk(Happen(w, e)) && Later(w, Happen(w, e))
  {
    SameServers(w, Happen(w, e));
    HistoryStays(w, Happen(w, e));
  }

  lemma OtherRequestOk(w: World, addr: Addr, op: Op)
    requires WorldOk(w) && Allowed(w, OtherRequest(addr, op))
    ensures var w' := Happen(w, OtherRequest(addr, op)); WorldOk(w') && Later(w, w')
  {
    var w' := Happen(w, OtherRequest(addr, op));
    forall a | a in w.servers ensures Evolves(w.key, w.servers[a], w'.servers[a]) {
      if a == addr {
        OtherEvolves(w.key, w.servers[a], op);
      } else {
        EvolvesRefl(w.key, w.servers[a]);
      }
    }
    EvolvingRowsGrow(w, w');
    HistoryStays(w, w');
  }

  lemma StoreLater(w: World, o: Object)
    requires WorldOk(w) && ObjectOk(w.history, o)
    ensures WorldOk(Store(w, o)) && Later(w, Store(w, o))
  {
  }

  lemma ForgetLater(w: World)
    requires WorldOk(w)
    ensures WorldOk(w.(request := None)) && Later(w, w.(request := None))
  {
  }

  lemma StoredObjectOk(w: World)
    requires WorldOk(w) && w.request.Some?
    ensures ObjectOk(w.history, w.request.value) && w.request.value.rv < w.clock
  {
  }

  // A new generation has not been observed yet.
  lemma NextGenerationOk(h: History, o: Object, o': Object)
    requires ObjectOk(h, o) && o'.status == o.status && o'.generation == o.generation + 1
    requires o'.deleting ==> o'.finalizer
    ensures ObjectOk(h, o')
  {
  }

  lemma ApplyOk(w: World, spec: Spec)
    requires WorldOk(w)
    ensures WorldOk(Happen(w, Apply(spec))) && Later(w, Happen(w, Apply(spec)))
  {
    var w' := Happen(w, Apply(spec));
    if w.request.None? {
      NewRequestOk(w, spec);
      assert w' == Store(w, Object(w.clock, 0, 1, false, false, spec, NO_STATUS));
    } else if w.request.value.spec == spec {
      LaterRefl(w);
      assert w' == w;
    } else {
      EditOk(w, spec);
      assert w' == Store(w, w.request.value.(spec := spec, generation := w.request.value.generation + 1));
    }
  }

  lemma EditOk(w: World, spec: Spec)
    requires WorldOk(w) && w.request.Some?
    ensures var w' := Store(w, w.request.value.(spec := spec, generation := w.request.value.generation + 1));
      WorldOk(w') && Later(w, w')
  {
    StoredObjectOk(w);
    NextVersionOk(w, w.request.value.(spec := spec, generation := w.request.value.generation + 1));
  }

  lemma MarkOk(w: World)
    requires WorldOk(w) && w.request.Some? && w.request.value.finalizer
    ensures var w' := Store(w, w.request.value.(deleting := true, generation := w.request.value.generation + 1));
      WorldOk(w') && Later(w, w')
  {
    StoredObjectOk(w);
    NextVersionOk(w, w.request.value.(deleting := true, generation := w.request.value.generation + 1));
  }

  lemma LaterRefl(w: World)
    requires WorldOk(w)
    ensures Later(w, w)
  {
    SameServers(w, w);
  }

  lemma NewRequestOk(w: World, spec: Spec)
    requires WorldOk(w)
    ensures var w' := Store(w, Object(w.clock, 0, 1, false, false, spec, NO_STATUS)); WorldOk(w') && Later(w, w')
  {
    StoreLater(w, Object(w.clock, 0, 1, false, false, spec, NO_STATUS));
  }

  // A new generation of the stored request.
  lemma NextVersionOk(w: World, o': Object)
    requires WorldOk(w) && w.request.Some? && o'.status == w.request.value.status
    requires o'.generation == w.request.value.generation + 1 && (o'.deleting ==> o'.finalizer)
    ensures WorldOk(Store(w, o')) && Later(w, Store(w, o'))
  {
    StoredObjectOk(w);
    NextGenerationOk(w.history, w.request.value, o');
    StoreLater(w, o');
  }

  lemma DeleteOk(w: World)
    requires WorldOk(w)
    ensures WorldOk(Happen(w, Delete)) && Later(w, Happen(w, Delete))
  {
    var w' := Happen(w, Delete);
    if w.request.None? || w.request.value.deleting {
      LaterRefl(w);
      assert w' == w;
    } else if w.request.value.finalizer {
      MarkOk(w);
      assert w' == Store(w, w.request.value.(deleting := true, generation := w.request.value.generation + 1));
    } else {
      ForgetLater(w);
      assert w' == w.(request := None);
    }
  }

  // What a pass relies on survives any outside move.
  lemma LaterKeepsOp(w: World, w': World, c: Object, conn: Connection, op: Op)
    requires OpAt(w, c, conn, op) && Later(w, w')
    ensures OpAt(w', c, conn, op)
  {
  }

  lemma LaterKeepsDropped(w: World, w': World, x: Dropped)
    requires DroppedOk(w, x) && Later(w, w')
    ensures DroppedOk(w', x)
  {
  }

  // The copies themselves: a version that is current afterwards was current before.
  lemma LaterKeepsCopy(w: World, w': World, c: Object)
    requires Known(w, c) && Later(w, w')
    ensures Known(w', c) && (Current(w', c) ==> Current(w, c) && w'.request == w.request)
    ensures Unmodified(w, c) ==> Unmodified(w', c)
    ensures Moved(w, c) ==> Moved(w', c)
  {
  }

  lemma LaterKeepsSeed(w: World, w': World, c: Object, step: SeedStep)
    requires SeedOk(w, c, step) && Later(w, w')
    ensures SeedOk(w', c, step)
  {
  }

  lemma LaterKeepsPlace(w: World, w': World, c: Object, step: PlaceStep)
    requires PlaceOk(w, c, step) && Later(w, w')
    ensures PlaceOk(w', c, step)
  {
  }

  lemma LaterKeepsInfo(w: World, w': World, c: Object, step: InfoStep)
    requires InfoOk(w, c, step) && Later(w, w')
    ensures InfoOk(w', c, step)
  {
  }

  lemma LaterKeepsAlign(w: World, w': World, c: Object, step: AlignStep)
    requires AlignOk(w, c, step) && Later(w, w')
    ensures AlignOk(w', c, step)
  {
    LaterKeepsCopy(w, w', c);
    EvolvingRowsGrow(w, w');
    if step.ReadService? {
      if step.wanted.Some? {
        TargetStays(w, w', w.log.start, c.spec, step.wanted.value);
      }
    } else {
      TargetStays(w, w', w.log.start, c.spec, step.target);
    }
  }

  lemma LaterKeepsClose(w: World, w': World, c: Object, step: CloseStep)
    requires CloseOk(w, c, step) && Later(w, w')
    ensures CloseOk(w', c, step)
  {
  }

  lemma LaterKeepsCleaning(w: World, w': World, c: Object, dropped: Option<Dropped>)
    requires Cleaning(w, c, dropped) && Later(w, w')
    ensures Cleaning(w', c, dropped)
  {
  }

  lemma LaterKeepsDelete(w: World, w': World, c: Object, step: DeleteStep)
    requires DelOk(w, c, step) && Later(w, w')
    ensures DelOk(w', c, step)
  {
    LaterKeepsCopy(w, w', c);
    match step
    case RunDrop(p, conn, op) => LaterKeepsOp(w, w', c, conn, op);
    case SaveDrop(done) => LaterKeepsDropped(w, w', done);
    case DelService(dropped) => LaterKeepsCleaning(w, w', c, dropped);
    case DelSecret(dropped) => LaterKeepsCleaning(w, w', c, dropped);
    case DelFinalizer(dropped) => LaterKeepsCleaning(w, w', c, dropped);
    case _ =>
  }

  lemma LaterKeepsPc(w: World, w': World, pc: Pc)
    requires PcOk(w, pc) && Later(w, w')
    ensures PcOk(w', pc)
  {
    match pc
    case Idle =>
    case Reading =>
    case Adding(c) => LaterKeepsCopy(w, w', c);
    case Seeding(c, step) => LaterKeepsSeed(w, w', c, step);
    case Placing(c, step) => LaterKeepsPlace(w, w', c, step);
    case Informing(c, step) => LaterKeepsInfo(w, w', c, step);
    case Aligning(c, step) => LaterKeepsAlign(w, w', c, step);
    case Closing(c, step) => LaterKeepsClose(w, w', c, step);
    case Deleting(c, step) => LaterKeepsDelete(w, w', c, step);
  }
}
