// Every step of the controller keeps the invariant, phase by phase.
module SafetySteps {
  import opened Common
  import opened Registry
  import opened Placement
  import opened SecretKeys
  import opened Cluster
  import opened Reconcile
  import opened Safety

  /** Writes to the request */

  // Everything but the request and its versions is untouched.
  predicate OnlyRequest(w: World, w': World) {
    && w'.key == w.key && w'.services == w.services && w'.secrets == w.secrets && w'.providers == w.providers
    && w'.servers == w.servers && w'.log == w.log && w'.history == w.history && w.clock <= w'.clock
  }

  lemma UpdateOk(w: World, c: Object)
    requires WorldOk(w) && Update(w, c).Success?
    ensures var w' := Update(w, c).value; var o := w.request.value;
      && Current(w, c) && WorldOk(w') && OnlyRequest(w, w')
      && (w' == w
          || (w'.request.None? && o.deleting && !c.finalizer)
          || (w'.request == Some(Updated(o, c).(rv := w.clock)) && w'.clock == w.clock + 1))
      && (w' == w ==> o.spec == Sent(c.spec) && o.finalizer == c.finalizer)
  {
    var o := w.request.value;
    if Updated(o, c) == o {
    } else if o.deleting && !c.finalizer {
      ForgetLater(w);
    } else {
      UpdatedOk(w, o, Sent(c.spec), c.finalizer);
      StoreOk(w, Updated(o, c));
    }
  }

  lemma UpdatedOk(w: World, o: Object, spec: Spec, finalizer: bool)
    requires WorldOk(w) && w.request == Some(o) && (o.deleting ==> finalizer)
    ensures ObjectOk(w.history, o.(spec := spec, finalizer := finalizer,
                                   generation := if spec == o.spec then o.generation else o.generation + 1))
  {
  }

  // The status a controller may store over the version it holds.
  ghost predicate StatusOk(w: World, c: Object) {
    Current(w, c) ==>
      var o := w.request.value;
      && Exclusive(c.status.conditions) && c.status.observedGeneration <= o.generation
      && (Skips(o.(status := c.status)) ==> SyncedFor(w.history.synced, o.uid, o.generation, o.spec))
  }

  lemma UpdateStatusOk(w: World, c: Object)
    requires WorldOk(w) && StatusOk(w, c) && UpdateStatusOf(w, c).Success?
    ensures var w' := UpdateStatusOf(w, c).value; var o := w.request.value;
      && Current(w, c) && WorldOk(w') && OnlyRequest(w, w')
      && ((w' == w && o.status == c.status)
          || (w'.request == Some(o.(status := c.status, rv := w.clock)) && w'.clock == w.clock + 1))
  {
    var o' := w.request.value.(status := c.status);
    if o' != w.request.value {
      StoreOk(w, o');
    }
  }

  // handleError can follow anything that kept the copy's generation in step.
  lemma FailOk(w: World, c: Object, cause: Cause)
    requires WorldOk(w) && Known(w, c) && (Current(w, c) ==> w.request.value.generation == c.generation)
    ensures Inv(Fail(w, c, cause))
  {
  }

  // A write whose outcome the caller does not see leaves a stale copy or the same world.
  lemma AfterLostWrite(w: World, w': World, c: Object)
    requires WorldOk(w') && Known(w, c) && OnlyRequest(w, w')
    requires w' == w || w'.request.None? || w'.request.value.rv == w.clock
    requires Current(w, c) ==> w.request.value.generation == c.generation
    ensures Known(w', c) && (Current(w', c) ==> w'.request.value.generation == c.generation)
  {
  }

  /** Between calls */

  lemma InformOk(w: World, c: Object)
    requires WorldOk(w) && Moved(w, c)
    ensures Inv(Inform(w, c))
  {
  }

  lemma ProceedOk(w: World, c: Object)
    requires WorldOk(w) && Unmodified(w, c) && !c.deleting
    ensures Inv(Proceed(w, c))
  {
    if !Skips(c) && c.spec.seed.None? {
      if c.spec.ref.Some? {
        assert Moved(w, c);
        InformOk(w, c);
      } else if c.spec.typ.MongoDbType? {
        FailOk(w, c, MissingReference);
      } else if c.spec.typ.MariaDbType? {
        FailOk(w, c, Cause.CreateDatabase);
      }
    }
  }

  lemma StartDeleteOk(w: World, c: Object)
    requires WorldOk(w) && Unmodified(w, c) && c.deleting
    ensures Inv(StartDelete(w, c))
  {
    if NeedsDrop(c.spec) {
      if c.spec.ref.None? {
        FailOk(w, c, DropFailed);
      }
    } else if c.spec.seed.None? && c.spec.dropOnDelete && c.spec.typ.MariaDbType? {
      FailOk(w, c, InvalidType);
    } else {
      assert Cleaning(w, c, None);
    }
  }

  lemma AfterReadOk(w: World, n: nat)
    requires WorldOk(w) && n in w.versions
    ensures Inv(AfterRead(w, w.versions[n]))
  {
    var c := w.versions[n];
    assert ObjectOk(w.history, c) && c.rv == n < w.clock;
    assert Unmodified(w, c);
    if c.deleting {
      StartDeleteOk(w, c);
    } else if c.finalizer {
      ProceedOk(w, c);
    }
  }

  lemma AddFinalizerOk(w: World, c: Object, a: Answer)
    requires WorldOk(w) && PcOk(w, Adding(c))
    ensures Inv(OnAddFinalizer(w, c, a))
  {
    var r := Update(w, c);
    var (w', ok) := Write(w, r, a.fault);
    if r.Success? {
      UpdateOk(w, c);
    }
    if !ok {
      AfterLostWrite(w, w', c);
      FailOk(w', c, AddFinalizer);
    } else if w'.request.Some? {
      var c' := Decoded(c, w'.request.value, a.keep);
      assert c' == w'.request.value;
      StoredObjectOk(w');
      ProceedOk(w', c');
    }
  }

  /** SQL statements */

  // Everything but the servers is untouched, and their tables only grew.
  ghost predicate OnlyServers(w: World, w': World) {
    w' == w.(servers := w'.servers) && RowsGrow(w, w')
  }

  lemma SqlOk(w: World, c: Object, conn: Connection, op: Op, fault: Fault)
    requires WorldOk(w) && OpAt(w, c, conn, op)
    ensures var (w', r) := Sql(w, c.spec.typ, conn, op, fault);
      && WorldOk(w') && OnlyServers(w, w')
      && (r.Some? ==>
            && r.value.task == op.task && r.value.key == op.key
            && AddrOf(conn) in w'.servers && OpOk(w'.servers[AddrOf(conn)], r.value)
            && (!r.value.pc.Done? ==> OpAt(w', c, conn, r.value)))
  {
    var (w', r) := Sql(w, c.spec.typ, conn, op, fault);
    var s := ServerFor(w, c.spec.typ, conn);
    SameServers(w, w);
    if s.Some? && !fault.Refused? {
      OwnStep(s.value, op);
      StatementOk(w, AddrOf(conn), Step(s.value, op).0);
    }
  }

  lemma StatementOk(w: World, a: Addr, s: Server)
    requires WorldOk(w) && a in w.servers && s.engine == w.servers[a].engine
    requires Unique(s.rows) && w.servers[a].rows <= s.rows
    ensures var w' := w.(servers := w.servers[a := s]); WorldOk(w') && OnlyServers(w, w')
  {
    var w' := w.(servers := w.servers[a := s]);
    assert RowsGrow(w, w');
    HistoryStays(w, w');
  }

  // A statement does not concern the copy.
  lemma SqlKeepsCopy(w: World, w': World, c: Object)
    requires OnlyServers(w, w')
    ensures Unmodified(w, c) ==> Unmodified(w', c)
    ensures Moved(w, c) ==> Moved(w', c)
    ensures Known(w, c) == Known(w', c) && Current(w, c) == Current(w', c)
  {
  }

  /** Records */

  // Recording something true keeps everything true.
  lemma RecordOk(w: World, h: History)
    requires WorldOk(w) && Extends(w.history, h) && HistoryOk(w.(history := h))
    ensures WorldOk(w.(history := h))
  {
  }

  /** handleSeed */

  lemma ReadSeedOk(w: World, c: Object, a: Answer)
    requires WorldOk(w) && SeedOk(w, c, ReadSeed)
    ensures Inv(OnReadSeed(w, c, a))
  {
  }

  lemma PingSeedOk(w: World, c: Object, data: map<string, string>, d: DbInfo, a: Answer)
    requires WorldOk(w) && SeedOk(w, c, PingSeed(data, d))
    ensures Inv(OnPingSeed(w, c, data, d, a))
  {
    FailOk(w, c, HandleSeed);
    FailOk(w, c, InvalidSeed);
    PingRecordOk(w, d);
  }

  lemma PingRecordOk(w: World, d: DbInfo)
    requires WorldOk(w)
    ensures WorldOk(w.(history := w.history.(pinged := w.history.pinged + {d})))
  {
    var h := w.history.(pinged := w.history.pinged + {d});
    SameServers(w, w.(history := h));
    RecordsStay(w, w.(history := h));
    RecordOk(w, h);
  }

  lemma ListForSeedOk(w: World, c: Object, data: map<string, string>, d: DbInfo, a: Answer)
    requires WorldOk(w) && SeedOk(w, c, ListForSeed(data, d))
    ensures Inv(OnListForSeed(w, c, data, d, a))
  {
  }

  lemma ReadSeedPasswordOk(
    w: World, c: Object, data: map<string, string>, d: DbInfo, p: Provider, conn: Connection, a: Answer)
    requires WorldOk(w) && SeedOk(w, c, ReadSeedPassword(data, d, p, conn))
    ensures Inv(OnReadSeedPassword(w, c, data, d, p, conn, a))
  {
    FailOk(w, c, HandleSeed);
    if ServerFor(w, c.spec.typ, conn).Some? {
      StartOk(ServerFor(w, c.spec.typ, conn).value, Record(Credentials(d)), w.key, Credentials(d));
    }
  }

  lemma RecordSeedOk(
    w: World, c: Object, data: map<string, string>, d: DbInfo, p: Provider, conn: Connection, op: Op, a: Answer)
    requires WorldOk(w) && SeedOk(w, c, RecordSeed(data, d, p, conn, op))
    ensures Inv(OnRecordSeed(w, c, data, d, p, conn, op, a))
  {
    var (w', r) := Sql(w, c.spec.typ, conn, op, a.fault);
    SqlOk(w, c, conn, op, a.fault);
    SqlKeepsCopy(w, w', c);
    if r.None? {
      FailOk(w', c, HandleSeed);
    } else if r.value.pc.Done? {
      var h := w'.history.(recorded := w'.history.recorded + {(AddrOf(conn), Credentials(d))});
      assert RecordedOrRival(w', AddrOf(conn), Credentials(d));
      RecordedRecordOk(w', AddrOf(conn), Credentials(d));
    }
  }

  lemma RecordedRecordOk(w: World, addr: Addr, i: Info)
    requires WorldOk(w) && RecordedOrRival(w, addr, i)
    ensures WorldOk(w.(history := w.history.(recorded := w.history.recorded + {(addr, i)})))
  {
    var h := w.history.(recorded := w.history.recorded + {(addr, i)});
    SameServers(w, w.(history := h));
    RecordsStay(w, w.(history := h));
    RecordedStays(w, w.(history := h), addr, i);
    RecordOk(w, h);
  }

  lemma SeedDeletionRecordOk(w: World, x: SeedDeletion)
    requires WorldOk(w) && SeedDeletionOk(w, x)
    ensures WorldOk(w.(history := w.history.(seedDeletions := w.history.seedDeletions + {x})))
  {
    var h := w.history.(seedDeletions := w.history.seedDeletions + {x});
    SameServers(w, w.(history := h));
    RecordsStay(w, w.(history := h));
    SeedDeletionStays(w, w.(history := h), x);
    RecordOk(w, h);
  }

  // Services and Secrets do not appear in the world's invariant.
  lemma ObjectsChange(w: World, w': World)
    requires WorldOk(w) && w' == w.(services := w'.services, secrets := w'.secrets, log := w.log.(back := w'.log.back))
    ensures WorldOk(w')
  {
    SameServers(w, w');
    HistoryStays(w, w');
  }

  lemma DeleteSeedOk(
    w: World, c: Object, data: map<string, string>, d: DbInfo, p: Provider, conn: Connection, a: Answer)
    requires WorldOk(w) && SeedOk(w, c, DeleteSeed(data, d, p, conn))
    ensures Inv(OnDeleteSeed(w, c, data, d, p, conn, a))
  {
    if c.spec.seed.None? || c.spec.seed.value !in w.secrets || a.fault.Refused? {
      FailOk(w, c, HandleSeed);
    } else {
      var ref := c.spec.seed.value;
      var addr := AddrOf(conn);
      var gone := SeedDeletion(c.spec, data, d, Some(w.secrets[ref]), p, conn, w.servers[addr].rows);
      var w1 := w.(secrets := w.secrets - {ref});
      ObjectsChange(w, w1);
      assert SeedDeletionOk(w1, gone);
      SeedDeletionRecordOk(w1, gone);
      var w2 := w1.(history := w1.history.(seedDeletions := w1.history.seedDeletions + {gone}));
      if a.fault.Lost? {
        FailOk(w2, c, HandleSeed);
      } else {
        assert MatchedSince(w2, w2.log.start, Sought(c.spec), d, p, conn);
        SeedPlacedOk(w2, c, d, p, conn);
      }
    }
  }

  lemma SeedPlacedOk(w: World, c: Object, d: DbInfo, p: Provider, conn: Connection)
    requires WorldOk(w) && Unmodified(w, c) && !c.deleting && c.spec.seed.Some?
    requires MatchedSince(w, w.log.start, Sought(c.spec), d, p, conn)
    requires RecordedOrRival(w, AddrOf(conn), Credentials(d))
    ensures AlignOk(w, SeedPlaced(c, Ref(p.name, conn.name)), ReadService(Some(Target(d, p, conn, true))))
  {
  }

  lemma SeedingOk(w: World, c: Object, step: SeedStep, a: Answer)
    requires WorldOk(w) && SeedOk(w, c, step)
    ensures Inv(OnSeeding(w, c, step, a))
  {
    match step
    case ReadSeed => ReadSeedOk(w, c, a);
    case PingSeed(data, d) => PingSeedOk(w, c, data, d, a);
    case ListForSeed(data, d) => ListForSeedOk(w, c, data, d, a);
    case ReadSeedPassword(data, d, p, conn) => ReadSeedPasswordOk(w, c, data, d, p, conn, a);
    case RecordSeed(data, d, p, conn, op) => RecordSeedOk(w, c, data, d, p, conn, op, a);
    case DeleteSeed(data, d, p, conn) => DeleteSeedOk(w, c, data, d, p, conn, a);
  }

  /** createDatabase */

  lemma SelectionRecordOk(w: World, c: Object)
    requires WorldOk(w) && SelectionOk(c)
    ensures WorldOk(w.(history := w.history.(selections := w.history.selections + {c})))
  {
  }

  lemma SelectOk(w: World, c: Object, a: Answer)
    requires WorldOk(w) && PlaceOk(w, c, SelectProvider)
    ensures Inv(OnSelect(w, c, a))
  {
    SelectionRecordOk(w, c);
    var w' := w.(history := w.history.(selections := w.history.selections + {c}));
    FailOk(w, c, Cause.CreateDatabase);
    FailOk(w', c, Cause.CreateDatabase);
  }

  lemma CreateOk(w: World, c: Object, p: Provider, conn: Connection, op: Op, a: Answer)
    requires WorldOk(w) && PlaceOk(w, c, RunCreate(p, conn, op))
    ensures Inv(OnCreate(w, c, p, conn, op, a))
  {
    var (w', r) := Sql(w, c.spec.typ, conn, op, a.fault);
    SqlOk(w, c, conn, op, a.fault);
    SqlKeepsCopy(w, w', c);
    if r.None? {
      FailOk(w', c, Cause.CreateDatabase);
    }
  }

  lemma SavePlacementOk(w: World, c: Object, ref: Ref, a: Answer)
    requires WorldOk(w) && PlaceOk(w, c, SavePlacement(ref))
    ensures Inv(OnSavePlacement(w, c, ref, a))
  {
    var r := UpdateStatusOf(w, c);
    var (w', ok) := Write(w, r, a.fault);
    if r.Success? {
      StoredObjectOk(w);
      UpdateStatusOk(w, c);
    }
    if !ok {
      AfterLostWrite(w, w', c);
      FailOk(w', c, Cause.CreateDatabase);
    } else {
      StoredObjectOk(w');
      InformOk(w', w'.request.value.(spec := w'.request.value.spec.(ref := Some(ref))));
    }
  }

  lemma PlacingOk(w: World, c: Object, step: PlaceStep, a: Answer)
    requires WorldOk(w) && PlaceOk(w, c, step)
    ensures Inv(OnPlacing(w, c, step, a))
  {
    match step
    case SelectProvider => SelectOk(w, c, a);
    case ReadCreatePassword(p, conn) =>
      FailOk(w, c, Cause.CreateDatabase);
      if ServerFor(w, c.spec.typ, conn).Some? {
        StartOk(ServerFor(w, c.spec.typ, conn).value, Task.Create(conn.username), w.key, a.drawn);
      }
    case RunCreate(p, conn, op) => CreateOk(w, c, p, conn, op, a);
    case SavePlacement(ref) => SavePlacementOk(w, c, ref, a);
  }

  /** relDBInfo */

  lemma FetchOk(w: World, c: Object, p: Provider, conn: Connection, op: Op, a: Answer)
    requires WorldOk(w) && InfoOk(w, c, RunFetch(p, conn, op))
    ensures Inv(OnFetch(w, c, p, conn, op, a))
  {
    var (w', r) := Sql(w, c.spec.typ, conn, op, a.fault);
    SqlOk(w, c, conn, op, a.fault);
    SqlKeepsCopy(w, w', c);
    if r.None? {
      FailOk(w', c, GetInfo);
    } else if r.value.pc.Done? {
      var i := r.value.info;
      assert Credentials(DbInfo(i.dbname, conn.hostname, i.username, i.password, conn.port)) == i;
    }
  }

  lemma ReadPasswordOk(w: World, c: Object, p: Provider, conn: Connection, a: Answer)
    requires WorldOk(w) && InfoOk(w, c, ReadPassword(p, conn))
    ensures Inv(OnReadPassword(w, c, p, conn, a))
  {
    FailOk(w, c, GetInfo);
    if ServerFor(w, c.spec.typ, conn).Some? {
      StartOk(ServerFor(w, c.spec.typ, conn).value, Fetch, w.key, a.drawn);
    }
  }

  lemma InformingOk(w: World, c: Object, step: InfoStep, a: Answer)
    requires WorldOk(w) && InfoOk(w, c, step)
    ensures Inv(OnInforming(w, c, step, a))
  {
    match step
    case ReadProvider => FailOk(w, c, GetInfo);
    case ReadPassword(p, conn) => ReadPasswordOk(w, c, p, conn, a);
    case RunFetch(p, conn, op) => FetchOk(w, c, p, conn, op, a);
  }

  /** handleService and handleSecret */

  lemma AlignedOk(w: World, c: Object, t: Target, host: string, changed: bool)
    requires c.status.observedRef == c.spec.ref
    requires WorldOk(w) && Moved(w, c) && TargetOk(w, w.log.start, c.spec, t) && host == t.info.hostName
    requires OwnSecret(w.key) in w.secrets && w.secrets[OwnSecret(w.key)] == SecretDataFor(c, t)
    ensures Inv(Aligned(w, c, t, host, changed))
  {
    var sync := Sync(c.uid, c.generation, c.spec, t, host, w.secrets[OwnSecret(w.key)], w.log.start);
    SyncRecordOk(w, sync);
    var w' := w.(history := w.history.(synced := w.history.synced + {sync}));
    FinalizeNext(w', c, sync, changed);
  }

  lemma FinalizeNext(w: World, c: Object, sync: Sync, changed: bool)
    requires c.status.observedRef == c.spec.ref
    requires Moved(w, c) && sync in w.history.synced
    requires sync.uid == c.uid && sync.generation == c.generation && sync.spec == c.spec
    ensures CloseOk(w, c.(status := c.status.(observedGeneration := c.generation)), Finalize(changed))
  {
  }

  lemma SyncRecordOk(w: World, sync: Sync)
    requires WorldOk(w) && SyncOk(w, sync)
    ensures WorldOk(w.(history := w.history.(synced := w.history.synced + {sync})))
  {
    var h := w.history.(synced := w.history.synced + {sync});
    SameServers(w, w.(history := h));
    RecordsStay(w, w.(history := h));
    TargetStays(w, w.(history := h), sync.since, sync.spec, sync.target);
    RecordOk(w, h);
  }

  lemma WriteServiceOk(w: World, c: Object, t: Target, update: bool, a: Answer)
    requires c.status.observedRef == c.spec.ref
    requires WorldOk(w) && Moved(w, c) && TargetOk(w, w.log.start, c.spec, t)
    ensures Inv(OnWriteService(w, c, t, update, a))
  {
    var w' := w.(services := w.services[c.spec.name := t.info.hostName]);
    if a.fault.Refused? || (c.spec.name in w.services) != update {
      FailOk(w, c, HandleService);
    } else {
      ObjectsChange(w, w');
      if a.fault.Lost? {
        FailOk(w', c, HandleService);
      } else {
        SameServers(w, w');
        TargetStays(w, w', w.log.start, c.spec, t);
      }
    }
  }

  lemma WriteSecretOk(w: World, c: Object, t: Target, host: string, changed: bool, update: bool, a: Answer)
    requires c.status.observedRef == c.spec.ref
    requires WorldOk(w) && Moved(w, c) && TargetOk(w, w.log.start, c.spec, t) && host == t.info.hostName
    ensures Inv(OnWriteSecret(w, c, t, host, changed, update, a))
  {
    var w' := w.(secrets := w.secrets[OwnSecret(w.key) := SecretDataFor(c, t)]);
    if a.fault.Refused? || (OwnSecret(w.key) in w.secrets) != update {
      FailOk(w, c, Cause.HandleSecret);
    } else {
      SecretWritten(w, c, t);
      if a.fault.Lost? {
        FailOk(w', c, Cause.HandleSecret);
      } else {
        AlignedOk(w', c, t, host, changed || update);
      }
    }
  }

  lemma SecretWritten(w: World, c: Object, t: Target)
    requires WorldOk(w) && Moved(w, c) && TargetOk(w, w.log.start, c.spec, t)
    ensures var w' := w.(secrets := w.secrets[OwnSecret(w.key) := SecretDataFor(c, t)]);
      WorldOk(w') && Moved(w', c) && TargetOk(w', w'.log.start, c.spec, t)
  {
    var w' := w.(secrets := w.secrets[OwnSecret(w.key) := SecretDataFor(c, t)]);
    ObjectsChange(w, w');
    SameServers(w, w');
    TargetStays(w, w', w.log.start, c.spec, t);
  }

  lemma ReadSecretOk(w: World, c: Object, t: Target, host: string, changed: bool, a: Answer)
    requires WorldOk(w) && AlignOk(w, c, ReadSecret(t, host, changed))
    ensures Inv(OnReadSecret(w, c, t, host, changed, a))
  {
    FailOk(w, c, Cause.HandleSecret);
    if OwnSecret(w.key) in w.secrets && w.secrets[OwnSecret(w.key)] == SecretDataFor(c, t) {
      AlignedOk(w, c, t, host, changed);
    }
  }

  lemma AligningOk(w: World, c: Object, step: AlignStep, a: Answer)
    requires WorldOk(w) && AlignOk(w, c, step)
    ensures Inv(OnAligning(w, c, step, a))
  {
    match step
    case ReadService(wanted) => FailOk(w, c, HandleService);
    case CreateService(t) => WriteServiceOk(w, c, t, false, a);
    case UpdateService(t) => WriteServiceOk(w, c, t, true, a);
    case ReadSecret(t, host, changed) => ReadSecretOk(w, c, t, host, changed, a);
    case CreateSecret(t, host, changed) => WriteSecretOk(w, c, t, host, changed, false, a);
    case UpdateSecret(t, host) => WriteSecretOk(w, c, t, host, true, true, a);
  }

  /** The last writes */

  lemma FinalizeOk(w: World, c: Object, changed: bool, a: Answer)
    requires WorldOk(w) && CloseOk(w, c, Finalize(changed))
    ensures Inv(OnFinalize(w, c, changed, a))
  {
    var (w', ok) := Write(w, Update(w, c), a.fault);
    UpdateEnds(w, c, a.fault);
    if !ok || w'.request.None? {
      assert OnFinalize(w, c, changed, a) == State(w', Idle);
    } else {
      FinalizeSucceeds(w, w', c, changed, a);
      FinalizeGoesOn(w, c, changed, a);
    }
  }

  lemma FinalizeGoesOn(w: World, c: Object, changed: bool, a: Answer)
    ensures var (w', ok) := Write(w, Update(w, c), a.fault);
      var reason := if changed then DatabaseRequestChanged else DatabaseRequestCreated;
      ok && w'.request.Some? ==>
        || OnFinalize(w, c, changed, a) == State(w', Idle)
        || OnFinalize(w, c, changed, a)
             == State(w', Closing(SetReady(Decoded(c, w'.request.value, a.keep), reason), WriteReady))
  {
  }

  lemma UpdateEnds(w: World, c: Object, fault: Fault)
    requires WorldOk(w)
    ensures WorldOk(Write(w, Update(w, c), fault).0)
  {
    if Update(w, c).Success? {
      UpdateOk(w, c);
    }
  }

  lemma FinalizeSucceeds(w: World, w': World, c: Object, changed: bool, a: Answer)
    requires WorldOk(w) && CloseOk(w, c, Finalize(changed)) && Update(w, c) == Success(w') && w'.request.Some?
    ensures var reason := if changed then DatabaseRequestChanged else DatabaseRequestCreated;
      CloseOk(w', SetReady(Decoded(c, w'.request.value, a.keep), reason), WriteReady)
  {
    UpdateOk(w, c);
    StoredObjectOk(w);
    StoredObjectOk(w');
    DecodedOk(w, w', c, a.keep, if changed then DatabaseRequestChanged else DatabaseRequestCreated);
  }

  // The generation may have moved on from the one the pass observed; then the pass does not claim it.
  lemma DecodedOk(w: World, w': World, c: Object, keep: Keep, reason: Reason)
    requires WorldOk(w') && w.request.Some? && w'.request.Some? && w'.history == w.history
    requires ObjectOk(w.history, w.request.value) && ObjectOk(w'.history, w'.request.value)
    requires w'.request.value.rv < w'.clock
    requires var o, o' := w.request.value, w'.request.value;
      && o'.status == o.status && o'.spec == Sent(c.spec) && o'.uid == c.uid && o.generation == c.generation
      && o'.generation == (if Sent(c.spec) == o.spec then o.generation else o.generation + 1)
      && Placed(o.spec, c.spec)
    requires Exclusive(c.status.conditions) && c.status.observedGeneration <= c.generation
    requires SyncedFor(w.history.synced, c.uid, c.generation, c.spec)
    ensures CloseOk(w', SetReady(Decoded(c, w'.request.value, keep), reason), WriteReady)
  {
  }

  lemma SetReadyOk(w: World, c: Object, a: Answer)
    requires WorldOk(w) && CloseOk(w, c, WriteReady)
    ensures Inv(OnSetReady(w, c, a))
  {
    var r := UpdateStatusOf(w, c);
    var (w', ok) := Write(w, r, a.fault);
    if r.Success? {
      UpdateStatusOk(w, c);
    }
    if !ok {
      AfterLostWrite(w, w', c);
      FailOk(w', c, UpdateStatus);
    }
  }

  lemma ErrorOk(w: World, c: Object, a: Answer)
    requires WorldOk(w) && CloseOk(w, c, WriteError)
    ensures Inv(OnError(w, c, a))
  {
    if UpdateStatusOf(w, c).Success? {
      UpdateStatusOk(w, c);
    }
  }

  lemma ClosingOk(w: World, c: Object, step: CloseStep, a: Answer)
    requires WorldOk(w) && CloseOk(w, c, step)
    ensures Inv(OnClosing(w, c, step, a))
  {
    match step
    case Finalize(changed) => FinalizeOk(w, c, changed, a);
    case WriteReady => SetReadyOk(w, c, a);
    case WriteError => ErrorOk(w, c, a);
  }

  /** deleteDatabase */

  lemma DropOk(w: World, c: Object, p: Provider, conn: Connection, op: Op, a: Answer)
    requires WorldOk(w) && DelOk(w, c, RunDrop(p, conn, op))
    ensures Inv(OnDrop(w, c, p, conn, op, a))
  {
    var (w', r) := Sql(w, c.spec.typ, conn, op, a.fault);
    SqlOk(w, c, conn, op, a.fault);
    SqlKeepsCopy(w, w', c);
    if r.None? {
      FailOk(w', c, DropFailed);
    } else if r.value.pc.Done? {
      DoneMeansGone(w'.servers[AddrOf(conn)], r.value);
      var x := Dropped(c.spec.ref.value, p, conn);
      assert DroppedOk(w', x);
      SaveDropNext(w', c, x);
    }
  }

  lemma DoneMeansGone(s: Server, op: Op)
    requires OpOk(s, op) && op.pc.Done? && op.task.Drop?
    ensures Gone(s, op.key)
  {
  }

  lemma SaveDropNext(w: World, c: Object, x: Dropped)
    requires Unmodified(w, c) && c.deleting && NeedsDrop(c.spec) && c.spec.ref == Some(x.ref) && DroppedOk(w, x)
    ensures DelOk(w, c.(status := c.status.(observedRef := None)), SaveDrop(x))
  {
  }

  lemma SaveDropOk(w: World, c: Object, done: Dropped, a: Answer)
    requires WorldOk(w) && DelOk(w, c, SaveDrop(done))
    ensures Inv(OnSaveDrop(w, c, done, a))
  {
    var r := UpdateStatusOf(w, c);
    var (w', ok) := Write(w, r, a.fault);
    SaveDropStatusOk(w, c, done);
    if !ok {
      StatusWriteFails(w, c, a.fault, DropFailed);
    } else {
      SaveDropSucceeds(w, w', c, done);
    }
  }

  lemma SaveDropSucceeds(w: World, w': World, c: Object, done: Dropped)
    requires WorldOk(w) && DelOk(w, c, SaveDrop(done)) && StatusOk(w, c) && UpdateStatusOf(w, c) == Success(w')
    ensures WorldOk(w') && w'.request.Some?
    ensures var o := w'.request.value; DelOk(w', o.(spec := o.spec.(ref := None)), DelService(Some(done)))
  {
    UpdateStatusOk(w, c);
    StoredObjectOk(w');
    DelServiceNext(w, w', c, done);
  }

  // A status write that does not succeed ends in handleError.
  lemma StatusWriteFails(w: World, c: Object, fault: Fault, cause: Cause)
    requires WorldOk(w) && StatusOk(w, c) && Known(w, c)
    requires Current(w, c) ==> w.request.value.generation == c.generation
    requires !Write(w, UpdateStatusOf(w, c), fault).1
    ensures Inv(Fail(Write(w, UpdateStatusOf(w, c), fault).0, c, cause))
  {
    var w' := Write(w, UpdateStatusOf(w, c), fault).0;
    if UpdateStatusOf(w, c).Success? {
      UpdateStatusOk(w, c);
    }
    AfterLostWrite(w, w', c);
    FailOk(w', c, cause);
  }

  lemma SaveDropStatusOk(w: World, c: Object, done: Dropped)
    requires WorldOk(w) && DelOk(w, c, SaveDrop(done))
    ensures StatusOk(w, c)
  {
  }

  lemma DelServiceNext(w: World, w': World, c: Object, done: Dropped)
    requires DelOk(w, c, SaveDrop(done)) && Current(w, c) && OnlyRequest(w, w') && w'.request.Some?
    requires ObjectOk(w'.history, w'.request.value) && w'.request.value.rv < w'.clock
    requires w'.request == Some(w.request.value.(status := c.status, rv := w'.request.value.rv))
    ensures var o := w'.request.value; DelOk(w', o.(spec := o.spec.(ref := None)), DelService(Some(done)))
  {
    assert ResolvedInPass(w', done.ref, done.provider, done.conn);
  }

  lemma DeleteServiceOk(w: World, c: Object, dropped: Option<Dropped>, a: Answer)
    requires WorldOk(w) && DelOk(w, c, DelService(dropped))
    ensures Inv(OnDeleteService(w, c, dropped, a))
  {
    if a.fault.Refused? {
      FailOk(w, c, Cause.DeleteService);
    } else {
      var w' := w.(services := w.services - {c.spec.name}, log := Away(w.log, OwnedService(c.spec.name)));
      ObjectsChange(w, w');
      if a.fault.Lost? {
        FailOk(w', c, Cause.DeleteService);
      } else {
        CleaningStays(w, w', c, dropped);
      }
    }
  }

  // Deleting what the request owns does not touch what the pass has done before.
  lemma CleaningStays(w: World, w': World, c: Object, dropped: Option<Dropped>)
    requires Cleaning(w, c, dropped)
    requires w' == w.(services := w'.services, secrets := w'.secrets, log := w.log.(back := w'.log.back))
    ensures Cleaning(w', c, dropped)
  {
  }

  lemma DeleteSecretOk(w: World, c: Object, dropped: Option<Dropped>, a: Answer)
    requires WorldOk(w) && DelOk(w, c, DelSecret(dropped))
    ensures Inv(OnDeleteSecret(w, c, dropped, a))
  {
    if a.fault.Refused? {
      FailOk(w, c, Cause.DeleteSecret);
    } else {
      var w' := w.(secrets := w.secrets - {OwnSecret(w.key)}, log := Away(w.log, OwnedSecret));
      ObjectsChange(w, w');
      if a.fault.Lost? {
        FailOk(w', c, Cause.DeleteSecret);
      } else if c.finalizer {
        DelFinalizerNext(w, c, dropped);
      }
    }
  }

  lemma DelFinalizerNext(w: World, c: Object, dropped: Option<Dropped>)
    requires DelOk(w, c, DelSecret(dropped)) && c.finalizer
    ensures DelOk(w.(secrets := w.secrets - {OwnSecret(w.key)}, log := Away(w.log, OwnedSecret)),
                  c.(finalizer := false), DelFinalizer(dropped))
  {
    var w' := w.(secrets := w.secrets - {OwnSecret(w.key)}, log := Away(w.log, OwnedSecret));
    CleaningStays(w, w', c, dropped);
    assert Cleaning(w', c.(finalizer := false), dropped);
  }

  lemma RemovalRecordOk(w: World, r: Removal)
    requires WorldOk(w) && RemovalOk(r)
    ensures WorldOk(w.(history := w.history.(removals := w.history.removals + {r})))
  {
  }

  lemma RemoveFinalizerOk(w: World, c: Object, dropped: Option<Dropped>, a: Answer)
    requires WorldOk(w) && DelOk(w, c, DelFinalizer(dropped))
    ensures Inv(OnRemoveFinalizer(w, c, dropped, a))
  {
    var r := Update(w, c);
    var (w', ok) := Write(w, r, a.fault);
    if r.Success? {
      UpdateOk(w, c);
    }
    if w.request.Some? && w' != w {
      var x := RemovalOf(w, w.request.value, dropped);
      RemovalIsOk(w, c, dropped);
      RemovalRecordOk(w', x);
      var w'' := w'.(history := w'.history.(removals := w'.history.removals + {x}));
      assert !Current(w'', c);
      FailOk(w'', c, Cause.RemoveFinalizer);
    } else if !ok {
      FailOk(w', c, Cause.RemoveFinalizer);
    }
  }

  // What the finalizer-removing write finds.
  lemma RemovalIsOk(w: World, c: Object, dropped: Option<Dropped>)
    requires DelOk(w, c, DelFinalizer(dropped)) && Current(w, c)
    ensures RemovalOk(RemovalOf(w, w.request.value, dropped))
  {
    if NeedsDrop(w.request.value.spec) {
      var x := dropped.value;
      var n := w.log.start;
      var k :| n <= k < |w.log.lists| && GetProvider(w.log.lists[k], x.ref.provider) == Some(x.provider);
      assert w.log.lists[n..][k - n] == w.log.lists[k];
    }
  }

  lemma ReadDropPasswordOk(w: World, c: Object, p: Provider, conn: Connection, a: Answer)
    requires WorldOk(w) && DelOk(w, c, ReadDropPassword(p, conn))
    ensures Inv(OnReadDropPassword(w, c, p, conn, a))
  {
    FailOk(w, c, DropFailed);
    if ServerFor(w, c.spec.typ, conn).Some? {
      StartOk(ServerFor(w, c.spec.typ, conn).value, Drop, w.key, a.drawn);
    }
  }

  lemma ReadDropProviderOk(w: World, c: Object, a: Answer)
    requires WorldOk(w) && DelOk(w, c, ReadDropProvider)
    ensures Inv(OnReadDropProvider(w, c, a))
  {
    FailOk(w, c, DropFailed);
  }

  lemma DeletingOk(w: World, c: Object, step: DeleteStep, a: Answer)
    requires WorldOk(w) && DelOk(w, c, step)
    ensures Inv(OnDeleting(w, c, step, a))
  {
    match step
    case ReadDropProvider => ReadDropProviderOk(w, c, a);
    case ReadDropPassword(p, conn) => ReadDropPasswordOk(w, c, p, conn, a);
    case RunDrop(p, conn, op) => DropOk(w, c, p, conn, op, a);
    case SaveDrop(done) => SaveDropOk(w, c, done, a);
    case DelService(dropped) => DeleteServiceOk(w, c, dropped, a);
    case DelSecret(dropped) => DeleteSecretOk(w, c, dropped, a);
    case DelFinalizer(dropped) => RemoveFinalizerOk(w, c, dropped, a);
  }

  /** Every action, every run */

  lemma CallOk(s: State, a: Answer)
    requires Inv(s)
    ensures Inv(OnCall(s, a))
  {
    if s.pc.Seeding? || s.pc.Placing? || s.pc.Informing? || s.pc.Aligning? {
      ProvisioningOk(s, a);
    } else {
      OtherCallOk(s, a);
    }
  }

  lemma OtherCallOk(s: State, a: Answer)
    requires Inv(s) && !s.pc.Seeding? && !s.pc.Placing? && !s.pc.Informing? && !s.pc.Aligning?
    ensures Inv(OnCall(s, a))
  {
    match s.pc
    case Idle =>
    case Reading =>
    case Adding(c) => AddFinalizerOk(s.w, c, a);
    case Closing(c, step) => ClosingOk(s.w, c, step, a);
    case Deleting(c, step) => DeletingOk(s.w, c, step, a);
  }

  lemma ProvisioningOk(s: State, a: Answer)
    requires Inv(s) && (s.pc.Seeding? || s.pc.Placing? || s.pc.Informing? || s.pc.Aligning?)
    ensures Inv(OnCall(s, a))
  {
    match s.pc
    case Seeding(c, step) => SeedingOk(s.w, c, step, a);
    case Placing(c, step) => PlacingOk(s.w, c, step, a);
    case Informing(c, step) => InformingOk(s.w, c, step, a);
    case Aligning(c, step) => AligningOk(s.w, c, step, a);
  }

  lemma StartedOk(w: World)
    requires WorldOk(w)
    ensures WorldOk(Started(w))
  {
    SameServers(w, Started(w));
    HistoryStays(w, Started(w));
  }

  lemma EnvOk(s: State, e: Outside)
    requires Inv(s)
    ensures Inv(State(Happen(s.w, e), s.pc))
  {
    HappenKeeps(s.w, e);
    LaterKeepsPc(s.w, Happen(s.w, e), s.pc);
  }

  lemma ReadOk(s: State, n: nat)
    requires Inv(s)
    ensures Inv(Next(s, Read(n)))
  {
    if s.pc.Reading? && n in s.w.versions {
      AfterReadOk(s.w, n);
    }
  }

  lemma NextOk(s: State, a: Action)
    requires Inv(s)
    ensures Inv(Next(s, a))
  {
    match a
    case Env(e) => EnvOk(s, e);
    case Begin => StartedOk(s.w);
    case Read(n) => ReadOk(s, n);
    case ReadFails =>
    case Call(answer) => CallOk(s, answer);
    case Restart =>
  }

  // Every reachable state satisfies the invariant, whatever outside actors, faults, stale reads and restarts
  // the run contains.
  lemma {:induction false} RunOk(s: State, actions: seq<Action>)
    requires Inv(s)
    ensures Inv(Run(s, actions))
    decreases |actions|
  {
    if actions == [] {
    } else {
      NextOk(s, actions[0]);
      RunOk(Next(s, actions[0]), actions[1..]);
    }
  }
}
