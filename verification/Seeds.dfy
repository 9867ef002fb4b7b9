// The credentials a seed brings with it are never lost: they are in the seed's Secret until they are in the registry.
module Seeds {
  import opened Common
  import opened Registry
  import opened Placement
  import opened SecretKeys
  import opened Cluster
  import opened Reconcile
  import opened Safety
  import opened SafetySteps
  import opened Guarantees

  // Which Secrets a call of the controller may change: its own, or a seed's once.
  lemma SecretsTouched(s: State, a: Answer, r: SecretRef)
    requires Inv(s) && r != OwnSecret(s.w.key)
    ensures SecretEffect(s, OnCall(s, a), r)
  {
    match s.pc
    case Idle =>
    case Reading =>
    case Adding(c) => AddingSecrets(s.w, c, a, r);
    case Seeding(c, step) => SeedingSecrets(s.w, c, step, a, r);
    case Placing(c, step) => PlacingSecrets(s.w, c, step, a, r);
    case Informing(c, step) => InformingSecrets(s.w, c, step, a, r);
    case Aligning(c, step) => AligningSecrets(s.w, c, step, a, r);
    case Closing(c, step) => ClosingSecrets(s.w, c, step, a, r);
    case Deleting(c, step) => DeletingSecrets(s.w, c, step, a, r);
  }

  predicate SecretEffect(s: State, s': State, r: SecretRef) {
    && (r in s'.w.secrets ==> r in s.w.secrets && s'.w.secrets[r] == s.w.secrets[r])
    && (r in s.w.secrets && r !in s'.w.secrets ==>
          s.pc.Seeding? && s.pc.seed.DeleteSeed? && s.pc.c.spec.seed == Some(r))
  }

  lemma AddingSecrets(w: World, c: Object, a: Answer, r: SecretRef)
    ensures SecretEffect(State(w, Adding(c)), OnAddFinalizer(w, c, a), r)
  {
  }

  lemma SeedingSecrets(w: World, c: Object, step: SeedStep, a: Answer, r: SecretRef)
    ensures SecretEffect(State(w, Seeding(c, step)), OnSeeding(w, c, step, a), r)
  {
  }

  lemma PlacingSecrets(w: World, c: Object, step: PlaceStep, a: Answer, r: SecretRef)
    ensures SecretEffect(State(w, Placing(c, step)), OnPlacing(w, c, step, a), r)
  {
  }

  lemma InformingSecrets(w: World, c: Object, step: InfoStep, a: Answer, r: SecretRef)
    ensures SecretEffect(State(w, Informing(c, step)), OnInforming(w, c, step, a), r)
  {
  }

  lemma AligningSecrets(w: World, c: Object, step: AlignStep, a: Answer, r: SecretRef)
    requires r != OwnSecret(w.key)
    ensures SecretEffect(State(w, Aligning(c, step)), OnAligning(w, c, step, a), r)
  {
  }

  lemma ClosingSecrets(w: World, c: Object, step: CloseStep, a: Answer, r: SecretRef)
    ensures SecretEffect(State(w, Closing(c, step)), OnClosing(w, c, step, a), r)
  {
  }

  lemma DeletingSecrets(w: World, c: Object, step: DeleteStep, a: Answer, r: SecretRef)
    requires r != OwnSecret(w.key)
    ensures SecretEffect(State(w, Deleting(c, step)), OnDeleting(w, c, step, a), r)
  {
    match step
    case RunDrop(p, conn, op) => DropSecrets(w, c, p, conn, op, a);
    case DelFinalizer(dropped) => RemovalSecrets(w, c, dropped, a);
    case _ =>
  }

  lemma DropSecrets(w: World, c: Object, p: Provider, conn: Connection, op: Op, a: Answer)
    ensures OnDrop(w, c, p, conn, op, a).w.secrets == w.secrets
  {
  }

  lemma RemovalSecrets(w: World, c: Object, dropped: Option<Dropped>, a: Answer)
    ensures OnRemoveFinalizer(w, c, dropped, a).w.secrets == w.secrets
  {
  }

  /** Every deletion of a seed */

  // Of the rows of a table none but this one has its key, its user name or its database name.
  predicate StandsAlone(rows: seq<Row>, row: Row) {
    forall other :: other in rows && Shares(other, row) ==> other == row
  }

  predicate Shares(a: Row, b: Row) {
    a.key == b.key || a.info.username == b.info.username || a.info.dbname == b.info.dbname
  }

  // The entries of a seed's Secret, as credentials.
  function Entries(data: map<string, string>): Info
    requires {"username", "password", "database"} <= data.Keys
  {
    Info(data["username"], data["password"], data["database"])
  }

  // What holds of a deletion from then on: the pass had read the seed from the Secret, pinged its database, matched it
  // with an enabled connection of a provider list of the cluster, and recorded it there; the request's row on
  // that server is what was read exactly if no other row stands in the way.
  ghost predicate Recorded(w: World, x: SeedDeletion) {
    && {"database", "hostname", "username", "password", "port"} <= x.data.Keys
    && x.data["hostname"] == x.conn.hostname && Atoi(x.data["port"]) == Some(x.conn.port)
    && RecordedAs(w, x, Entries(x.data))
    && DbInfoFromSeed(x.data) == Some(x.read) && x.read in w.history.pinged
    && MatchedSince(w, 0, Sought(x.spec), x.read, x.provider, x.conn)
    && x.provider.selector == x.spec.selector && x.provider.typ == x.spec.typ && x.conn in x.provider.connections
    && x.conn.enabled && x.conn.hostname == x.read.hostName && x.conn.port == x.read.port
    && (AddrOf(x.conn), Credentials(x.read)) in w.history.recorded
    && AddrOf(x.conn) in w.servers
    && var rows := w.servers[AddrOf(x.conn)].rows;
       Lookup(rows, w.key) == Some(Credentials(x.read)) <==> !Rival(rows, Row(w.key, Credentials(x.read)))
  }

  // The row of the request is i exactly if no other row stands in the way.
  predicate RecordedAs(w: World, x: SeedDeletion, i: Info) {
    && (Addr(x.conn.hostname, x.conn.port), i) in w.history.recorded
    && Addr(x.conn.hostname, x.conn.port) in w.servers
    && var rows := w.servers[Addr(x.conn.hostname, x.conn.port)].rows;
       Row(w.key, i) in rows <==> StandsAlone(rows, Row(w.key, i))
  }

  lemma AloneIff(rows: seq<Row>, row: Row)
    ensures StandsAlone(rows, row) <==> !Rival(rows, row)
  {
  }

  lemma DeletionRecorded(w: World, x: SeedDeletion)
    requires WorldOk(w) && x in w.history.seedDeletions
    ensures Recorded(w, x)
  {
    assert SeedDeletionOk(w, x);
    var rows := w.servers[AddrOf(x.conn)].rows;
    ClashesStays(x.rows, rows, Row(w.key, Credentials(x.read)));
    RowsHold(w, AddrOf(x.conn), Credentials(x.read));
    RivalOrRow(rows, Row(w.key, Credentials(x.read)));
    AloneIff(rows, Row(w.key, Credentials(x.read)));
  }

  lemma SeedConserved(s: State, actions: seq<Action>, x: SeedDeletion)
    requires Init(s) && x in Run(s, actions).w.history.seedDeletions
    ensures Recorded(Run(s, actions).w, x)
  {
    Reachable(s, actions);
    DeletionRecorded(Run(s, actions).w, x);
  }

  /** Over whole runs */

  // Nobody else writes to or removes this Secret.
  predicate Unedited(r: SecretRef, a: Action) {
    a.Env? ==> !(a.e.PutSecret? && a.e.ref == r) && !(a.e.RemoveSecret? && a.e.ref == r)
  }

  // What a pass has read of the seed.
  predicate HasRead(step: SeedStep, contents: map<string, string>) {
    match step
    case ReadSeed => true
    case PingSeed(data, _) => data == contents
    case ListForSeed(data, _) => data == contents
    case ReadSeedPassword(data, _, _, _) => data == contents
    case RecordSeed(data, _, _, _, _) => data == contents
    case DeleteSeed(data, _, _, _) => data == contents
  }

  // The Secret has these contents while it is there, and a pass that handles it has read them.
  predicate Faithful(s: State, r: SecretRef, contents: map<string, string>) {
    && (r in s.w.secrets ==> s.w.secrets[r] == contents)
    && (s.pc.Seeding? && s.pc.c.spec.seed == Some(r) ==> HasRead(s.pc.seed, contents))
  }

  // It has been deleted as it was read.
  ghost predicate DeletedAsRead(w: World, r: SecretRef, contents: map<string, string>, x: SeedDeletion) {
    && x in w.history.seedDeletions && x.spec.seed == Some(r)
    && x.contents == Some(contents) && x.data == contents
  }

  ghost predicate Safe(w: World, r: SecretRef, contents: map<string, string>) {
    r in w.secrets || exists x :: DeletedAsRead(w, r, contents, x)
  }

  lemma SeedingFaithful(w: World, c: Object, step: SeedStep, a: Answer, r: SecretRef, contents: map<string, string>)
    requires Faithful(State(w, Seeding(c, step)), r, contents)
    ensures Faithful(OnSeeding(w, c, step, a), r, contents)
  {
  }

  lemma CallFaithful(s: State, a: Answer, r: SecretRef, contents: map<string, string>)
    requires Inv(s) && r != OwnSecret(s.w.key) && Faithful(s, r, contents)
    ensures Faithful(OnCall(s, a), r, contents)
  {
    SecretsTouched(s, a, r);
    if s.pc.Seeding? {
      SeedingFaithful(s.w, s.pc.c, s.pc.seed, a, r, contents);
    } else {
      SeedingBegins(s, a);
    }
  }

  // Every pass over a seed begins by reading it.
  lemma SeedingBegins(s: State, a: Answer)
    requires !s.pc.Seeding?
    ensures OnCall(s, a).pc.Seeding? ==> OnCall(s, a).pc.seed.ReadSeed?
  {
  }

  lemma CallSafe(s: State, a: Answer, r: SecretRef, contents: map<string, string>)
    requires Inv(s) && r != OwnSecret(s.w.key) && Faithful(s, r, contents) && Safe(s.w, r, contents)
    ensures Safe(OnCall(s, a).w, r, contents)
  {
    var w' := OnCall(s, a).w;
    CallLists(s, a);
    if x :| DeletedAsRead(s.w, r, contents, x) {
      assert DeletedAsRead(w', r, contents, x);
    } else if r !in w'.secrets {
      var x := SeedDeletionRecorded(s, a, r);
      assert DeletedAsRead(w', r, contents, x);
    }
  }

  // The call that removes a seed Secret records that it did, with what the pass had read and what was there.
  lemma SeedDeletionRecorded(s: State, a: Answer, r: SecretRef) returns (x: SeedDeletion)
    requires Inv(s) && r != OwnSecret(s.w.key) && r in s.w.secrets && r !in OnCall(s, a).w.secrets
    ensures s.pc.Seeding? && s.pc.seed.DeleteSeed? && s.pc.c.spec.seed == Some(r)
    ensures x in OnCall(s, a).w.history.seedDeletions && x.spec == s.pc.c.spec
    ensures x.contents == Some(s.w.secrets[r]) && x.data == s.pc.seed.data && x.read == s.pc.seed.d
  {
    SecretsTouched(s, a, r);
    x := DeletionAdded(s.w, s.pc.c, s.pc.seed, a, r);
  }

  lemma DeletionAdded(w: World, c: Object, step: SeedStep, a: Answer, r: SecretRef) returns (x: SeedDeletion)
    requires step.DeleteSeed? && c.spec.seed == Some(r) && r in w.secrets && r !in OnSeeding(w, c, step, a).w.secrets
    ensures x in OnSeeding(w, c, step, a).w.history.seedDeletions && x.spec == c.spec
    ensures x.contents == Some(w.secrets[r]) && x.data == step.data && x.read == step.d
  {
    var DeleteSeed(data, d, p, conn) := step;
    var rows := if AddrOf(conn) in w.servers then w.servers[AddrOf(conn)].rows else [];
    x := SeedDeletion(c.spec, data, d, Some(w.secrets[r]), p, conn, rows);
  }

  lemma NextSafe(s: State, a: Action, r: SecretRef, contents: map<string, string>)
    requires Inv(s) && r != OwnSecret(s.w.key) && Faithful(s, r, contents) && Safe(s.w, r, contents) && Unedited(r, a)
    ensures var s' := Next(s, a); s'.w.key == s.w.key && Faithful(s', r, contents) && Safe(s'.w, r, contents)
  {
    match a
    case Env(e) => MoveSafe(s, e, r, contents);
    case Begin => SafeStays(s.w, Started(s.w), r, contents);
    case Read(n) => ReadSafe(s, n, r, contents);
    case ReadFails =>
    case Call(answer) => {
      CallFaithful(s, answer, r, contents);
      CallSafe(s, answer, r, contents);
      CallLists(s, answer);
    }
    case Restart =>
  }

  lemma SafeStays(w: World, w': World, r: SecretRef, contents: map<string, string>)
    requires Safe(w, r, contents) && (r in w.secrets ==> r in w'.secrets) && w'.history == w.history
    ensures Safe(w', r, contents)
  {
    if r !in w.secrets {
      var x :| DeletedAsRead(w, r, contents, x);
      assert DeletedAsRead(w', r, contents, x);
    }
  }

  lemma MoveSafe(s: State, e: Outside, r: SecretRef, contents: map<string, string>)
    requires Inv(s) && Faithful(s, r, contents) && Safe(s.w, r, contents) && Unedited(r, Env(e))
    ensures var w' := Happen(s.w, e);
      w'.key == s.w.key && Faithful(State(w', s.pc), r, contents) && Safe(w', r, contents)
  {
    MoveLeaves(s.w, e, r);
    SafeStays(s.w, Happen(s.w, e), r, contents);
  }

  lemma MoveLeaves(w: World, e: Outside, r: SecretRef)
    requires Unedited(r, Env(e))
    ensures var w' := Happen(w, e);
      && w'.key == w.key && w'.history == w.history && (r in w'.secrets <==> r in w.secrets)
      && (r in w.secrets ==> w'.secrets[r] == w.secrets[r])
  {
    match e
    case Apply(_) => RequestMoves(w, e);
    case Delete => RequestMoves(w, e);
    case _ =>
  }

  lemma RequestMoves(w: World, e: Outside)
    requires e.Apply? || e.Delete?
    ensures var w' := Happen(w, e); w'.key == w.key && w'.history == w.history && w'.secrets == w.secrets
  {
  }

  lemma ReadSafe(s: State, n: nat, r: SecretRef, contents: map<string, string>)
    requires Faithful(s, r, contents) && Safe(s.w, r, contents)
    ensures var s' := Next(s, Read(n)); s'.w == s.w && Faithful(s', r, contents)
  {
    if s.pc.Reading? && n in s.w.versions {
      ReadChangesNothing(s.w, s.w.versions[n]);
    }
  }

  lemma {:induction false} RunSafe(s: State, actions: seq<Action>, r: SecretRef, contents: map<string, string>)
    requires Inv(s) && r != OwnSecret(s.w.key) && Faithful(s, r, contents) && Safe(s.w, r, contents)
    requires forall a :: a in actions ==> Unedited(r, a)
    ensures var t := Run(s, actions); Faithful(t, r, contents) && Safe(t.w, r, contents)
    decreases |actions|
  {
    if actions == [] {
    } else {
      assert actions[0] in actions;
      NextOk(s, actions[0]);
      NextSafe(s, actions[0], r, contents);
      RunSafe(Next(s, actions[0]), actions[1..], r, contents);
    }
  }

  // Seed credential conservation: whatever happens, with stale reads, failing and lost calls, crashes, and outside
  // moves that leave this Secret alone, at every step it still has its contents; or they have been
  // recorded before it was deleted, and the request's row on the matched server is those credentials exactly if no
  // other row stands in the way. (A seed that is the request's own Secret is left out: handleSecret writes that.)
  lemma SeedNeverLost(s: State, actions: seq<Action>, r: SecretRef)
    requires Inv(s) && !s.pc.Seeding? && r != OwnSecret(s.w.key) && r in s.w.secrets
    requires forall a :: a in actions ==> Unedited(r, a)
    ensures var w := Run(s, actions).w; var contents := s.w.secrets[r];
      (r in w.secrets && w.secrets[r] == contents) || exists x :: DeletedAsRead(w, r, contents, x) && Recorded(w, x)
  {
    var contents := s.w.secrets[r];
    RunSafe(s, actions, r, contents);
    RunOk(s, actions);
    var w := Run(s, actions).w;
    if r !in w.secrets {
      var x :| DeletedAsRead(w, r, contents, x);
      DeletionRecorded(w, x);
    }
  }

  /** A Secret edited while a pass handles it */

  // The contents a deletion has thrown away are kept in the row exactly if they name the credentials that were
  // read (when no other row stands in the way).
  lemma DeletedContentsKeptIff(w: World, x: SeedDeletion, d: DbInfo)
    requires WorldOk(w) && x in w.history.seedDeletions
    requires x.contents.Some? && DbInfoFromSeed(x.contents.value) == Some(d)
    requires !Rival(w.servers[AddrOf(x.conn)].rows, Row(w.key, Credentials(x.read)))
    ensures Lookup(w.servers[AddrOf(x.conn)].rows, w.key) == Some(Credentials(d))
        <==> Credentials(d) == Credentials(x.read)
  {
    DeletionRecorded(w, x);
  }
}
