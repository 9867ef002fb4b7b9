// What a fault-free pass over a placed request reports, and what the next pass makes of that.
module Reporting {
  import opened Common
  import opened Registry
  import opened Placement
  import opened SecretKeys
  import opened Cluster
  import opened Reconcile
  import opened Safety
  import opened SafetySteps
  import opened Guarantees
  import opened Deletion
  import opened Conditions
  import opened Completion
  import opened Fixpoint

  // What the pass finds: the credentials it is to hand out, whether the Service is there with another host, whether
  // the Secret is there with other data, the stored status and generation, and whether the reference is stored
  // already, so that its Update changes nothing.
  datatype Found = Found(
    info: DbInfo, drawn: Info, service: bool, secret: bool, before: Status, generation: nat, placed: bool)

  predicate ServiceOff(w: World, name: string, info: DbInfo) {
    name in w.services && w.services[name] != info.hostName
  }

  predicate SecretOff(w: World, name: string, info: DbInfo) {
    var own := SecretRef(w.key.name, w.key.namespace);
    own in w.secrets && w.secrets[own] != GetSecretData(info, name, name)
  }

  // The reason it reports: an object that was there has been changed, or not.
  function ReasonOf(f: Found): Reason {
    if f.service || f.secret then DatabaseRequestChanged else DatabaseRequestCreated
  }

  // The row of the request, or the draw if it has none and that is free.
  predicate RowToBe(s: Server, key: Key, i: Info, drawn: Info) {
    match Lookup(s.rows, key)
    case Some(row) => row == i
    case None => drawn == i && !Clashes(s.rows, Row(key, i))
  }

  predicate ServerGives(w: World, typ: DbType, conn: Connection, f: Found) {
    && conn.hostname == f.info.hostName && conn.port == f.info.port
    && ServerFor(w, typ, conn).Some? && RowToBe(ServerFor(w, typ, conn).value, w.key, Credentials(f.info), f.drawn)
  }

  // The stored request as the pass found it, or with its reference written.
  predicate AsFound(w: World, f: Found, written: bool) {
    && w.request.Some?
    && var o := w.request.value;
       && o.status.conditions == f.before.conditions && o.status.observedGeneration == f.before.observedGeneration
       && o.status.observedRef == f.before.observedRef
       && o.finalizer && !o.deleting
       && (if f.placed then o.generation == f.generation && o.spec.dropOnDelete && Settled(o)
           else if written then o.generation == f.generation + 1
           else o.generation == f.generation && o.spec.ref.None?)
  }

  predicate InformingReports(w: World, c: Object, step: InfoStep, f: Found) {
    && (ServiceOff(w, c.spec.name, f.info) <==> f.service) && (SecretOff(w, c.spec.name, f.info) <==> f.secret)
    && match step
       case ReadProvider =>
         Referred(w, c.spec).Some? && HasPassword(w, Referred(w, c.spec).value)
         && ServerGives(w, c.spec.typ, Referred(w, c.spec).value, f)
       case ReadPassword(_, conn) => HasPassword(w, conn) && ServerGives(w, c.spec.typ, conn, f)
       case RunFetch(_, conn, op) => ServerGives(w, c.spec.typ, conn, f) && OpPending(w, op, f.drawn)
  }

  predicate AligningReports(w: World, c: Object, step: AlignStep, f: Found) {
    match step
    case ReadService(t) =>
      && t.Some? && t.value.info == f.info
      && (ServiceOff(w, c.spec.name, f.info) <==> f.service) && (SecretOff(w, c.spec.name, f.info) <==> f.secret)
    case CreateService(t) =>
      t.info == f.info && c.spec.name !in w.services && !f.service && (SecretOff(w, c.spec.name, f.info) <==> f.secret)
    case UpdateService(t) =>
      t.info == f.info && c.spec.name in w.services && f.service && (SecretOff(w, c.spec.name, f.info) <==> f.secret)
    case ReadSecret(t, _, changed) =>
      && t.info == f.info && ServicePoints(w, c.spec, f.info.hostName)
      && changed == f.service && (SecretOff(w, c.spec.name, f.info) <==> f.secret)
    case CreateSecret(t, _, changed) =>
      && t.info == f.info && ServicePoints(w, c.spec, f.info.hostName)
      && changed == f.service && OwnSecret(w.key) !in w.secrets && !f.secret
    case UpdateSecret(t, _) =>
      t.info == f.info && ServicePoints(w, c.spec, f.info.hostName) && OwnSecret(w.key) in w.secrets && f.secret
  }

  // Service and Secret are what the credentials call for.
  predicate InPlace(w: World, name: string, info: DbInfo) {
    var own := SecretRef(w.key.name, w.key.namespace);
    && name in w.services && w.services[name] == info.hostName
    && own in w.secrets && w.secrets[own] == GetSecretData(info, name, name)
  }

  predicate ClosingReports(w: World, c: Object, step: CloseStep, f: Found) {
    match step
    case Finalize(changed) =>
      AsFound(w, f, false) && InPlace(w, c.spec.name, f.info) && changed == (f.service || f.secret)
    case WriteReady =>
      && AsFound(w, f, true) && InPlace(w, c.spec.name, f.info) && w.request.value.spec.name == c.spec.name
      && c.status.conditions == Conditions(Up(ReasonOf(f)), None) && c.status.observedGeneration == f.generation
      && f.before.conditions.ready != Up(ReasonOf(f))
      && c.status.observedRef == w.request.value.spec.ref
    case WriteError => false
  }

  // The final report: ready, with that reason; and with this generation and reference, unless the reason was there
  // before.
  predicate Reported(o: Object, f: Found) {
    && o.status.conditions == Conditions(Up(ReasonOf(f)), None)
    && o.generation == (if f.placed then f.generation else f.generation + 1)
    && if f.before.conditions.ready == Up(ReasonOf(f)) then
         o.status.observedGeneration == f.before.observedGeneration && o.status.observedRef == f.before.observedRef
       else o.status.observedGeneration == f.generation && o.status.observedRef == o.spec.ref
  }

  predicate OnReport(s: State, f: Found) {
    match s.pc
    case Idle =>
      s.w.request.Some? && Reported(s.w.request.value, f) && InPlace(s.w, s.w.request.value.spec.name, f.info)
    case Informing(c, step) => AsFound(s.w, f, false) && Current(s.w, c) && InformingReports(s.w, c, step, f)
    case Aligning(c, step) => AsFound(s.w, f, false) && Current(s.w, c) && AligningReports(s.w, c, step, f)
    case Closing(c, step) => Current(s.w, c) && ClosingReports(s.w, c, step, f)
    case _ => false
  }

  lemma FetchReports(w: World, c: Object, p: Provider, conn: Connection, op: Op, a: Answer, f: Found)
    requires OpAt(w, c, conn, op) && OnReport(State(w, Informing(c, RunFetch(p, conn, op))), f) && a.fault.Ok?
    ensures OnReport(OnFetch(w, c, p, conn, op, a), f)
  {
    var s := ServerFor(w, c.spec.typ, conn).value;
    FetchFinds(s, op, Credentials(f.info), f.drawn);
    FetchLands(w, c, p, conn, op, a, s);
  }

  lemma FetchLands(w: World, c: Object, p: Provider, conn: Connection, op: Op, a: Answer, s: Server)
    requires ServerFor(w, c.spec.typ, conn) == Some(s) && a.fault.Ok?
    ensures var (s', op') := Step(s, op); var w' := w.(servers := w.servers[AddrOf(conn) := s']); var i := op'.info;
      && ServerFor(w', c.spec.typ, conn) == Some(s')
      && (op'.pc.Done? ==> OnFetch(w, c, p, conn, op, a) == State(w', Aligning(c, ReadService(Some(Target(
            DbInfo(i.dbname, conn.hostname, i.username, i.password, conn.port), p, conn, false))))))
      && (!Ended(op') ==> OnFetch(w, c, p, conn, op, a) == State(w', Informing(c, RunFetch(p, conn, op'))))
  {
  }

  lemma FetchFinds(s: Server, op: Op, i: Info, drawn: Info)
    requires OpOk(s, op) && op.task.Fetch? && op.drawn == drawn && (op.pc.Use? || op.pc.Select? || op.pc.Insert?)
    requires RowToBe(s, op.key, i, drawn)
    ensures var (s', op') := Step(s, op);
      && (op'.pc.Done? ==> op'.info == i)
      && (!op'.pc.Done? ==> s' == s && (op'.pc.Select? || op'.pc.Insert?))
  {
  }

  lemma InformingOnReport(w: World, c: Object, step: InfoStep, a: Answer, f: Found)
    requires InfoOk(w, c, step) && OnReport(State(w, Informing(c, step)), f) && a.fault.Ok? && a.drawn == f.drawn
    ensures OnReport(OnInforming(w, c, step, a), f)
  {
    match step
    case ReadProvider =>
    case ReadPassword(p, conn) =>
    case RunFetch(p, conn, op) => FetchReports(w, c, p, conn, op, a, f);
  }

  lemma AligningOnReport(w: World, c: Object, step: AlignStep, a: Answer, f: Found)
    requires OnReport(State(w, Aligning(c, step)), f) && a.fault.Ok?
    ensures OnReport(OnAligning(w, c, step, a), f)
  {
    match step
    case ReadService(_) =>
    case CreateService(t) => ServiceOnReport(w, c, t, false, a, f);
    case UpdateService(t) => ServiceOnReport(w, c, t, true, a, f);
    case ReadSecret(_, _, _) =>
    case CreateSecret(_, _, _) =>
    case UpdateSecret(_, _) =>
  }

  lemma ServiceOnReport(w: World, c: Object, t: Target, update: bool, a: Answer, f: Found)
    requires AsFound(w, f, false) && Current(w, c) && a.fault.Ok?
    requires AligningReports(w, c, if update then UpdateService(t) else CreateService(t), f)
    ensures OnReport(OnWriteService(w, c, t, update, a), f)
  {
  }

  lemma FinalizeOnReport(w: World, c: Object, changed: bool, a: Answer, f: Found)
    requires CloseOk(w, c, Finalize(changed))
    requires OnReport(State(w, Closing(c, Finalize(changed))), f) && a.fault.Ok?
    requires a.keep.observedGeneration && a.keep.observedRef
    ensures OnReport(OnFinalize(w, c, changed, a), f)
  {
    if f.placed {
      assert Update(w, c) == Success(w);
    }
  }

  lemma StatusOnReport(w: World, c: Object, a: Answer, f: Found)
    requires OnReport(State(w, Closing(c, WriteReady)), f) && a.fault.Ok?
    ensures OnReport(OnSetReady(w, c, a), f)
  {
  }

  lemma ClosingOnReport(w: World, c: Object, step: CloseStep, a: Answer, f: Found)
    requires CloseOk(w, c, step) && OnReport(State(w, Closing(c, step)), f) && a.fault.Ok?
    requires a.keep.observedGeneration && a.keep.observedRef
    ensures OnReport(OnClosing(w, c, step, a), f)
  {
    match step
    case Finalize(changed) => FinalizeOnReport(w, c, changed, a, f);
    case WriteReady => StatusOnReport(w, c, a, f);
  }

  lemma CallOnReport(s: State, a: Answer, f: Found)
    requires PcOk(s.w, s.pc) && OnReport(s, f)
    requires a.fault.Ok? && a.drawn == f.drawn && a.keep.observedGeneration && a.keep.observedRef
    ensures OnReport(OnCall(s, a), f)
  {
    match s.pc
    case Idle =>
    case Informing(c, step) => InformingOnReport(s.w, c, step, a, f);
    case Aligning(c, step) => AligningOnReport(s.w, c, step, a, f);
    case Closing(c, step) => ClosingOnReport(s.w, c, step, a, f);
  }

  // Fault-free calls that keep what has been observed in memory.
  predicate Keeping(answers: seq<Answer>, drawn: Info) {
    forall a :: a in answers ==> a.fault.Ok? && a.drawn == drawn && a.keep.observedGeneration && a.keep.observedRef
  }

  lemma {:induction false} CallsOnReport(s: State, answers: seq<Answer>, f: Found)
    requires Inv(s) && OnReport(s, f) && Keeping(answers, f.drawn)
    ensures Inv(Calls(s, answers)) && OnReport(Calls(s, answers), f)
    decreases |answers|
  {
    if answers == [] {
    } else {
      CallOk(s, answers[0]);
      CallOnReport(s, answers[0], f);
      CallsOnReport(OnCall(s, answers[0]), answers[1..], f);
    }
  }

  // The row of the request says so, or the draw does and is free.
  predicate RowFor(w: World, conn: Connection, f: Found)
    requires Addr(conn.hostname, conn.port) in w.servers
  {
    || RowSays(w, conn, f.info)
    || (Free(At(w, conn), w.key, f.drawn) && f.info.userName == f.drawn.username
        && f.info.password == f.drawn.password && f.info.database == f.drawn.dbname)
  }

  // f is what a pass finds that goes to this connection.
  predicate Finds(w: World, o: Object, conn: Connection, f: Found)
    requires Addr(conn.hostname, conn.port) in w.servers
  {
    && f.info.hostName == conn.hostname && f.info.port == conn.port && RowFor(w, conn, f)
    && (f.service <==> ServiceOff(w, o.spec.name, f.info)) && (f.secret <==> SecretOff(w, o.spec.name, f.info))
    && f.before == o.status && f.generation == o.generation && f.placed
  }

  // A stored request with a placement, whose database is to be dropped, and with something to do.
  predicate Pending(o: Object) {
    Settled(o) && OfSql(o.spec.typ) && !o.deleting && o.finalizer && o.spec.dropOnDelete && Due(o)
  }

  // What a fault-free pass reports over a request whose Update changes nothing: Ready=True without Error, with the
  // reason DatabaseRequestChanged exactly if the Service or the Secret was there with other contents; and its own
  // generation and reference, exactly if that reason is not the one already stored.
  lemma ReportIs(w: World, answers: seq<Answer>, p: Provider, conn: Connection, f: Found)
    requires WorldOk(w) && w.request.Some? && Pending(w.request.value) && DistinctProviders(w.providers)
    requires Refers(w, w.request.value.spec, p, conn) && Usable(w, w.request.value.spec.typ, conn)
    requires Finds(w, w.request.value, conn, f) && Keeping(answers, f.drawn) && |answers| >= LONGEST
    ensures var t := Calls(AfterRead(w, w.request.value), answers);
      && t.pc.Idle? && t.w.request.Some? && Reported(t.w.request.value, f)
      && InPlace(t.w, t.w.request.value.spec.name, f.info) && Inv(t)
  {
    var s := AfterRead(w, w.request.value);
    AfterReadOk(w, w.request.value.rv);
    ReportBegins(w, p, conn, f);
    CallsOnReport(s, answers, f);
    PassEnds(s, answers);
  }

  lemma ReportBegins(w: World, p: Provider, conn: Connection, f: Found)
    requires WorldOk(w) && w.request.Some? && Pending(w.request.value) && DistinctProviders(w.providers)
    requires Refers(w, w.request.value.spec, p, conn) && Usable(w, w.request.value.spec.typ, conn)
    requires Finds(w, w.request.value, conn, f)
    ensures var s := AfterRead(w, w.request.value); OnReport(s, f) && s.pc.Informing? && s.pc.info.ReadProvider?
  {
    RefersIff(w, w.request.value.spec, conn);
    FindsRow(w, conn, f);
  }

  lemma FindsRow(w: World, conn: Connection, f: Found)
    requires ServersOk(w) && Addr(conn.hostname, conn.port) in w.servers && RowFor(w, conn, f)
    ensures RowToBe(At(w, conn), w.key, Credentials(f.info), f.drawn)
  {
    var s := At(w, conn);
    RowIff(s, w.key, f.drawn);
    if RowSays(w, conn, f.info) {
      var row :| row in s.rows && row.key == w.key && row.info.username == f.info.userName
        && row.info.password == f.info.password && row.info.dbname == f.info.database;
      assert row == Row(w.key, Credentials(f.info));
      LookupIs(s.rows, w.key, Credentials(f.info));
    }
  }

  // The early return: a pass over a version makes no call exactly if nothing is due; and then it changes nothing.
  lemma RestsIff(w: World, c: Object)
    requires !c.deleting && c.finalizer
    ensures AfterRead(w, c).pc.Idle? <==> !Due(c)
    ensures AfterRead(w, c).w == w
  {
  }

  // So the next pass over what has been stored rests exactly if the reason was new.
  lemma NextPassRestsIff(w: World, answers: seq<Answer>, p: Provider, conn: Connection, f: Found)
    requires WorldOk(w) && w.request.Some? && Pending(w.request.value) && DistinctProviders(w.providers)
    requires Refers(w, w.request.value.spec, p, conn) && Usable(w, w.request.value.spec.typ, conn)
    requires Finds(w, w.request.value, conn, f) && Keeping(answers, f.drawn) && |answers| >= LONGEST
    ensures var t := Calls(AfterRead(w, w.request.value), answers).w;
      && t.request.Some?
      && (AfterRead(t, t.request.value) == State(t, Idle)
          <==> w.request.value.status.conditions.ready != Up(ReasonOf(f)))
  {
    ReportIs(w, answers, p, conn, f);
    var t := Calls(AfterRead(w, w.request.value), answers).w;
    PendingStays(w, answers);
    RestsIff(t, t.request.value);
  }

  // Such a request stays what it is, its status apart.
  lemma PendingStays(w: World, answers: seq<Answer>)
    requires WorldOk(w) && w.request.Some? && Pending(w.request.value)
    ensures var t := Calls(AfterRead(w, w.request.value), answers).w;
      && t.request.Some? && t.request.value.spec == w.request.value.spec && t.request.value.finalizer
      && !t.request.value.deleting
  {
    AfterReadOk(w, w.request.value.rv);
    CallsKeep(AfterRead(w, w.request.value), answers);
  }

  lemma {:induction false} CallsKeep(s: State, answers: seq<Answer>)
    requires Inv(s) && s.w.request.Some? && Settled(s.w.request.value) && s.w.request.value.spec.dropOnDelete
    requires s.w.request.value.finalizer && !s.w.request.value.deleting
    ensures var w := Calls(s, answers).w;
      && w.request.Some? && w.request.value.spec == s.w.request.value.spec && w.request.value.finalizer
      && !w.request.value.deleting
    decreases |answers|
  {
    if answers == [] {
    } else {
      CallHasEffect(s, answers[0]);
      CallOk(s, answers[0]);
      CallsKeep(OnCall(s, answers[0]), answers[1..]);
    }
  }

  /** A request that never rests */

  // Its Service and Secret are in line, and it is known as ready and created; but for an earlier generation.
  ghost predicate Behind(w: World, p: Provider, conn: Connection, info: DbInfo) {
    && WorldOk(w) && w.request.Some? && Pending(w.request.value) && DistinctProviders(w.providers)
    && Refers(w, w.request.value.spec, p, conn) && Usable(w, w.request.value.spec.typ, conn)
    && info.hostName == conn.hostname && info.port == conn.port && RowSays(w, conn, info)
    && InPlace(w, w.request.value.spec.name, info)
    && w.request.value.status.conditions.ready == Up(DatabaseRequestCreated)
  }

  // One fault-free pass after the other.
  function Passes(w: World, passes: seq<seq<Answer>>): World
    decreases |passes|
  {
    if passes == [] || w.request.None? then w
    else Passes(Calls(AfterRead(w, w.request.value), passes[0]).w, passes[1..])
  }

  lemma BehindStays(w: World, answers: seq<Answer>, drawn: Info, p: Provider, conn: Connection, info: DbInfo)
    requires Behind(w, p, conn, info) && Keeping(answers, drawn) && |answers| >= LONGEST
    ensures Behind(Calls(AfterRead(w, w.request.value), answers).w, p, conn, info)
  {
    var o := w.request.value;
    var f := Found(info, drawn, false, false, o.status, o.generation, true);
    ReportIs(w, answers, p, conn, f);
    PendingStays(w, answers);
    var t := Target(info, p, conn, false);
    BehindInLine(w, p, conn, info);
    AfterReadOk(w, o.rv);
    ReadHolds(w, o, t);
    CallsHold(AfterRead(w, o), answers, t);
    HeldBehind(w, Calls(AfterRead(w, o), answers).w, p, conn, info);
  }

  lemma BehindInLine(w: World, p: Provider, conn: Connection, info: DbInfo)
    requires Behind(w, p, conn, info)
    ensures Held(w, Target(info, p, conn, false))
  {
    RefersIff(w, w.request.value.spec, conn);
    var row :| row in At(w, conn).rows && row.key == w.key && row.info.username == info.userName
      && row.info.password == info.password && row.info.dbname == info.database;
    assert row == Row(w.key, Credentials(info));
    LookupIs(At(w, conn).rows, w.key, Credentials(info));
  }

  lemma {:induction false} CallsHold(s: State, answers: seq<Answer>, t: Target)
    requires Inv(s) && Held(s.w, t) && Steady(s.w.request.value.spec, t, s.pc)
    ensures var w := Calls(s, answers).w; Held(w, t) && Still(s.w, w) && w.servers == s.w.servers
    decreases |answers|
  {
    if answers == [] {
    } else {
      var s' := OnCall(s, answers[0]);
      CallOk(s, answers[0]);
      CallHolds(s, answers[0], t);
      RestsHeld(s.w, t, s');
      CallsHold(s', answers[1..], t);
      StillTwice(s.w, s'.w, Calls(s, answers).w);
    }
  }

  lemma HeldBehind(w: World, w': World, p: Provider, conn: Connection, info: DbInfo)
    requires Behind(w, p, conn, info) && Still(w, w') && w'.servers == w.servers && WorldOk(w')
    requires w'.request.value.status.conditions.ready == Up(DatabaseRequestCreated)
    requires w'.request.value.status.observedGeneration < w'.request.value.generation
    ensures Behind(w', p, conn, info)
  {
  }

  // Nothing differs from what is stored, so the status is not written, and with it the generation is not either:
  // however many fault-free passes there are, the next one still does not rest.
  lemma {:induction false} NeverRests(
    w: World, passes: seq<seq<Answer>>, drawn: Info, p: Provider, conn: Connection, info: DbInfo)
    requires Behind(w, p, conn, info)
    requires forall answers :: answers in passes ==> Keeping(answers, drawn) && |answers| >= LONGEST
    ensures var t := Passes(w, passes);
      t.request.Some? && Due(t.request.value) && !AfterRead(t, t.request.value).pc.Idle?
    decreases |passes|
  {
    if passes == [] {
      RestsIff(w, w.request.value);
    } else {
      assert passes[0] in passes;
      BehindStays(w, passes[0], drawn, p, conn, info);
      NeverRests(Calls(AfterRead(w, w.request.value), passes[0]).w, passes[1..], drawn, p, conn, info);
    }
  }
}
