// The first pass over a request that has neither reference nor seed: when it ends with Ready=True, where the
// request then is, and that no later pass over it rests.
module FirstPlacement {
  import opened Common
  import opened Registry
  import opened Placement
  import opened SecretKeys
  import opened Cluster
  import opened Reconcile
  import opened Safety
  import opened SafetySteps
  import opened Guarantees
  import opened Deletion
  import opened Conditions
  import opened Completion
  import opened Reporting

  // The connection the search selects and the look-up by its name then finds.
  function Chosen(w: World, spec: Spec, loads: Loads): Option<(Provider, Connection)> {
    var q := Query(spec.selector, spec.typ);
    match Place(w.providers, q, loads)
    case None => None
    case Some((x, y)) =>
      PlaceInRange(w.providers, q, loads);
      match FindConnection(w.providers[x].connections, w.providers[x].connections[y].name)
      case None => None
      case Some(conn) => Some((w.providers[x], conn))
  }

  predicate Placeable(w: World, spec: Spec, loads: Loads, drawn: Info) {
    match Chosen(w, spec, loads)
    case None => false
    case Some((p, conn)) => HasPassword(w, conn) && Served(w, spec.typ, conn, drawn)
  }

  // The request's row with these credentials, its database, its user and the grant are on that server.
  predicate HasDatabase(w: World, conn: Connection, info: DbInfo) {
    && Addr(conn.hostname, conn.port) in w.servers
    && var s := At(w, conn);
       && Row(w.key, Info(info.userName, info.password, info.database)) in s.rows
       && info.database in s.dbs && info.userName in s.users
       && (if s.engine.MySql? then OnDatabase(info.database, info.userName)
           else Membership(info.userName, conn.username)) in s.grants
  }

  // What a pass is expected to do: p and conn are the choice and f what it finds there, if good; spec is the spec
  // without the reference; keeps says whether what it has observed stays in memory.
  datatype Plan =
    Plan(good: bool, loads: Loads, p: Provider, conn: Connection, spec: Spec, f: Found, keeps: bool)

  predicate Follows(answers: seq<Answer>, plan: Plan) {
    AllOk(answers, plan.f.drawn) && forall a :: a in answers ==> Obeys(a, plan)
  }

  predicate Obeys(a: Answer, plan: Plan) {
    a.loads == plan.loads && (plan.keeps ==> a.keep.observedGeneration && a.keep.observedRef)
  }

  function RefOf(plan: Plan): Ref {
    Ref(plan.p.name, plan.conn.name)
  }

  // The provider is found under its name again.
  predicate Findable(w: World, plan: Plan) {
    && GetProvider(w.providers, plan.p.name) == Some(plan.p)
    && FindConnection(plan.p.connections, plan.conn.name) == Some(plan.conn)
  }

  // The stored request and what belongs to it are as the plan says.
  predicate Awaits(w: World, spec: Spec, plan: Plan) {
    && w.request.Some? && Sent(spec) == Sent(plan.spec)
    && (ServiceOff(w, spec.name, plan.f.info) <==> plan.f.service)
    && (SecretOff(w, spec.name, plan.f.info) <==> plan.f.secret)
    && plan.conn.hostname == plan.f.info.hostName && plan.conn.port == plan.f.info.port
    && !plan.f.placed && plan.f.before.observedRef == Some(RefOf(plan))
    && var o := w.request.value;
       && o.status.conditions == plan.f.before.conditions
       && o.status.observedGeneration == plan.f.before.observedGeneration
       && o.generation == plan.f.generation && o.finalizer && !o.deleting && o.spec.ref.None?
  }

  // The row with the credentials is there, or those are the draw and that is free.
  predicate Gives(w: World, spec: Spec, plan: Plan) {
    ServerGives(w, spec.typ, plan.conn, plan.f)
  }

  predicate CreateTracks(w: World, c: Object, op: Op, plan: Plan) {
    && op.task == Task.Create(plan.conn.username) && op.key == w.key && op.drawn == plan.f.drawn
    && if op.pc.Use? || op.pc.Select? || op.pc.Insert? then
         (plan.good <==> Served(w, c.spec.typ, plan.conn, plan.f.drawn)) && (plan.good ==> Gives(w, c.spec, plan))
       else
         && plan.good && op.info == Credentials(plan.f.info) && ServerFor(w, c.spec.typ, plan.conn).Some?
         && Granted(ServerFor(w, c.spec.typ, plan.conn).value, op)
  }

  predicate Granted(s: Server, op: Op) {
    (op.pc.CreateOwned? || op.pc.Done?) && s.engine.Postgres? && op.task.Create? ==>
      Membership(op.info.username, op.task.provider) in s.grants
  }

  // What the status says of the placement.
  predicate Written(status: Status, plan: Plan) {
    && status.observedRef == Some(RefOf(plan))
    && status.databaseInfo == Some((plan.f.info.userName, plan.f.info.database))
  }

  predicate Names(spec: Spec, plan: Plan) {
    Sent(spec) == Sent(plan.spec).(ref := Some(RefOf(plan)))
  }

  // From the placement on.
  predicate Carries(s: State, plan: Plan) {
    && HasDatabase(s.w, plan.conn, plan.f.info) && ServerFor(s.w, plan.spec.typ, plan.conn).Some?
    && (plan.conn.passwordSecretRef != OwnSecret(s.w.key) ==> HasPassword(s.w, plan.conn))
    && s.w.request.Some? && Written(s.w.request.value.status, plan)
    && s.w.request.value.finalizer && !s.w.request.value.deleting
    && match s.pc
       case Informing(c, _) => Written(c.status, plan) && Names(c.spec, plan)
       case Aligning(c, _) => Written(c.status, plan) && Names(c.spec, plan)
       case Closing(c, step) =>
         && Written(c.status, plan)
         && if step.Finalize? then Names(c.spec, plan) else Named(s.w.request.value.spec, plan)
       case _ => Named(s.w.request.value.spec, plan)
  }

  // The spec in the end.
  predicate Named(spec: Spec, plan: Plan) {
    spec == plan.spec.(ref := Some(RefOf(plan)), dropOnDelete := true)
  }

  // The search is next.
  predicate Selects(w: World, c: Object, plan: Plan) {
    && Current(w, c) && (plan.good ==> Awaits(w, c.spec, plan) && Gives(w, c.spec, plan))
    && (plan.good <==> Placeable(w, c.spec, plan.loads, plan.f.drawn))
    && (Chosen(w, c.spec, plan.loads).Some? ==>
          Chosen(w, c.spec, plan.loads) == Some((plan.p, plan.conn)) && Findable(w, plan))
  }

  // The request is being placed.
  predicate OnPlan(w: World, c: Object, step: PlaceStep, plan: Plan) {
    && Current(w, c) && (plan.good ==> Awaits(w, c.spec, plan))
    && match step
       case SelectProvider => false
       case ReadCreatePassword(p, conn) =>
         && p == plan.p && conn == plan.conn && Findable(w, plan) && (plan.good ==> Gives(w, c.spec, plan))
         && (plan.good <==> HasPassword(w, conn) && Served(w, c.spec.typ, conn, plan.f.drawn))
       case RunCreate(p, conn, op) =>
         && p == plan.p && conn == plan.conn && Findable(w, plan) && HasPassword(w, conn)
         && CreateTracks(w, c, op, plan)
       case SavePlacement(ref) =>
         && plan.good && ref == RefOf(plan) && Findable(w, plan) && HasPassword(w, plan.conn)
         && Written(c.status, plan) && HasDatabase(w, plan.conn, plan.f.info)
         && ServerFor(w, c.spec.typ, plan.conn).Some?
  }

  // The request has been placed and its reference is in memory.
  predicate AtReference(w: World, c: Object, plan: Plan) {
    && Current(w, c) && c == w.request.value.(spec := c.spec) && Relational(c.spec.typ)
    && c.spec.ref == Some(RefOf(plan)) && Awaits(w, c.spec.(ref := None), plan) && Written(c.status, plan)
    && Findable(w, plan) && HasPassword(w, plan.conn) && HasDatabase(w, plan.conn, plan.f.info)
    && ServerFor(w, c.spec.typ, plan.conn).Some?
  }

  // Where a call of that phase leads: on, to the look-up of what has been placed, or to an error.
  predicate LeadsOn(s: State, plan: Plan) {
    match s.pc
    case Placing(c, step) => OnPlan(s.w, c, step, plan)
    case Informing(c, step) => plan.good && step.ReadProvider? && AtReference(s.w, c, plan)
    case Closing(c, step) => !plan.good && step.WriteError? && Current(s.w, c) && c.status.conditions.ready.Down?
    case _ => false
  }

  lemma SelectOnPlan(w: World, c: Object, a: Answer, plan: Plan)
    requires Selects(w, c, plan) && a.fault.Ok? && a.loads == plan.loads
    ensures LeadsOn(OnSelect(w, c, a), plan)
  {
    var w' := w.(history := w.history.(selections := w.history.selections + {c}));
    SelectLands(w, c, a);
    if Chosen(w, c.spec, a.loads).None? {
      GivesUpOnPlan(w', c, plan);
    }
  }

  lemma SelectLands(w: World, c: Object, a: Answer)
    requires a.fault.Ok?
    ensures var w' := w.(history := w.history.(selections := w.history.selections + {c}));
      OnSelect(w, c, a) == match Chosen(w, c.spec, a.loads) {
        case None => Fail(w', c, Cause.CreateDatabase)
        case Some((p, conn)) => State(w', Placing(c, ReadCreatePassword(p, conn)))
      }
  {
  }

  lemma PasswordOnPlan(w: World, c: Object, p: Provider, conn: Connection, a: Answer, plan: Plan)
    requires OnPlan(w, c, ReadCreatePassword(p, conn), plan) && a.fault.Ok? && a.drawn == plan.f.drawn
    ensures LeadsOn(OnReadCreatePassword(w, c, p, conn, a), plan)
  {
  }

  // No statement of the create fails once the row is known.
  lemma StatementSucceeds(s: Server, op: Op)
    requires OpOk(s, op) && op.task.Create? && !Ended(op)
    requires op.pc.Insert? ==> !Clashes(s.rows, Row(op.key, op.drawn))
    ensures !Step(s, op).1.pc.Failed?
  {
  }

  lemma CreateOnPlan(w: World, c: Object, p: Provider, conn: Connection, op: Op, a: Answer, plan: Plan)
    requires ServersOk(w) && OpAt(w, c, conn, op) && OnPlan(w, c, RunCreate(p, conn, op), plan) && a.fault.Ok?
    ensures LeadsOn(OnCreate(w, c, p, conn, op, a), plan)
  {
    var s := ServerFor(w, c.spec.typ, conn);
    if s.None? {
      GivesUpOnPlan(w, c, plan);
    } else {
      var (s', op') := Step(s.value, op);
      var w' := w.(servers := w.servers[AddrOf(conn) := s']);
      CreateLands(w, c, p, conn, op, a, s.value);
      CreateStepTracks(w, w', c, conn, op, s.value, plan);
      if op'.pc.Failed? {
        GivesUpOnPlan(w', c, plan);
      } else if op'.pc.Done? {
        CreatedOnPlan(w', c, op'.info, plan);
      }
    }
  }

  lemma CreateLands(w: World, c: Object, p: Provider, conn: Connection, op: Op, a: Answer, s: Server)
    requires ServerFor(w, c.spec.typ, conn) == Some(s) && a.fault.Ok?
    ensures var (s', op') := Step(s, op); var w' := w.(servers := w.servers[AddrOf(conn) := s']);
      && ServerFor(w', c.spec.typ, conn) == Some(s')
      && OnCreate(w, c, p, conn, op, a) ==
           if op'.pc.Failed? then Fail(w', c, Cause.CreateDatabase)
           else if op'.pc.Done? then Created(w', c, p, conn, op'.info)
           else State(w', Placing(c, RunCreate(p, conn, op')))
  {
  }

  lemma GivesUpOnPlan(w: World, c: Object, plan: Plan)
    requires !plan.good && Current(w, c)
    ensures LeadsOn(Fail(w, c, Cause.CreateDatabase), plan)
  {
  }

  lemma CreatedOnPlan(w: World, c: Object, i: Info, plan: Plan)
    requires plan.good && Current(w, c) && Awaits(w, c.spec, plan) && Findable(w, plan) && HasPassword(w, plan.conn)
    requires HasDatabase(w, plan.conn, plan.f.info) && ServerFor(w, c.spec.typ, plan.conn).Some?
    requires i == Credentials(plan.f.info)
    ensures LeadsOn(Created(w, c, plan.p, plan.conn, i), plan)
  {
  }

  lemma CreateStepTracks(w: World, w': World, c: Object, conn: Connection, op: Op, s: Server, plan: Plan)
    requires Unique(s.rows) && OpOk(s, op) && !Ended(op) && conn == plan.conn && CreateTracks(w, c, op, plan)
    requires ServerFor(w, c.spec.typ, conn) == Some(s)
    requires w' == w.(servers := w.servers[AddrOf(conn) := Step(s, op).0])
    ensures var op' := Step(s, op).1;
      if op'.pc.Failed? then !plan.good
      else CreateTracks(w', c, op', plan) && (op'.pc.Done? ==> plan.good && HasDatabase(w', conn, plan.f.info))
  {
    OwnStep(s, op);
    if op.pc.Insert? ==> !Clashes(s.rows, Row(op.key, op.drawn)) {
      StatementSucceeds(s, op);
    }
  }

  lemma SaveOnPlan(w: World, c: Object, ref: Ref, a: Answer, plan: Plan)
    requires ServersOk(w) && PlaceOk(w, c, SavePlacement(ref)) && OnPlan(w, c, SavePlacement(ref), plan) && a.fault.Ok?
    ensures LeadsOn(OnSavePlacement(w, c, ref, a), plan)
  {
    var w' := UpdateStatusOf(w, c).value;
    SameButRequest(w, c);
    SaveLands(w, c, ref, a);
  }

  lemma SaveLands(w: World, c: Object, ref: Ref, a: Answer)
    requires Current(w, c) && a.fault.Ok?
    ensures var w' := UpdateStatusOf(w, c).value;
      && w'.request.Some?
      && OnSavePlacement(w, c, ref, a)
         == Inform(w', w'.request.value.(spec := w'.request.value.spec.(ref := Some(ref))))
  {
  }

  lemma SameButRequest(w: World, c: Object)
    requires UpdateStatusOf(w, c).Success?
    ensures var w' := UpdateStatusOf(w, c).value;
      && w'.key == w.key && w'.providers == w.providers && w'.secrets == w.secrets && w'.services == w.services
      && w'.servers == w.servers && w'.request.Some?
      && w'.request.value == w.request.value.(status := c.status, rv := w'.request.value.rv)
  {
  }

  lemma PlacingOnPlan(w: World, c: Object, step: PlaceStep, a: Answer, plan: Plan)
    requires ServersOk(w) && PlaceOk(w, c, step) && OnPlan(w, c, step, plan)
    requires a.fault.Ok? && a.drawn == plan.f.drawn && a.loads == plan.loads
    ensures LeadsOn(OnPlacing(w, c, step, a), plan)
  {
    match step
    case ReadCreatePassword(p, conn) => PasswordOnPlan(w, c, p, conn, a, plan);
    case RunCreate(p, conn, op) => CreateOnPlan(w, c, p, conn, op, a, plan);
    case SavePlacement(ref) => SaveOnPlan(w, c, ref, a, plan);
  }

  // A look-up changes no database, and no row of a request that has one.
  lemma FetchCarries(w: World, c: Object, p: Provider, conn: Connection, op: Op, a: Answer, plan: Plan)
    requires Carries(State(w, Informing(c, RunFetch(p, conn, op))), plan) && OpPending(w, op, plan.f.drawn)
    requires !OnFetch(w, c, p, conn, op, a).pc.Closing?
    ensures Carries(OnFetch(w, c, p, conn, op, a), plan)
  {
    var s := ServerFor(w, c.spec.typ, conn);
    if s.Some? {
      FetchKeepsDatabase(s.value, op);
    }
  }

  lemma FetchKeepsDatabase(s: Server, op: Op)
    requires op.task.Fetch? && (op.pc.Use? || op.pc.Select? || op.pc.Insert?)
    ensures var s' := Step(s, op).0;
      s'.dbs == s.dbs && s'.users == s.users && s'.grants == s.grants && s.rows <= s'.rows
  {
  }

  lemma InformingCarries(w: World, c: Object, step: InfoStep, a: Answer, plan: Plan)
    requires Carries(State(w, Informing(c, step)), plan) && Track(State(w, Informing(c, step)), true, plan.f.drawn)
    requires InfoOk(w, c, step) && a.fault.Ok? && a.drawn == plan.f.drawn
    ensures Carries(OnInforming(w, c, step, a), plan)
  {
    match step
    case ReadProvider =>
    case ReadPassword(p, conn) =>
    case RunFetch(p, conn, op) =>
      FetchGoesOn(w, c, p, conn, op, a, plan);
      FetchCarries(w, c, p, conn, op, a, plan);
  }

  lemma FetchGoesOn(w: World, c: Object, p: Provider, conn: Connection, op: Op, a: Answer, plan: Plan)
    requires Track(State(w, Informing(c, RunFetch(p, conn, op))), true, plan.f.drawn) && OpAt(w, c, conn, op)
    requires a.fault.Ok?
    ensures !OnFetch(w, c, p, conn, op, a).pc.Closing?
  {
    FetchTracks(w, c, p, conn, op, a, true, plan.f.drawn);
  }

  lemma AligningCarries(w: World, c: Object, step: AlignStep, a: Answer, plan: Plan)
    requires Carries(State(w, Aligning(c, step)), plan) && Track(State(w, Aligning(c, step)), true, plan.f.drawn)
    requires a.fault.Ok?
    ensures Carries(OnAligning(w, c, step, a), plan)
  {
    AligningTracks(w, c, step, a, true, plan.f.drawn);
    AligningLands(w, c, step, a);
  }

  // The calls of this phase write to Service and Secret alone.
  predicate WritesOwned(w: World, c: Object, s: State) {
    && s.w.key == w.key && s.w.servers == w.servers && s.w.request == w.request
    && (forall r :: r in w.secrets && r != OwnSecret(w.key) ==> r in s.w.secrets && s.w.secrets[r] == w.secrets[r])
    && (s.pc.Aligning? ==> s.pc.c == c)
    && (s.pc.Closing? && s.pc.close.Finalize? ==> s.pc.c == c.(status := c.status.(observedGeneration := c.generation)))
  }

  lemma AligningLands(w: World, c: Object, step: AlignStep, a: Answer)
    ensures WritesOwned(w, c, OnAligning(w, c, step, a))
  {
    match step
    case ReadService(_) =>
    case CreateService(t) => ServiceLands(w, c, t, false, a);
    case UpdateService(t) => ServiceLands(w, c, t, true, a);
    case ReadSecret(_, _, _) =>
    case CreateSecret(t, host, changed) => SecretLands(w, c, t, host, changed, false, a);
    case UpdateSecret(t, host) => SecretLands(w, c, t, host, true, true, a);
  }

  lemma ServiceLands(w: World, c: Object, t: Target, update: bool, a: Answer)
    ensures WritesOwned(w, c, OnWriteService(w, c, t, update, a))
  {
  }

  lemma SecretLands(w: World, c: Object, t: Target, host: string, changed: bool, update: bool, a: Answer)
    ensures WritesOwned(w, c, OnWriteSecret(w, c, t, host, changed, update, a))
  {
    var w' := w.(secrets := w.secrets[OwnSecret(w.key) := SecretDataFor(c, t)]);
    var s := OnWriteSecret(w, c, t, host, changed, update, a);
    assert s in {Fail(w, c, Cause.HandleSecret), Fail(w', c, Cause.HandleSecret),
                 Aligned(w', c, t, host, changed || update)};
  }

  lemma FinalizeCarries(w: World, c: Object, changed: bool, a: Answer, plan: Plan)
    requires Carries(State(w, Closing(c, Finalize(changed))), plan) && Current(w, c) && c.finalizer && a.fault.Ok?
    ensures Carries(OnFinalize(w, c, changed, a), plan)
  {
    FinalizeLands(w, c, changed, a);
  }

  lemma FinalizeLands(w: World, c: Object, changed: bool, a: Answer)
    requires Current(w, c) && !w.request.value.deleting && a.fault.Ok?
    ensures var s := OnFinalize(w, c, changed, a);
      && (s.pc.Idle? || (s.pc.Closing? && s.pc.close.WriteReady?))
      && s.w.key == w.key && s.w.servers == w.servers && s.w.secrets == w.secrets && s.w.request.Some?
      && var o, o' := w.request.value, s.w.request.value;
         && o'.spec == Sent(c.spec) && o'.finalizer == c.finalizer && !o'.deleting && o'.status == o.status
         && (s.pc.Closing? ==>
               && s.pc.c.status.observedRef in {o.status.observedRef, c.status.observedRef}
               && s.pc.c.status.databaseInfo in {o.status.databaseInfo, c.status.databaseInfo})
  {
  }

  lemma StatusCarries(w: World, c: Object, a: Answer, plan: Plan)
    requires Carries(State(w, Closing(c, WriteReady)), plan) && Current(w, c) && a.fault.Ok?
    ensures Carries(OnSetReady(w, c, a), plan)
  {
    SameButRequest(w, c);
  }

  lemma CallCarries(s: State, a: Answer, plan: Plan)
    requires PcOk(s.w, s.pc) && Track(s, true, plan.f.drawn) && Carries(s, plan)
    requires a.fault.Ok? && a.drawn == plan.f.drawn
    ensures Carries(OnCall(s, a), plan)
  {
    match s.pc
    case Idle =>
    case Informing(c, step) => InformingCarries(s.w, c, step, a, plan);
    case Aligning(c, step) => AligningCarries(s.w, c, step, a, plan);
    case Closing(c, step) => {
      match step {
        case Finalize(changed) => FinalizeCarries(s.w, c, changed, a, plan);
        case WriteReady => StatusCarries(s.w, c, a, plan);
      }
    }
  }

  lemma {:induction false} CallsCarry(s: State, answers: seq<Answer>, plan: Plan)
    requires Inv(s) && Track(s, true, plan.f.drawn) && Carries(s, plan) && AllOk(answers, plan.f.drawn)
    ensures Carries(Calls(s, answers), plan)
    decreases |answers|
  {
    if answers == [] {
    } else {
      CallOk(s, answers[0]);
      CallTracks(s, answers[0], true, plan.f.drawn);
      CallCarries(s, answers[0], plan);
      CallsCarry(OnCall(s, answers[0]), answers[1..], plan);
    }
  }

  // What the rest of the pass starts from.
  lemma BeginsAsPlanned(w: World, c: Object, plan: Plan)
    requires plan.good && AtReference(w, c, plan) && ServersOk(w)
    ensures var s := State(w, Informing(c, ReadProvider));
      Track(s, true, plan.f.drawn) && Carries(s, plan) && OnReport(s, plan.f)
  {
    LookupIs(At(w, plan.conn).rows, w.key, Credentials(plan.f.info));
  }

  // The placing phase, up to where it leads.
  lemma {:induction false} PlacingEnds(s: State, answers: seq<Answer>, plan: Plan) returns (t: State, rest: seq<Answer>)
    requires Inv(s) && LeadsOn(s, plan) && Follows(answers, plan)
    ensures Calls(s, answers) == Calls(t, rest) && Follows(rest, plan)
    ensures Inv(t) && LeadsOn(t, plan) && (t.pc.Placing? ==> rest == [])
    decreases |answers|
  {
    if answers == [] || !s.pc.Placing? {
      t, rest := s, answers;
    } else {
      var s' := PlacingStep(s, answers[0], plan);
      t, rest := PlacingEnds(s', answers[1..], plan);
    }
  }

  lemma PlacingStep(s: State, a: Answer, plan: Plan) returns (s': State)
    requires Inv(s) && s.pc.Placing? && LeadsOn(s, plan) && a.fault.Ok? && a.drawn == plan.f.drawn && Obeys(a, plan)
    ensures s' == OnCall(s, a) && Inv(s') && LeadsOn(s', plan)
  {
    s' := OnCall(s, a);
    CallOk(s, a);
    PlacingOnPlan(s.w, s.pc.c, s.pc.place, a, plan);
  }

  /** The pass as a whole */

  lemma ChosenIff(w: World, spec: Spec, loads: Loads, p: Provider, conn: Connection)
    ensures Chosen(w, spec, loads) == Some((p, conn)) <==> GoesTo(w, spec, loads, p, conn)
  {
    var q := Query(spec.selector, spec.typ);
    if GoesTo(w, spec, loads, p, conn) {
      var x: nat, y: nat, j: nat :|
        && LeastLoad(w.providers, q, loads, x, y) && p == w.providers[x]
        && LastOfName(p.connections, j, p.connections[y].name) && conn == p.connections[j];
      PlaceIff(w.providers, q, loads, x, y);
      var i := FindsLast(p.connections, p.connections[y].name);
    }
    if Chosen(w, spec, loads) == Some((p, conn)) {
      PlaceInRange(w.providers, q, loads);
      var (x, y) := Place(w.providers, q, loads).value;
      PlaceIff(w.providers, q, loads, x, y);
      var j := FindsLast(p.connections, p.connections[y].name);
    }
  }

  lemma PlaceableIff(w: World, spec: Spec, loads: Loads, drawn: Info)
    requires OfSql(spec.typ)
    ensures Placeable(w, spec, loads, drawn) <==> CanPlace(w, spec, loads, drawn)
  {
    if Placeable(w, spec, loads, drawn) {
      var (p, conn) := Chosen(w, spec, loads).value;
      ChosenIff(w, spec, loads, p, conn);
      ServedIff(w, spec.typ, conn, drawn);
      assert GoesTo(w, spec, loads, p, conn) && Usable(w, spec.typ, conn) && TakesRow(w, conn, drawn);
    }
    if p, conn :| GoesTo(w, spec, loads, p, conn) && Usable(w, spec.typ, conn) && TakesRow(w, conn, drawn) {
      ChosenIff(w, spec, loads, p, conn);
      ServedIff(w, spec.typ, conn, drawn);
    }
  }

  // A new request, as its user has created it.
  predicate New(o: Object) {
    !o.deleting && o.spec.seed.None? && o.spec.ref.None? && OfSql(o.spec.typ) && Due(o)
  }

  // After the finalizer write, which is a new generation if it changes the wish to keep the database.
  function WithFinalizerGeneration(o: Object): nat {
    if o.finalizer || o.spec.dropOnDelete then o.generation else o.generation + 1
  }

  // The plan for a request that can be placed, from what is there: the choice, the row's credentials (or the draw,
  // if that is free), whether Service and Secret are there with other contents, and the status.
  ghost predicate Fits(w: World, o: Object, plan: Plan) {
    var f, conn := plan.f, plan.conn;
    && plan.good && plan.spec == o.spec && GoesTo(w, o.spec, plan.loads, plan.p, conn) && Usable(w, o.spec.typ, conn)
    && f.info.hostName == conn.hostname && f.info.port == conn.port && RowFor(w, conn, f)
    && (f.service <==> ServiceOff(w, o.spec.name, f.info)) && (f.secret <==> SecretOff(w, o.spec.name, f.info))
    && !f.placed && f.generation == WithFinalizerGeneration(o)
    && f.before == o.status.(observedRef := Some(RefOf(plan)))
  }

  // Where a plan ends.
  predicate Arrived(t: State, plan: Plan) {
    && t.pc.Idle? && t.w.request.Some?
    && var o := t.w.request.value;
       && (o.status.conditions.ready.Up? <==> plan.good) && (o.status.conditions.ready.Down? <==> !plan.good)
       && (plan.good ==>
             && Named(o.spec, plan) && Written(o.status, plan) && o.finalizer && !o.deleting
             && HasDatabase(t.w, plan.conn, plan.f.info) && ServerFor(t.w, plan.spec.typ, plan.conn).Some?
             && (plan.conn.passwordSecretRef != OwnSecret(t.w.key) ==> HasPassword(t.w, plan.conn))
             && (plan.keeps ==> Reported(o, plan.f) && InPlace(t.w, o.spec.name, plan.f.info)))
  }

  lemma SelectedPass(w: World, answers: seq<Answer>, plan: Plan) returns (u: State)
    requires WorldOk(w) && w.request.Some? && New(w.request.value) && w.request.value.finalizer
    requires Selects(w, w.request.value, plan) && Follows(answers, plan) && |answers| >= LONGEST - 1
    ensures u == Calls(AfterRead(w, w.request.value), answers) && Inv(u) && Arrived(u, plan)
  {
    assert answers[0] in answers;
    var s := SelectStep(w, answers[0], plan);
    u := SelectedEnds(State(w, Placing(w.request.value, SelectProvider)), s, answers, plan);
  }

  lemma SelectedEnds(r: State, s: State, answers: seq<Answer>, plan: Plan) returns (u: State)
    requires r.pc.Placing? && r.pc.place.SelectProvider? && Follows(answers, plan) && |answers| >= LONGEST - 1
    requires s == OnCall(r, answers[0]) && Inv(s) && LeadsOn(s, plan)
    ensures u == Calls(r, answers) && Inv(u) && Arrived(u, plan)
  {
    PassEnds(r, answers);
    u := PlacedPass(s, answers[1..], plan);
  }

  lemma PlacedPass(s: State, answers: seq<Answer>, plan: Plan) returns (u: State)
    requires Inv(s) && LeadsOn(s, plan) && Follows(answers, plan) && Calls(s, answers).pc.Idle?
    ensures u == Calls(s, answers) && Inv(u) && Arrived(u, plan)
  {
    var t, rest := PlacingEnds(s, answers, plan);
    u := RestEnds(t, rest, plan);
  }

  lemma RestEnds(t: State, rest: seq<Answer>, plan: Plan) returns (u: State)
    requires Inv(t) && LeadsOn(t, plan) && Follows(rest, plan) && Calls(t, rest).pc.Idle?
    requires t.pc.Placing? ==> rest == []
    ensures u == Calls(t, rest) && Inv(u) && Arrived(u, plan)
  {
    if plan.good {
      BeginsAsPlanned(t.w, t.pc.c, plan);
      u := EndsPlaced(t, rest, plan);
    } else {
      u := EndsUnplaced(t, rest, plan);
    }
  }

  lemma SelectStep(w: World, a: Answer, plan: Plan) returns (s: State)
    requires WorldOk(w) && w.request.Some? && New(w.request.value) && w.request.value.finalizer
    requires Selects(w, w.request.value, plan) && a.fault.Ok? && a.loads == plan.loads
    ensures AfterRead(w, w.request.value) == State(w, Placing(w.request.value, SelectProvider))
    ensures s == OnCall(AfterRead(w, w.request.value), a) && Inv(s) && LeadsOn(s, plan)
  {
    var c := w.request.value;
    AfterReadOk(w, c.rv);
    SelectOnPlan(w, c, a, plan);
    s := OnCall(State(w, Placing(c, SelectProvider)), a);
    CallOk(State(w, Placing(c, SelectProvider)), a);
  }

  lemma EndsPlaced(t: State, rest: seq<Answer>, plan: Plan) returns (u: State)
    requires Inv(t) && Track(t, true, plan.f.drawn) && Carries(t, plan) && OnReport(t, plan.f)
    requires Follows(rest, plan) && Calls(t, rest).pc.Idle? && plan.good
    ensures u == Calls(t, rest) && Inv(u) && Arrived(u, plan)
  {
    u := Calls(t, rest);
    CallsTrack(t, rest, true, plan.f.drawn);
    CallsCarry(t, rest, plan);
    if plan.keeps {
      CallsOnReport(t, rest, plan.f);
    }
  }

  lemma EndsUnplaced(t: State, rest: seq<Answer>, plan: Plan) returns (u: State)
    requires Inv(t) && LeadsOn(t, plan) && Follows(rest, plan) && Calls(t, rest).pc.Idle? && !plan.good
    requires t.pc.Placing? ==> rest == []
    ensures u == Calls(t, rest) && Inv(u) && Arrived(u, plan)
  {
    u := Calls(t, rest);
    CallsTrack(t, rest, false, plan.f.drawn);
  }

  // The search is next once the finalizer is there.
  predicate WillSelect(w: World, o: Object, plan: Plan) {
    && (plan.good <==> Placeable(w, o.spec, plan.loads, plan.f.drawn))
    && (Chosen(w, o.spec, plan.loads).Some? ==>
          Chosen(w, o.spec, plan.loads) == Some((plan.p, plan.conn)) && Findable(w, plan))
    && (plan.good ==> Gives(w, o.spec, plan) && WillAwait(w, o, plan))
  }

  predicate WillAwait(w: World, o: Object, plan: Plan) {
    && plan.spec == o.spec
    && (ServiceOff(w, o.spec.name, plan.f.info) <==> plan.f.service)
    && (SecretOff(w, o.spec.name, plan.f.info) <==> plan.f.secret)
    && plan.conn.hostname == plan.f.info.hostName && plan.conn.port == plan.f.info.port
    && !plan.f.placed && plan.f.generation == WithFinalizerGeneration(o)
    && plan.f.before == o.status.(observedRef := Some(RefOf(plan)))
  }

  lemma FirstPass(w: World, answers: seq<Answer>, plan: Plan) returns (u: State)
    requires WorldOk(w) && w.request.Some? && New(w.request.value) && WillSelect(w, w.request.value, plan)
    requires Follows(answers, plan) && |answers| >= LONGEST
    ensures u == Calls(AfterRead(w, w.request.value), answers) && Inv(u) && Arrived(u, plan)
  {
    var c := w.request.value;
    if c.finalizer {
      u := SelectedPass(w, answers, plan);
    } else {
      AddsFinalizer(w, c, answers, plan.f.drawn);
      var w' := Store(w, Updated(c, c.(finalizer := true)));
      SelectsThen(w, w', c, plan);
      u := SelectedPass(w', answers[1..], plan);
    }
  }

  lemma SelectsThen(w: World, w': World, c: Object, plan: Plan)
    requires WillSelect(w, c, plan) && New(c) && !c.finalizer && OnlyRequest(w, w')
    requires w'.request == Some(WithFinalizer(w, c))
    ensures New(WithFinalizer(w, c)) && Selects(w', WithFinalizer(w, c), plan)
  {
    assert Chosen(w', Sent(c.spec), plan.loads) == Chosen(w, c.spec, plan.loads);
  }

  // The choice is found under its name again.
  lemma ChosenFindable(w: World, spec: Spec, plan: Plan)
    requires DistinctProviders(w.providers) && Chosen(w, spec, plan.loads) == Some((plan.p, plan.conn))
    ensures Findable(w, plan)
  {
    PlaceInRange(w.providers, Query(spec.selector, spec.typ), plan.loads);
    ListedFound(w.providers, plan.p);
  }

  // What a fault-free pass over a new request, as its user has created it, leaves if it can be placed: Ready=True; the
  // reference to the connection chosen, in spec and status, and the names of database and user in the status; on its
  // server the request's row with these credentials, the database, the user and the grant; and, if what has been
  // observed is kept, Service and Secret in place and a generation that is one ahead of the one reported.
  lemma FirstPassLeaves(w: World, answers: seq<Answer>, plan: Plan) returns (u: State)
    requires WorldOk(w) && w.request.Some? && New(w.request.value) && DistinctProviders(w.providers)
    requires Fits(w, w.request.value, plan) && Follows(answers, plan) && |answers| >= LONGEST
    ensures u == Calls(AfterRead(w, w.request.value), answers) && Inv(u) && Arrived(u, plan)
  {
    var o := w.request.value;
    FitsSelects(w, o, plan);
    u := FirstPass(w, answers, plan);
  }

  lemma FitsSelects(w: World, o: Object, plan: Plan)
    requires ServersOk(w) && New(o) && DistinctProviders(w.providers) && Fits(w, o, plan)
    ensures WillSelect(w, o, plan)
  {
    ChosenIff(w, o.spec, plan.loads, plan.p, plan.conn);
    ChosenFindable(w, o.spec, plan);
    FindsRow(w, plan.conn, plan.f);
  }

  // A plan for what is there.
  lemma PlanFor(w: World, o: Object, loads: Loads, drawn: Info) returns (plan: Plan)
    requires ServersOk(w) && New(o) && DistinctProviders(w.providers)
    ensures WillSelect(w, o, plan) && plan.loads == loads && plan.f.drawn == drawn && !plan.keeps
  {
    var r := Chosen(w, o.spec, loads);
    if Placeable(w, o.spec, loads, drawn) {
      var (p, conn) := r.value;
      var i := match Lookup(ServerFor(w, o.spec.typ, conn).value.rows, w.key) { case Some(i) => i case None => drawn };
      var info := DbInfo(i.dbname, conn.hostname, i.username, i.password, conn.port);
      var before := o.status.(observedRef := Some(Ref(p.name, conn.name)));
      var f := Found(info, drawn, ServiceOff(w, o.spec.name, info), SecretOff(w, o.spec.name, info), before,
                     WithFinalizerGeneration(o), false);
      plan := Plan(true, loads, p, conn, o.spec, f, false);
      ChosenFindable(w, o.spec, plan);
    } else {
      var f := Found(DbInfo("", "", "", "", 0), drawn, false, false, o.status, o.generation, false);
      var none := (Provider("", MySqlType, "", []), Connection("", "", SecretRef("", ""), 0, "", false));
      var (p, conn) := if r.Some? then r.value else none;
      plan := Plan(false, loads, p, conn, o.spec, f, false);
      if r.Some? {
        ChosenFindable(w, o.spec, plan);
      }
    }
  }

  // A fault-free pass over a new request, as its user has created it, reports Ready=True exactly when the search finds
  // a connection and the last one of its name there has a password, and its server has the row or takes the one drawn.
  lemma FirstPassIff(w: World, answers: seq<Answer>, loads: Loads, drawn: Info)
    requires WorldOk(w) && w.request.Some? && New(w.request.value) && DistinctProviders(w.providers)
    requires AllOk(answers, drawn) && (forall a :: a in answers ==> a.loads == loads) && |answers| >= LONGEST
    ensures var t := Calls(AfterRead(w, w.request.value), answers);
      && t.pc.Idle? && t.w.request.Some?
      && (t.w.request.value.status.conditions.ready.Up? <==> CanPlace(w, w.request.value.spec, loads, drawn))
      && (!t.w.request.value.status.conditions.ready.Up? ==> t.w.request.value.status.conditions.ready.Down?)
  {
    var o := w.request.value;
    var plan := PlanFor(w, o, loads, drawn);
    var t := FirstPass(w, answers, plan);
    PlaceableIff(w, o.spec, loads, drawn);
  }

  /** What becomes of it */

  lemma {:induction false} CallsKeepLists(s: State, answers: seq<Answer>)
    ensures Calls(s, answers).w.providers == s.w.providers && Calls(s, answers).w.key == s.w.key
    decreases |answers|
  {
    if answers == [] {
    } else {
      CallLists(s, answers[0]);
      CallsKeepLists(OnCall(s, answers[0]), answers[1..]);
    }
  }

  lemma FirstPassBehind(w: World, answers: seq<Answer>, plan: Plan) returns (u: State)
    requires WorldOk(w) && w.request.Some? && New(w.request.value) && DistinctProviders(w.providers)
    requires Fits(w, w.request.value, plan) && Follows(answers, plan) && |answers| >= LONGEST && plan.keeps
    requires !plan.f.service && !plan.f.secret && plan.conn.passwordSecretRef != OwnSecret(w.key)
    ensures u == Calls(AfterRead(w, w.request.value), answers) && Behind(u.w, plan.p, plan.conn, plan.f.info)
  {
    u := FirstPassLeaves(w, answers, plan);
    CallsKeepLists(AfterRead(w, w.request.value), answers);
    StoredObjectOk(w);
    FitsSelects(w, w.request.value, plan);
    ArrivedBehind(u, plan);
  }

  lemma ArrivedBehind(t: State, plan: Plan)
    requires WorldOk(t.w) && Arrived(t, plan) && plan.good && plan.keeps && Findable(t.w, plan)
    requires OfSql(plan.spec.typ) && plan.spec.seed.None? && DistinctProviders(t.w.providers)
    requires plan.conn.hostname == plan.f.info.hostName && plan.conn.port == plan.f.info.port
    requires !plan.f.placed && plan.f.before.observedGeneration <= plan.f.generation
    requires !plan.f.service && !plan.f.secret && plan.conn.passwordSecretRef != OwnSecret(t.w.key)
    ensures Behind(t.w, plan.p, plan.conn, plan.f.info)
  {
    RefersAgain(t.w, t.w.request.value.spec, plan);
    HasRowThen(t.w, plan.conn, plan.f.info);
  }

  lemma RefersAgain(w: World, spec: Spec, plan: Plan)
    requires Findable(w, plan) && spec.ref == Some(RefOf(plan))
    ensures Refers(w, spec, plan.p, plan.conn)
  {
    var j := FindsLast(plan.p.connections, plan.conn.name);
  }

  lemma HasRowThen(w: World, conn: Connection, info: DbInfo)
    requires HasDatabase(w, conn, info)
    ensures RowSays(w, conn, info)
  {
    var row := Row(w.key, Info(info.userName, info.password, info.database));
    assert row in At(w, conn).rows;
  }

  // So no later pass over a new request rests: its first pass stores the reference with its Update, which is a new
  // generation, and reports the one before; and the passes after it find nothing changed and report nothing. This
  // holds whenever neither Service nor Secret is there with other contents at first.
  lemma NewRequestNeverRests(w: World, answers: seq<Answer>, plan: Plan, passes: seq<seq<Answer>>)
    requires WorldOk(w) && w.request.Some? && New(w.request.value) && DistinctProviders(w.providers)
    requires Fits(w, w.request.value, plan) && Follows(answers, plan) && |answers| >= LONGEST && plan.keeps
    requires !plan.f.service && !plan.f.secret && plan.conn.passwordSecretRef != OwnSecret(w.key)
    requires forall pass :: pass in passes ==> Keeping(pass, plan.f.drawn) && |pass| >= LONGEST
    ensures var t := Passes(Calls(AfterRead(w, w.request.value), answers).w, passes);
      t.request.Some? && Due(t.request.value) && !AfterRead(t, t.request.value).pc.Idle?
  {
    var t := FirstPassBehind(w, answers, plan);
    NeverRests(t.w, passes, plan.f.drawn, plan.p, plan.conn, plan.f.info);
  }
}
