// When a fault-free pass over a placed request ends with Ready=True.
module Completion {
  import opened Common
  import opened Registry
  import opened Placement
  import opened SecretKeys
  import opened Cluster
  import opened Reconcile
  import opened Safety
  import opened SafetySteps
  import opened Guarantees
  import opened Deletion
  import opened Conditions

  // The row is there or can be inserted.
  predicate RowOrRoom(w: World, conn: Connection, drawn: Info) {
    var a := AddrOf(conn);
    a in w.servers && (Lookup(w.servers[a].rows, w.key).Some? || !Clashes(w.servers[a].rows, Row(w.key, drawn)))
  }

  predicate Served(w: World, typ: DbType, conn: Connection, drawn: Info) {
    ServerFor(w, typ, conn).Some? && RowOrRoom(w, conn, drawn)
  }

  // What relDBInfo needs: the reference resolves, the password is there, and the server has or takes the row.
  predicate Informable(w: World, spec: Spec, drawn: Info) {
    match Referred(w, spec)
    case None => false
    case Some(conn) => HasPassword(w, conn) && Served(w, spec.typ, conn, drawn)
  }

  predicate OpPending(w: World, op: Op, drawn: Info) {
    op.task.Fetch? && op.key == w.key && op.drawn == drawn && (op.pc.Use? || op.pc.Select? || op.pc.Insert?)
  }

  // Where a fault-free pass is, and whether it is going to be good.
  predicate Track(s: State, good: bool, drawn: Info) {
    var w := s.w;
    match s.pc
    case Idle =>
      w.request.Some? && if good then w.request.value.status.conditions.ready.Up?
                         else w.request.value.status.conditions.ready.Down?
    case Informing(c, step) =>
      && Current(w, c) && Relational(c.spec.typ)
      && (match step
          case ReadProvider => good <==> Informable(w, c.spec, drawn)
          case ReadPassword(p, conn) => good <==> HasPassword(w, conn) && Served(w, c.spec.typ, conn, drawn)
          case RunFetch(p, conn, op) =>
            && OpPending(w, op, drawn) && (good <==> Served(w, c.spec.typ, conn, drawn)))
    case Aligning(c, step) =>
      && Current(w, c) && good
      && (match step
          case ReadService(wanted) => wanted.Some?
          case CreateService(_) => c.spec.name !in w.services
          case UpdateService(_) => c.spec.name in w.services
          case ReadSecret(_, _, _) => true
          case CreateSecret(_, _, _) => OwnSecret(w.key) !in w.secrets
          case UpdateSecret(_, _) => OwnSecret(w.key) in w.secrets)
    case Closing(c, step) =>
      && Current(w, c)
      && (match step
          case Finalize(_) => good
          case WriteReady => good && c.status.conditions.ready.Up?
          case WriteError => !good && c.status.conditions.ready.Down?)
    case _ => false
  }

  lemma FetchTracks(w: World, c: Object, p: Provider, conn: Connection, op: Op, a: Answer, good: bool, drawn: Info)
    requires OpAt(w, c, conn, op) && Track(State(w, Informing(c, RunFetch(p, conn, op))), good, drawn) && a.fault.Ok?
    ensures Track(OnFetch(w, c, p, conn, op, a), good, drawn)
  {
  }

  lemma InformingTracks(w: World, c: Object, step: InfoStep, a: Answer, good: bool, drawn: Info)
    requires InfoOk(w, c, step) && Track(State(w, Informing(c, step)), good, drawn) && a.fault.Ok? && a.drawn == drawn
    ensures Track(OnInforming(w, c, step, a), good, drawn)
  {
    match step
    case ReadProvider =>
    case ReadPassword(p, conn) =>
    case RunFetch(p, conn, op) => FetchTracks(w, c, p, conn, op, a, good, drawn);
  }

  lemma AligningTracks(w: World, c: Object, step: AlignStep, a: Answer, good: bool, drawn: Info)
    requires Track(State(w, Aligning(c, step)), good, drawn) && a.fault.Ok?
    ensures Track(OnAligning(w, c, step, a), good, drawn)
  {
  }

  lemma FinalizeTracks(w: World, c: Object, changed: bool, a: Answer, drawn: Info)
    requires CloseOk(w, c, Finalize(changed)) && Current(w, c) && a.fault.Ok?
    ensures Track(OnFinalize(w, c, changed, a), true, drawn)
  {
  }

  lemma StatusTracks(w: World, c: Object, a: Answer, drawn: Info)
    requires Current(w, c) && a.fault.Ok?
    ensures c.status.conditions.ready.Up? ==> Track(OnSetReady(w, c, a), true, drawn)
    ensures c.status.conditions.ready.Down? ==> Track(OnError(w, c, a), false, drawn)
  {
  }

  lemma CallTracks(s: State, a: Answer, good: bool, drawn: Info)
    requires Inv(s) && Track(s, good, drawn) && a.fault.Ok? && a.drawn == drawn
    ensures Track(OnCall(s, a), good, drawn)
  {
    match s.pc
    case Idle =>
    case Informing(c, step) => InformingTracks(s.w, c, step, a, good, drawn);
    case Aligning(c, step) => AligningTracks(s.w, c, step, a, good, drawn);
    case Closing(c, step) => {
      match step {
        case Finalize(changed) => FinalizeTracks(s.w, c, changed, a, drawn);
        case _ => StatusTracks(s.w, c, a, drawn);
      }
    }
  }

  lemma {:induction false} CallsTrack(s: State, answers: seq<Answer>, good: bool, drawn: Info)
    requires Inv(s) && Track(s, good, drawn) && AllOk(answers, drawn)
    ensures Inv(Calls(s, answers)) && Track(Calls(s, answers), good, drawn)
    decreases |answers|
  {
    if answers == [] {
    } else {
      CallOk(s, answers[0]);
      CallTracks(s, answers[0], good, drawn);
      CallsTrack(OnCall(s, answers[0]), answers[1..], good, drawn);
    }
  }

  // The request as the finalizer write stores it.
  function WithFinalizer(w: World, c: Object): Object {
    Updated(c, c.(finalizer := true)).(rv := w.clock)
  }

  // The first call of a pass over a stored request that has no finalizer yet: the pass goes on as if it had read
  // what that call has stored.
  lemma AddsFinalizer(w: World, c: Object, answers: seq<Answer>, drawn: Info)
    requires WorldOk(w) && w.request == Some(c) && !c.deleting && !c.finalizer && !Skips(c)
    requires AllOk(answers, drawn) && |answers| > 0
    ensures var o := WithFinalizer(w, c); var w' := Store(w, Updated(c, c.(finalizer := true)));
      && WorldOk(w') && OnlyRequest(w, w') && w'.request == Some(o) && !Skips(o)
      && Calls(AfterRead(w, c), answers) == Calls(AfterRead(w', o), answers[1..])
      && AllOk(answers[1..], drawn)
  {
    var c' := c.(finalizer := true);
    assert answers[0] in answers;
    UpdateOk(w, c');
    assert AfterRead(w, c) == State(w, Adding(c'));
    FinalizerLands(w, c, answers[0]);
  }

  lemma FinalizerLands(w: World, c: Object, a: Answer)
    requires w.request == Some(c) && !c.deleting && !c.finalizer && !Skips(c) && a.fault.Ok?
    ensures var o := WithFinalizer(w, c); var w' := Store(w, Updated(c, c.(finalizer := true)));
      && Update(w, c.(finalizer := true)) == Success(w') && !Skips(o)
      && OnAddFinalizer(w, c.(finalizer := true), a) == AfterRead(w', o)
  {
    var w' := Store(w, Updated(c, c.(finalizer := true)));
    assert Decoded(c.(finalizer := true), w'.request.value, a.keep) == w'.request.value;
  }

  // A fault-free pass over a settled request that it does not skip reports Ready=True exactly when the reference
  // resolves to a connection with a password whose server has the request's row or takes the one drawn.
  lemma ReadyIff(w: World, answers: seq<Answer>, drawn: Info)
    requires WorldOk(w) && w.request.Some? && Settled(w.request.value) && OfSql(w.request.value.spec.typ)
    requires !w.request.value.deleting && Due(w.request.value)
    requires AllOk(answers, drawn) && |answers| >= LONGEST
    ensures var t := Calls(AfterRead(w, w.request.value), answers);
      && t.pc.Idle? && t.w.request.Some?
      && (t.w.request.value.status.conditions.ready.Up? <==> Informable(w, w.request.value.spec, drawn))
      && (!t.w.request.value.status.conditions.ready.Up? ==> t.w.request.value.status.conditions.ready.Down?)
    ensures DistinctProviders(w.providers) ==>
      (Informable(w, w.request.value.spec, drawn) <==> CanInform(w, w.request.value.spec, drawn))
  {
    var c := w.request.value;
    if DistinctProviders(w.providers) {
      InformableIff(w, c.spec, drawn);
    }
    if c.finalizer {
      FinalizedReadyIff(w, answers, drawn);
    } else {
      AddsFinalizer(w, c, answers, drawn);
      var w' := Store(w, Updated(c, c.(finalizer := true)));
      InformableSent(w, w', c.spec, drawn);
      FinalizedReadyIff(w', answers[1..], drawn);
    }
  }

  lemma ServedIff(w: World, typ: DbType, conn: Connection, drawn: Info)
    requires OfSql(typ)
    ensures HasPassword(w, conn) && Served(w, typ, conn, drawn) <==> Usable(w, typ, conn) && TakesRow(w, conn, drawn)
  {
    if AddrOf(conn) in w.servers {
      RowIff(At(w, conn), w.key, drawn);
    }
  }

  lemma InformableIff(w: World, spec: Spec, drawn: Info)
    requires DistinctProviders(w.providers) && OfSql(spec.typ)
    ensures Informable(w, spec, drawn) <==> CanInform(w, spec, drawn)
  {
    if Informable(w, spec, drawn) {
      var conn := Referred(w, spec).value;
      RefersIff(w, spec, conn);
      ServedIff(w, spec.typ, conn, drawn);
      var p :| Refers(w, spec, p, conn);
      assert Usable(w, spec.typ, conn) && TakesRow(w, conn, drawn);
    }
    if p, conn :| Refers(w, spec, p, conn) && Usable(w, spec.typ, conn) && TakesRow(w, conn, drawn) {
      RefersIff(w, spec, conn);
      ServedIff(w, spec.typ, conn, drawn);
    }
  }

  lemma InformableSent(w: World, w': World, spec: Spec, drawn: Info)
    requires OnlyRequest(w, w')
    ensures Informable(w', Sent(spec), drawn) <==> Informable(w, spec, drawn)
  {
  }

  lemma FinalizedReadyIff(w: World, answers: seq<Answer>, drawn: Info)
    requires WorldOk(w) && w.request.Some? && Settled(w.request.value) && Relational(w.request.value.spec.typ)
    requires !w.request.value.deleting && w.request.value.finalizer && !Skips(w.request.value)
    requires AllOk(answers, drawn) && |answers| >= LONGEST - 1
    ensures var t := Calls(AfterRead(w, w.request.value), answers);
      && t.pc.Idle? && t.w.request.Some?
      && (t.w.request.value.status.conditions.ready.Up? <==> Informable(w, w.request.value.spec, drawn))
      && (!t.w.request.value.status.conditions.ready.Up? ==> t.w.request.value.status.conditions.ready.Down?)
  {
    var c := w.request.value;
    var s := AfterRead(w, c);
    AfterReadOk(w, c.rv);
    assert Track(s, Informable(w, c.spec, drawn), drawn);
    CallsTrack(s, answers, Informable(w, c.spec, drawn), drawn);
    PassEnds(s, answers);
  }

  // Service, Secret and servers are untouched. Without a reference the pass reports that there is none, or that it
  // cannot create one; with a reference it ends where handleService panics.
  predicate EndsInVain(w: World, o: Object, t: State) {
    && t.pc.Idle? && t.w.request.Some?
    && t.w.services == w.services && t.w.secrets == w.secrets && t.w.servers == w.servers
    && t.w.request.value.status.conditions ==
         if o.spec.ref.Some? then o.status.conditions
         else if o.spec.typ.MongoDbType? then Conditions(Down(MissingReference), Some(MissingReference))
         else Conditions(Down(Cause.CreateDatabase), Some(Cause.CreateDatabase))
  }

  // A pass over a request of a type without an implementation.
  lemma OtherTypes(w: World, answers: seq<Answer>, drawn: Info)
    requires WorldOk(w) && w.request.Some? && !OfSql(w.request.value.spec.typ) && w.request.value.spec.seed.None?
    requires !w.request.value.deleting && Due(w.request.value) && AllOk(answers, drawn) && |answers| >= 2
    ensures EndsInVain(w, w.request.value, Calls(AfterRead(w, w.request.value), answers))
  {
    var c := w.request.value;
    if c.finalizer {
      FinalizedOtherTypes(w, answers, drawn);
    } else {
      AddsFinalizer(w, c, answers, drawn);
      FinalizedOtherTypes(Store(w, Updated(c, c.(finalizer := true))), answers[1..], drawn);
    }
  }

  lemma FinalizedOtherTypes(w: World, answers: seq<Answer>, drawn: Info)
    requires w.request.Some? && !OfSql(w.request.value.spec.typ) && w.request.value.spec.seed.None?
    requires !w.request.value.deleting && w.request.value.finalizer && Due(w.request.value)
    requires AllOk(answers, drawn) && |answers| >= 1
    ensures EndsInVain(w, w.request.value, Calls(AfterRead(w, w.request.value), answers))
  {
    var s := AfterRead(w, w.request.value);
    assert answers[0] in answers;
    FirstCallInVain(w, answers[0]);
    IdleStays(OnCall(s, answers[0]), answers[1..]);
  }

  lemma FirstCallInVain(w: World, a: Answer)
    requires w.request.Some? && !OfSql(w.request.value.spec.typ) && w.request.value.spec.seed.None?
    requires !w.request.value.deleting && w.request.value.finalizer && Due(w.request.value) && a.fault.Ok?
    ensures EndsInVain(w, w.request.value, OnCall(AfterRead(w, w.request.value), a))
  {
  }
}
