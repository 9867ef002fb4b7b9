// A request with a seed: exactly when a fault-free pass takes the seed over, and when it can be retried.
module SeedPass {
  import opened Common
  import opened Registry
  import opened Placement
  import opened SecretKeys
  import opened Cluster
  import opened Reconcile
  import opened Safety
  import opened SafetySteps
  import opened Guarantees
  import opened Deletion
  import opened Completion
  import opened Seeds
  import opened Conditions

  /** When a pass over a seed succeeds */

  // The seed has a match: a connection that has a password and whose server speaks the request's type.
  predicate Takeable(w: World, spec: Spec, d: DbInfo) {
    match SeedMatch(w.providers, Sought(spec), d.hostName, d.port)
    case None => false
    case Some((p, conn)) => HasPassword(w, conn) && ServerFor(w, spec.typ, conn).Some?
  }

  // The seed's Secret is there and parses, the type is relational, and the seed has a match.
  predicate SeedUsable(w: World, spec: Spec) {
    && spec.seed.Some? && spec.seed.value in w.secrets && Relational(spec.typ)
    && match DbInfoFromSeed(w.secrets[spec.seed.value])
       case None => false
       case Some(d) => Takeable(w, spec, d)
  }

  predicate SeedTrack(w: World, c: Object, step: SeedStep, good: bool) {
    && Current(w, c) && c.spec.seed.Some?
    && (step.ReadSeed? || c.spec.seed.value in w.secrets)
    && match step
       case ReadSeed => good <==> SeedUsable(w, c.spec)
       case PingSeed(_, d) => good <==> Relational(c.spec.typ) && Takeable(w, c.spec, d)
       case ListForSeed(_, d) => good <==> Takeable(w, c.spec, d)
       case ReadSeedPassword(_, _, _, conn) => good <==> HasPassword(w, conn) && ServerFor(w, c.spec.typ, conn).Some?
       case RecordSeed(_, _, _, conn, op) =>
         (good <==> ServerFor(w, c.spec.typ, conn).Some?) && op.task.Record? && (op.pc.Use? || op.pc.InsertIgnore?)
       case DeleteSeed(_, _, _, _) => good
  }

  // Where a fault-free pass is, and whether it is going to be good.
  predicate OnTrack(s: State, good: bool, drawn: Info) {
    if s.pc.Seeding? then SeedTrack(s.w, s.pc.c, s.pc.seed, good) else Track(s, good, drawn)
  }

  lemma RecordTracks(w: World, c: Object, step: SeedStep, a: Answer, good: bool, drawn: Info)
    requires step.RecordSeed? && SeedTrack(w, c, step, good) && a.fault.Ok?
    ensures OnTrack(OnSeeding(w, c, step, a), good, drawn)
  {
    var s := ServerFor(w, c.spec.typ, step.conn);
    if s.Some? {
      var w' := w.(servers := w.servers[AddrOf(step.conn) := Step(s.value, step.op).0]);
      assert ServerFor(w', c.spec.typ, step.conn).Some?;
    }
  }

  lemma SeedingTracks(w: World, c: Object, step: SeedStep, a: Answer, good: bool, drawn: Info)
    requires SeedTrack(w, c, step, good) && a.fault.Ok?
    ensures OnTrack(OnSeeding(w, c, step, a), good, drawn)
  {
    if step.RecordSeed? {
      RecordTracks(w, c, step, a, good, drawn);
    }
  }

  lemma {:induction false} CallsOnTrack(s: State, answers: seq<Answer>, good: bool, drawn: Info)
    requires Inv(s) && OnTrack(s, good, drawn) && AllOk(answers, drawn)
    ensures OnTrack(Calls(s, answers), good, drawn)
    decreases |answers|
  {
    if answers == [] {
    } else {
      var s' := OnCall(s, answers[0]);
      CallOk(s, answers[0]);
      CallOnTrack(s, answers[0], good, drawn);
      CallsOnTrack(s', answers[1..], good, drawn);
    }
  }

  lemma CallOnTrack(s: State, a: Answer, good: bool, drawn: Info)
    requires Inv(s) && OnTrack(s, good, drawn) && a.fault.Ok? && a.drawn == drawn
    ensures OnTrack(OnCall(s, a), good, drawn)
  {
    if s.pc.Seeding? {
      SeedingTracks(s.w, s.pc.c, s.pc.seed, a, good, drawn);
    } else {
      CallTracks(s, a, good, drawn);
    }
  }

  // A fault-free pass over a request with a seed reports Ready=True exactly when the seed is usable.
  lemma SeedPassIff(w: World, answers: seq<Answer>, drawn: Info)
    requires WorldOk(w) && w.request.Some? && w.request.value.spec.seed.Some? && !w.request.value.deleting
    requires AllOk(answers, drawn) && |answers| >= LONGEST
    ensures var t := Calls(AfterRead(w, w.request.value), answers);
      && t.pc.Idle? && t.w.request.Some?
      && (t.w.request.value.status.conditions.ready.Up? <==> SeedUsable(w, w.request.value.spec))
      && (!t.w.request.value.status.conditions.ready.Up? ==> t.w.request.value.status.conditions.ready.Down?)
    ensures SeedUsable(w, w.request.value.spec) <==> CanTakeOver(w, w.request.value.spec)
  {
    var c := w.request.value;
    SeedsDoNotSkip(w);
    UsableIff(w, c.spec);
    if c.finalizer {
      FinalizedSeedPass(w, answers, drawn);
    } else {
      AddsFinalizer(w, c, answers, drawn);
      var w' := Store(w, Updated(c, c.(finalizer := true)));
      UsableSent(w, w', c.spec);
      FinalizedSeedPass(w', answers[1..], drawn);
    }
  }

  // What a pass has brought into line has its reference instead of a seed.
  lemma SeedsDoNotSkip(w: World)
    requires WorldOk(w) && w.request.Some? && w.request.value.spec.seed.Some?
    ensures !Skips(w.request.value)
  {
    StoredObjectOk(w);
  }

  lemma UsableIff(w: World, spec: Spec)
    ensures SeedUsable(w, spec) <==> CanTakeOver(w, spec)
  {
    if spec.seed.Some? && spec.seed.value in w.secrets && DbInfoFromSeed(w.secrets[spec.seed.value]).Some? {
      var q, d := Sought(spec), DbInfoFromSeed(w.secrets[spec.seed.value]).value;
      if SeedMatch(w.providers, q, d.hostName, d.port).Some? {
        var a, b := SeedMatchIsLast(w.providers, q, d.hostName, d.port);
        forall i: nat, j: nat | LastServes(w.providers, q, d.hostName, d.port, i, j) ensures i == a && j == b {
          OneLast(w.providers, q, d.hostName, d.port, i, j, a, b);
        }
      }
    }
  }

  lemma UsableSent(w: World, w': World, spec: Spec)
    requires OnlyRequest(w, w')
    ensures SeedUsable(w', Sent(spec)) <==> SeedUsable(w, spec)
  {
  }

  lemma FinalizedSeedPass(w: World, answers: seq<Answer>, drawn: Info)
    requires WorldOk(w) && w.request.Some? && w.request.value.spec.seed.Some?
    requires !w.request.value.deleting && w.request.value.finalizer && !Skips(w.request.value)
    requires AllOk(answers, drawn) && |answers| >= LONGEST - 1
    ensures var t := Calls(AfterRead(w, w.request.value), answers);
      && t.pc.Idle? && t.w.request.Some?
      && (t.w.request.value.status.conditions.ready.Up? <==> SeedUsable(w, w.request.value.spec))
      && (!t.w.request.value.status.conditions.ready.Up? ==> t.w.request.value.status.conditions.ready.Down?)
  {
    var c := w.request.value;
    var s := AfterRead(w, c);
    AfterReadOk(w, c.rv);
    CallsOnTrack(s, answers, SeedUsable(w, c.spec), drawn);
    PassEnds(s, answers);
  }

  /** When it can be retried */

  // Passes get no further than reading it.
  predicate Stuck(s: State, r: SecretRef) {
    && r !in s.w.secrets
    && match s.pc
       case Idle => true
       case Reading => true
       case Adding(c) => c.spec.seed == Some(r)
       case Seeding(c, step) => step.ReadSeed? && c.spec.seed == Some(r)
       case Closing(_, step) => step.WriteError?
       case _ => false
  }

  predicate Stranded(w: World, r: SecretRef) {
    && w.request.Some? && w.request.value.spec.seed == Some(r) && !w.request.value.deleting
    && !w.request.value.status.conditions.ready.Up?
  }

  lemma StuckCall(s: State, a: Answer, r: SecretRef)
    requires Inv(s) && Stuck(s, r) && Stranded(s.w, r)
    ensures Stuck(OnCall(s, a), r) && Stranded(OnCall(s, a).w, r)
    ensures SamePlacement(s.w.request.value.spec, OnCall(s, a).w.request.value.spec)
  {
    match s.pc
    case Adding(c) => StuckAdding(s.w, c, a, r);
    case Closing(c, step) => StuckStatus(s.w, c, a);
    case _ =>
  }

  lemma StuckAdding(w: World, c: Object, a: Answer, r: SecretRef)
    requires Inv(State(w, Adding(c))) && Stuck(State(w, Adding(c)), r) && Stranded(w, r)
    ensures var s := OnAddFinalizer(w, c, a);
      Stuck(s, r) && Stranded(s.w, r) && SamePlacement(w.request.value.spec, s.w.request.value.spec)
  {
    if Update(w, c).Success? {
      UpdateOk(w, c);
    }
  }

  lemma StuckStatus(w: World, c: Object, a: Answer)
    requires CloseOk(w, c, WriteError) && w.request.Some? && !w.request.value.status.conditions.ready.Up?
    ensures var w' := OnError(w, c, a).w;
      && w'.request.Some? && w'.request.value.spec == w.request.value.spec && w'.secrets == w.secrets
      && w'.request.value.deleting == w.request.value.deleting && !w'.request.value.status.conditions.ready.Up?
  {
  }

  lemma StuckNext(s: State, a: Action, r: SecretRef)
    requires Inv(s) && Stuck(s, r) && Stranded(s.w, r) && !a.Env?
    requires a.Read? ==> s.w.request.Some? && s.w.request.value.rv == a.version
    ensures Stuck(Next(s, a), r) && Stranded(Next(s, a).w, r)
    ensures SamePlacement(s.w.request.value.spec, Next(s, a).w.request.value.spec)
  {
    if a.Call? {
      StuckCall(s, a.answer, r);
    } else if a.Read? && s.pc.Reading? {
      StuckRead(s.w, s.w.request.value, r);
    }
  }

  lemma StuckRead(w: World, c: Object, r: SecretRef)
    requires w.request == Some(c) && Stranded(w, r) && r !in w.secrets
    ensures AfterRead(w, c).w == w && Stuck(AfterRead(w, c), r)
  {
  }

  // After a pass deleted the seed Secret but did not get through the Update that clears Spec.Seed, no later pass of the
  // controller alone gets anywhere: the request keeps its seed and never becomes Ready. (SeedConserved still
  // holds of the credentials.)
  lemma {:induction false} SeedNotRetriable(s: State, actions: seq<Action>, r: SecretRef)
    requires Inv(s) && Stuck(s, r) && Stranded(s.w, r)
    requires NoOutside(actions) && CurrentReads(s, actions)
    ensures Stranded(Run(s, actions).w, r)
    ensures SamePlacement(s.w.request.value.spec, Run(s, actions).w.request.value.spec)
    decreases |actions|
  {
    if actions == [] {
    } else {
      NextOk(s, actions[0]);
      StuckNext(s, actions[0], r);
      SeedNotRetriable(Next(s, actions[0]), actions[1..], r);
    }
  }

  /** Runs that get there */

  function Times(a: Answer, n: nat): (answers: seq<Answer>)
    ensures |answers| == n && forall x :: x in answers ==> x == a
  {
    seq(n, i requires 0 <= i < n => a)
  }

  function CallsOf(answers: seq<Answer>): (actions: seq<Action>)
    ensures |actions| == |answers|
  {
    seq(|answers|, i requires 0 <= i < |answers| => Call(answers[i]))
  }

  lemma {:induction false} RunCalls(s: State, answers: seq<Answer>)
    ensures Run(s, CallsOf(answers)) == Calls(s, answers)
    decreases |answers|
  {
    if answers == [] {
    } else {
      assert CallsOf(answers)[1..] == CallsOf(answers[1..]);
      RunCalls(OnCall(s, answers[0]), answers[1..]);
    }
  }

  // Nothing but the credentials of this seed has been recorded.
  predicate RecordedOnly(w: World, i: Info) {
    forall t :: t in w.history.recorded ==> t.1 == i
  }

  // A usable seed stays on course until its Secret is to be deleted.
  lemma SeedingProceeds(w: World, c: Object, step: SeedStep, a: Answer, contents: map<string, string>, d: DbInfo)
    requires SeedOk(w, c, step) && SeedTrack(w, c, step, true) && !step.DeleteSeed? && a.fault.Ok?
    requires HasRead(step, contents) && c.spec.seed.value in w.secrets && w.secrets[c.spec.seed.value] == contents
    requires DbInfoFromSeed(contents) == Some(d) && RecordedOnly(w, Credentials(d))
    ensures var s := OnSeeding(w, c, step, a);
      && s.pc.Seeding? && s.pc.c == c && s.w.request == w.request && s.w.secrets == w.secrets && s.w.key == w.key
      && HasRead(s.pc.seed, contents) && RecordedOnly(s.w, Credentials(d)) && SeedTrack(s.w, c, s.pc.seed, true)
  {
    SeedingTracks(w, c, step, a, true, a.drawn);
    if step.RecordSeed? {
      RecordProceeds(w, c, step, a, contents, d);
    }
  }

  lemma RecordProceeds(w: World, c: Object, step: SeedStep, a: Answer, contents: map<string, string>, d: DbInfo)
    requires SeedOk(w, c, step) && SeedTrack(w, c, step, true) && step.RecordSeed? && a.fault.Ok?
    requires HasRead(step, contents) && DbInfoFromSeed(contents) == Some(d) && RecordedOnly(w, Credentials(d))
    ensures var s := OnSeeding(w, c, step, a);
      && s.pc.Seeding? && s.pc.c == c && s.w.request == w.request && s.w.secrets == w.secrets && s.w.key == w.key
      && HasRead(s.pc.seed, contents) && RecordedOnly(s.w, Credentials(d))
  {
  }

  // A state of a pass that is about to delete the Secret of a usable seed.
  ghost predicate AboutToDelete(s: State, c: Object, contents: map<string, string>) {
    && Inv(s) && s.pc.Seeding? && s.pc.c == c && s.pc.seed.DeleteSeed? && s.pc.seed.data == contents
    && c.spec.seed.Some? && c.spec.seed.value in s.w.secrets && s.w.secrets[c.spec.seed.value] == contents
    && s.w.request == Some(c)
  }

  // A fault-free pass over a usable seed, on its way there.
  ghost predicate OnCourse(s: State, c: Object, contents: map<string, string>, d: DbInfo) {
    && Inv(s) && s.pc.Seeding? && s.pc.c == c && SeedTrack(s.w, c, s.pc.seed, true) && s.w.request == Some(c)
    && c.spec.seed.value in s.w.secrets && s.w.secrets[c.spec.seed.value] == contents
    && HasRead(s.pc.seed, contents) && DbInfoFromSeed(contents) == Some(d) && RecordedOnly(s.w, Credentials(d))
  }

  lemma StaysOnCourse(s: State, a: Answer, c: Object, contents: map<string, string>, d: DbInfo)
    requires OnCourse(s, c, contents, d) && !s.pc.seed.DeleteSeed? && a.fault.Ok?
    ensures var s' := OnCall(s, a);
      OnCourse(s', c, contents, d) && s'.w.key == s.w.key && Effort(s'.pc) < Effort(s.pc)
  {
    SeedingProceeds(s.w, c, s.pc.seed, a, contents, d);
    SeedingAdvances(s, a);
  }

  lemma Arrives(s: State, c: Object, contents: map<string, string>, d: DbInfo)
    requires OnCourse(s, c, contents, d) && s.pc.seed.DeleteSeed?
    ensures AboutToDelete(s, c, contents) && RecordedOnly(s.w, Credentials(d))
  {
  }

  lemma {:induction false} ReachesDeletion(s: State, a: Answer, c: Object, contents: map<string, string>, d: DbInfo)
    returns (n: nat, t: State)
    requires OnCourse(s, c, contents, d) && a.fault.Ok?
    ensures t == Calls(s, Times(a, n)) && t.w.key == s.w.key
    ensures OnCourse(t, c, contents, d) && t.pc.seed.DeleteSeed?
    decreases Effort(s.pc)
  {
    if s.pc.seed.DeleteSeed? {
      n, t := 0, s;
    } else {
      var s' := OnCall(s, a);
      StaysOnCourse(s, a, c, contents, d);
      n, t := ReachesDeletion(s', a, c, contents, d);
      CallsTimes(s, a, n);
      n := n + 1;
    }
  }

  lemma CallsTimes(s: State, a: Answer, m: nat)
    ensures Calls(s, Times(a, m + 1)) == Calls(OnCall(s, a), Times(a, m))
  {
    assert Times(a, m + 1)[1..] == Times(a, m);
  }

  lemma SeedingAdvances(s: State, a: Answer)
    requires Inv(s) && s.pc.Seeding?
    ensures Inv(OnCall(s, a)) && Effort(OnCall(s, a).pc) < Effort(s.pc)
  {
    CallOk(s, a);
    assert InFlight(s.pc);
    PassProgresses(s, a);
  }

  // The first actions for a request with a seed: it is created, and the first pass gets its finalizer stored.
  function Opening(v: nat, spec: Spec, a: Answer): seq<Action> {
    [Env(Apply(spec)), Begin, Read(v), Call(a)]
  }

  lemma Opened(s: State, spec: Spec, a: Answer)
    requires Init(s) && spec.seed.Some? && a.fault.Ok?
    ensures var t := Run(s, Opening(s.w.clock, spec, a));
      && Inv(t) && t.w.request.Some? && t.pc == Seeding(t.w.request.value, ReadSeed)
      && t.w.request.value.spec == Sent(spec) && t.w.request.value.status == NO_STATUS && !t.w.request.value.deleting
      && SameElse(s.w, t.w)
  {
    var v := s.w.clock;
    var first := [Env(Apply(spec)), Begin, Read(v)];
    Guarantees.Reachable(s, Opening(v, spec, a));
    FirstPass(s, spec);
    RunThenCall(s, first, a);
    assert first + [Call(a)] == Opening(v, spec, a);
    FirstPassKeeps(s, spec);
    FinalizerLands(Run(s, first).w, Fresh(v, spec), a);
  }

  predicate SameElse(w: World, w': World) {
    && w'.key == w.key && w'.secrets == w.secrets && w'.providers == w.providers && w'.servers == w.servers
    && w'.history == w.history
  }

  lemma FirstPassKeeps(s: State, spec: Spec)
    requires Init(s)
    ensures SameElse(s.w, Run(s, [Env(Apply(spec)), Begin, Read(s.w.clock)]).w)
  {
    Guarantees.Three(s, Env(Apply(spec)), Begin, Read(s.w.clock));
  }

  // From a cluster that has not seen the request, over the creation of a request with a usable seed, to the call
  // that deletes the seed's Secret.
  lemma SeedReached(s: State, spec: Spec, a: Answer) returns (actions: seq<Action>, c: Object, d: DbInfo)
    requires Init(s) && SeedUsable(s.w, spec) && a.fault.Ok?
    ensures var contents := s.w.secrets[spec.seed.value]; var t := Run(s, actions);
      && DbInfoFromSeed(contents) == Some(d) && AboutToDelete(t, c, contents) && RecordedOnly(t.w, Credentials(d))
      && c.spec == Sent(spec) && !c.deleting && !c.status.conditions.ready.Up? && t.w.key == s.w.key
  {
    var r := spec.seed.value;
    d := DbInfoFromSeed(s.w.secrets[r]).value;
    var first := Opening(s.w.clock, spec, a);
    Opened(s, spec, a);
    var t := Run(s, first);
    c := t.w.request.value;
    UsableElse(s.w, t.w, spec);
    var n, last := ReachesDeletion(t, a, c, s.w.secrets[r], d);
    Arrives(last, c, s.w.secrets[r], d);
    RunCalls(t, Times(a, n));
    RunAppend(s, first, CallsOf(Times(a, n)));
    actions := first + CallsOf(Times(a, n));
  }

  lemma UsableElse(w: World, w': World, spec: Spec)
    requires SameElse(w, w')
    ensures SeedUsable(w', Sent(spec)) <==> SeedUsable(w, spec)
  {
  }

  // The answer of that call is lost: the request is stranded, in a state from which SeedNotRetriable holds.
  lemma SeedStrands(s: State, spec: Spec, a: Answer, lost: Answer) returns (actions: seq<Action>)
    requires Init(s) && SeedUsable(s.w, spec) && a.fault.Ok? && lost.fault.Lost?
    ensures var t := Run(s, actions);
      Inv(t) && t.w.request.Some? && Stuck(t, spec.seed.value) && Stranded(t.w, spec.seed.value)
  {
    var before, c, d := SeedReached(s, spec, a);
    actions := before + [Call(lost)];
    var t := Run(s, before);
    RunThenCall(s, before, lost);
    LostDeletion(t, c, s.w.secrets[spec.seed.value], lost);
  }

  lemma LostDeletion(t: State, c: Object, contents: map<string, string>, lost: Answer)
    requires AboutToDelete(t, c, contents) && !c.deleting && !c.status.conditions.ready.Up? && lost.fault.Lost?
    ensures var s := OnCall(t, lost); Inv(s) && Stuck(s, c.spec.seed.value) && Stranded(s.w, c.spec.seed.value)
  {
    CallOk(t, lost);
    LostDeletionIs(t.w, c, t.pc.seed, lost);
  }

  lemma LostDeletionIs(w: World, c: Object, step: SeedStep, lost: Answer)
    requires step.DeleteSeed? && c.spec.seed.Some? && c.spec.seed.value in w.secrets && lost.fault.Lost?
    ensures var s := OnSeeding(w, c, step, lost);
      s.pc == Closing(SetError(c, Cause.HandleSeed), WriteError) && s.w.request == w.request
      && c.spec.seed.value !in s.w.secrets
  {
  }

  // Somebody edits the Secret between the read and that call: the new contents are deleted, the pass has never seen
  // them, and their credentials have been recorded nowhere.
  lemma EditedSeedIsLost(s: State, spec: Spec, a: Answer, data: map<string, string>, e: DbInfo)
    returns (actions: seq<Action>, x: SeedDeletion)
    requires Init(s) && SeedUsable(s.w, spec) && a.fault.Ok? && DbInfoFromSeed(data) == Some(e)
    requires DbInfoFromSeed(s.w.secrets[spec.seed.value]).value.password != e.password
    ensures var r := spec.seed.value; var w := Run(s, actions).w;
      && r !in w.secrets && x in w.history.seedDeletions
      && x.contents == Some(data) && x.data == s.w.secrets[r]
      && forall t :: t in w.history.recorded ==> t.1 != Credentials(e)
  {
    var r := spec.seed.value;
    var before, c, d := SeedReached(s, spec, a);
    var t := Run(s, before);
    var last := [Env(PutSecret(r, data)), Call(a)];
    actions := before + last;
    RunAppend(s, before, last);
    Two(t, Env(PutSecret(r, data)), Call(a));
    x := DeletesEdited(t, c, s.w.secrets[r], data, a);
  }

  lemma DeletesEdited(
    t: State, c: Object, contents: map<string, string>, data: map<string, string>, a: Answer) returns (x: SeedDeletion)
    requires AboutToDelete(t, c, contents) && a.fault.Ok?
    ensures var r := c.spec.seed.value; var w := OnCall(Next(t, Env(PutSecret(r, data))), a).w;
      && r !in w.secrets && x in w.history.seedDeletions && x.contents == Some(data) && x.data == contents
      && w.history.recorded == t.w.history.recorded
  {
    var DeleteSeed(_, d, p, conn) := t.pc.seed;
    x := SeedDeletion(c.spec, contents, d, Some(data), p, conn, t.w.servers[AddrOf(conn)].rows);
  }

  /** Retrying */

  // The seed's Secret may be gone and the request's own have changed.
  ghost predicate SecretsSince(w: World, r: SecretRef, w': World) {
    && (forall q :: q != OwnSecret(w.key) && q != r ==>
          (q in w'.secrets <==> q in w.secrets) && (q in w.secrets ==> w'.secrets[q] == w.secrets[q]))
    && (r in w'.secrets ==> r in w.secrets && w'.secrets[r] == w.secrets[r])
  }

  // What passes over the request, among others' statements, may have changed as far as its seed is concerned.
  ghost predicate SeedSince(w: World, r: SecretRef, w': World) {
    && w'.key == w.key && w'.providers == w.providers && Engines(w'.servers) == Engines(w.servers)
    && SecretsSince(w, r, w')
    && w.request.Some? && w'.request.Some?
    && var spec, spec' := w.request.value.spec, w'.request.value.spec;
       spec'.seed.Some? ==> spec.seed.Some? && SamePlacement(spec, spec')
  }

  // The request has this seed or none any more, it is not deleted, and so it is with a pass in progress.
  predicate SeedOnly(s: State, r: SecretRef) {
    && s.w.request.Some? && !s.w.request.value.deleting
    && (s.w.request.value.spec.seed == Some(r) || s.w.request.value.spec.seed == None)
    && (s.pc.Seeding? ==> s.pc.c.spec.seed == Some(r))
  }

  // A pass over a seed begins with what is stored then.
  lemma SeedOfPass(s: State, a: Answer)
    requires Inv(s) && !s.pc.Seeding? && OnCall(s, a).pc.Seeding?
    ensures var t := OnCall(s, a);
      t.w.request.Some? && t.pc.c == t.w.request.value && t.w.request.value.spec.seed.Some?
  {
    OnlyAddingSeeds(s, a);
    if Update(s.w, s.pc.c).Success? {
      UpdateOk(s.w, s.pc.c);
    }
  }

  lemma OnlyAddingSeeds(s: State, a: Answer)
    requires !s.pc.Seeding? && OnCall(s, a).pc.Seeding?
    ensures s.pc.Adding?
  {
  }

  lemma SeedStays(w: World, c: Object, step: SeedStep, a: Answer)
    ensures var s := OnSeeding(w, c, step, a); s.pc.Seeding? ==> s.pc.c == c
  {
  }

  lemma CallSecrets(s: State, a: Answer, r: SecretRef)
    requires Inv(s) && SeedOnly(s, r) && r != OwnSecret(s.w.key)
    ensures SecretsSince(s.w, r, OnCall(s, a).w)
  {
    var w, w' := s.w, OnCall(s, a).w;
    forall q | q != OwnSecret(w.key)
      ensures (q in w'.secrets ==> q in w.secrets && w'.secrets[q] == w.secrets[q])
      ensures q != r && q in w.secrets ==> q in w'.secrets
    {
      OneSecret(s, a, r, q);
    }
  }

  lemma OneSecret(s: State, a: Answer, r: SecretRef, q: SecretRef)
    requires Inv(s) && SeedOnly(s, r) && q != OwnSecret(s.w.key)
    ensures var w, w' := s.w, OnCall(s, a).w;
      && (q in w'.secrets ==> q in w.secrets && w'.secrets[q] == w.secrets[q])
      && (q != r && q in w.secrets ==> q in w'.secrets)
  {
    SecretsTouched(s, a, q);
  }

  lemma CallSeeds(s: State, a: Answer, r: SecretRef)
    requires Inv(s) && SeedOnly(s, r) && r != OwnSecret(s.w.key)
    ensures SeedOnly(OnCall(s, a), r) && SeedSince(s.w, r, OnCall(s, a).w)
  {
    var s' := OnCall(s, a);
    CallHasEffect(s, a);
    CallLists(s, a);
    CallSecrets(s, a, r);
    if s.pc.Seeding? {
      SeedStays(s.w, s.pc.c, s.pc.seed, a);
    } else if s'.pc.Seeding? {
      SeedOfPass(s, a);
    }
  }

  lemma NextSeeds(s: State, a: Action, r: SecretRef)
    requires Inv(s) && SeedOnly(s, r) && r != OwnSecret(s.w.key) && (a.Env? ==> a.e.OtherRequest?)
    requires a.Read? ==> s.w.request.value.rv == a.version
    ensures SeedOnly(Next(s, a), r) && SeedSince(s.w, r, Next(s, a).w)
  {
    match a
    case Env(e) => StatementSeeds(s, e, r);
    case Begin =>
    case Read(n) => ReadSeeds(s, r);
    case ReadFails =>
    case Call(answer) => CallSeeds(s, answer, r);
    case Restart =>
  }

  lemma StatementSeeds(s: State, e: Outside, r: SecretRef)
    requires SeedOnly(s, r) && e.OtherRequest?
    ensures var w' := Happen(s.w, e); SeedOnly(State(w', s.pc), r) && SeedSince(s.w, r, w')
  {
    if Allowed(s.w, e) {
      StepEngine(s.w.servers, e.addr, e.op);
    }
  }

  lemma ReadSeeds(s: State, r: SecretRef)
    requires Inv(s) && SeedOnly(s, r)
    ensures var t := Next(s, Read(s.w.request.value.rv)); SeedOnly(t, r) && t.w == s.w
  {
    if s.pc.Reading? {
      ReadChangesNothing(s.w, s.w.request.value);
    }
  }

  lemma SeedSinceTwice(w: World, r: SecretRef, w': World, w'': World)
    requires SeedSince(w, r, w') && SeedSince(w', r, w'')
    ensures SeedSince(w, r, w'')
  {
  }

  lemma {:induction false} RunSeeds(s: State, actions: seq<Action>, r: SecretRef)
    requires Inv(s) && SeedOnly(s, r) && r != OwnSecret(s.w.key)
    requires CurrentReads(s, actions) && forall a :: a in actions ==> a.Env? ==> a.e.OtherRequest?
    ensures SeedOnly(Run(s, actions), r) && SeedSince(s.w, r, Run(s, actions).w)
    decreases |actions|
  {
    if actions == [] {
    } else {
      var s' := Next(s, actions[0]);
      assert actions[0] in actions;
      NextOk(s, actions[0]);
      NextSeeds(s, actions[0], r);
      RunSeeds(s', actions[1..], r);
      SeedSinceTwice(s.w, r, s'.w, Run(s, actions).w);
    }
  }

  // The match of the seed, whose password is not kept in the Secret of the request.
  predicate MatchElsewhere(w: World, spec: Spec)
    requires SeedUsable(w, spec)
  {
    var d := DbInfoFromSeed(w.secrets[spec.seed.value]).value;
    SeedMatch(w.providers, Sought(spec), d.hostName, d.port).value.1.passwordSecretRef != OwnSecret(w.key)
  }

  // Retriability: a request with a usable seed goes through any passes, cut at any call, with others'
  // statements in between. While it has its seed, a fault-free pass takes it over exactly if its Secret
  // is still there.
  lemma SeedRetryIff(s: State, actions: seq<Action>, answers: seq<Answer>, drawn: Info, r: SecretRef)
    requires Inv(s) && s.pc.Idle? && s.w.request.Some? && !s.w.request.value.deleting
    requires var spec := s.w.request.value.spec;
      spec.seed == Some(r) && r != OwnSecret(s.w.key) && SeedUsable(s.w, spec) && MatchElsewhere(s.w, spec)
    requires CurrentReads(s, actions) && forall a :: a in actions ==> a.Env? ==> a.e.OtherRequest?
    requires AllOk(answers, drawn) && |answers| >= LONGEST
    ensures var w := Run(s, actions).w;
      && w.request.Some?
      && (w.request.value.spec.seed.Some? ==>
            var t := Calls(AfterRead(w, w.request.value), answers);
            t.pc.Idle? && t.w.request.Some? && (t.w.request.value.status.conditions.ready.Up? <==> r in w.secrets))
  {
    RunSeeds(s, actions, r);
    RunOk(s, actions);
    var w := Run(s, actions).w;
    var spec, spec' := s.w.request.value.spec, w.request.value.spec;
    if spec'.seed.Some? {
      SeedPassIff(w, answers, drawn);
      UsableSince(s.w, w, spec, spec', r);
    }
  }

  lemma UsableSince(w: World, w': World, spec: Spec, spec': Spec, r: SecretRef)
    requires spec.seed == Some(r) && SamePlacement(spec, spec') && r != OwnSecret(w.key)
    requires SeedSince(w, r, w') && SeedUsable(w, spec) && MatchElsewhere(w, spec)
    ensures SeedUsable(w', spec') <==> r in w'.secrets
  {
    assert forall a :: a in Engines(w.servers) <==> a in Engines(w'.servers);
    assert forall a :: a in w.servers ==> Engines(w.servers)[a] == Engines(w'.servers)[a];
  }
}
