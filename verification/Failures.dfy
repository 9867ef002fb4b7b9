// What a failing call leads to, wherever in a pass it happens.
module Failures {
  import opened Common
  import opened Registry
  import opened Placement
  import opened SecretKeys
  import opened Cluster
  import opened Reconcile

  // The labels under which handleError reports, by the call that failed.
  function AlignLabel(step: AlignStep): Cause {
    match step
    case ReadService(_) => Cause.HandleService
    case CreateService(_) => Cause.HandleService
    case UpdateService(_) => Cause.HandleService
    case ReadSecret(_, _, _) => Cause.HandleSecret
    case CreateSecret(_, _, _) => Cause.HandleSecret
    case UpdateSecret(_, _) => Cause.HandleSecret
  }

  function DeleteLabel(step: DeleteStep): Cause {
    match step
    case DelService(_) => Cause.DeleteService
    case DelSecret(_) => Cause.DeleteSecret
    case DelFinalizer(_) => Cause.RemoveFinalizer
    case _ => DropFailed
  }

  // None: such a failure is not reported.
  function Label(pc: Pc, a: Answer): Option<Cause> {
    match pc
    case Idle => None
    case Reading => None
    case Adding(_) => Some(Cause.AddFinalizer)
    case Seeding(_, step) => Some(if step.PingSeed? && a.knownSeedError then InvalidSeed else Cause.HandleSeed)
    case Placing(_, _) => Some(Cause.CreateDatabase)
    case Informing(_, _) => Some(GetInfo)
    case Aligning(_, step) => Some(AlignLabel(step))
    case Closing(_, step) => if step.WriteReady? then Some(Cause.UpdateStatus) else None
    case Deleting(_, step) => Some(DeleteLabel(step))
  }

  // The pass goes on to nothing but that report, or ends; a refused call has changed nothing.
  predicate Stops(w: World, t: State, report: Option<Cause>, a: Answer) {
    && (a.fault.Refused? ==> t.w == w)
    && match report
       case None => t.pc.Idle?
       case Some(l) =>
         && t.pc.Closing? && t.pc.close.WriteError?
         && t.pc.c.status.conditions == Conditions(Down(l), Some(l))
  }

  lemma SeedingStops(w: World, c: Object, step: SeedStep, a: Answer)
    requires !a.fault.Ok?
    ensures Stops(w, OnSeeding(w, c, step, a), Label(Seeding(c, step), a), a)
  {
  }

  lemma PlacingStops(w: World, c: Object, step: PlaceStep, a: Answer)
    requires !a.fault.Ok?
    ensures Stops(w, OnPlacing(w, c, step, a), Label(Placing(c, step), a), a)
  {
  }

  lemma InformingStops(w: World, c: Object, step: InfoStep, a: Answer)
    requires !a.fault.Ok?
    ensures Stops(w, OnInforming(w, c, step, a), Label(Informing(c, step), a), a)
  {
  }

  lemma AligningStops(w: World, c: Object, step: AlignStep, a: Answer)
    requires !a.fault.Ok?
    ensures Stops(w, OnAligning(w, c, step, a), Label(Aligning(c, step), a), a)
  {
  }

  lemma ClosingStops(w: World, c: Object, step: CloseStep, a: Answer)
    requires !a.fault.Ok?
    ensures Stops(w, OnClosing(w, c, step, a), Label(Closing(c, step), a), a)
  {
  }

  lemma DeletingStops(w: World, c: Object, step: DeleteStep, a: Answer)
    requires !a.fault.Ok?
    ensures Stops(w, OnDeleting(w, c, step, a), Label(Deleting(c, step), a), a)
  {
  }

  // No failed or lost call is taken for a success: the pass reports it under its label, as Ready=False and
  // Error=True, and does nothing else.
  lemma FailedCallStops(s: State, a: Answer)
    requires !a.fault.Ok? && !s.pc.Idle? && !s.pc.Reading?
    ensures Stops(s.w, OnCall(s, a), Label(s.pc, a), a)
  {
    match s.pc
    case Adding(c) =>
    case Seeding(c, step) => SeedingStops(s.w, c, step, a);
    case Placing(c, step) => PlacingStops(s.w, c, step, a);
    case Informing(c, step) => InformingStops(s.w, c, step, a);
    case Aligning(c, step) => AligningStops(s.w, c, step, a);
    case Closing(c, step) => ClosingStops(s.w, c, step, a);
    case Deleting(c, step) => DeletingStops(s.w, c, step, a);
  }

  /** Calls that are answered, but not as they should be */

  // If the pass goes on to a report, it is that of the call's label.
  predicate Reports(t: State, report: Option<Cause>) {
    t.pc.Closing? && t.pc.close.WriteError? ==>
      report.Some? && t.pc.c.status.conditions == Conditions(Down(report.value), report)
  }

  lemma SeedingReports(w: World, c: Object, step: SeedStep, a: Answer)
    ensures Reports(OnSeeding(w, c, step, a), Label(Seeding(c, step), a))
  {
  }

  lemma PlacingReports(w: World, c: Object, step: PlaceStep, a: Answer)
    ensures Reports(OnPlacing(w, c, step, a), Label(Placing(c, step), a))
  {
  }

  lemma InformingReports(w: World, c: Object, step: InfoStep, a: Answer)
    ensures Reports(OnInforming(w, c, step, a), Label(Informing(c, step), a))
  {
  }

  lemma AligningReports(w: World, c: Object, step: AlignStep, a: Answer)
    ensures Reports(OnAligning(w, c, step, a), Label(Aligning(c, step), a))
  {
  }

  lemma DeletingReports(w: World, c: Object, step: DeleteStep, a: Answer)
    ensures Reports(OnDeleting(w, c, step, a), Label(Deleting(c, step), a))
  {
  }

  // A missing object, a look-up without a result, a refused statement or a version that is not stored any more is
  // reported under the same label as a call that fails.
  lemma ErrorsAreLabelled(s: State, a: Answer)
    requires !s.pc.Adding?
    ensures Reports(OnCall(s, a), Label(s.pc, a))
  {
    match s.pc
    case Idle =>
    case Reading =>
    case Seeding(c, step) => SeedingReports(s.w, c, step, a);
    case Placing(c, step) => PlacingReports(s.w, c, step, a);
    case Informing(c, step) => InformingReports(s.w, c, step, a);
    case Aligning(c, step) => AligningReports(s.w, c, step, a);
    case Closing(c, step) =>
    case Deleting(c, step) => DeletingReports(s.w, c, step, a);
  }

  // What a deletion is refused for at once: a type it does not know, and a drop without a reference.
  lemma DeletionRefusedIff(w: World, c: Object)
    requires c.deleting
    ensures var t := AfterRead(w, c);
      var drops := c.spec.seed.None? && c.spec.dropOnDelete;
      && t.w == w && (t.pc.Closing? || t.pc.Deleting?)
      && (t.pc.Closing? <==> drops && (c.spec.typ.MariaDbType? || (!c.spec.typ.MongoDbType? && c.spec.ref.None?)))
      && Reports(t, Some(if c.spec.typ.MariaDbType? then InvalidType else DropFailed))
  {
  }
}
