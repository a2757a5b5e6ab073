/** A condition on specs under which no policy ever waits for a freeze and a resume
    at once, so that no wake-up is lost. */
module FlagSeparation {
  import opened Options
  import opened Policies
  import opened Operator
  import opened Wakeups

  /** The ids in `delayed` freeze at startup and do not handle node failures; the
      others do not freeze at startup, or do so without a delay. */
  predicate Fits(delayed: set<Id>, id: Id, spec: Spec) {
    if id in delayed then spec.startupPolicy == StartupFreeze && !spec.handleNodeFailure
    else spec.startupPolicy != StartupFreeze || spec.freezeDelay <= 0
  }

  predicate Apart(delayed: set<Id>, id: Id, p: Policy) {
    Fits(delayed, id, p.spec) && if id in delayed then !p.status.pendingResume else !p.status.pendingFreeze
  }

  predicate AllApart(delayed: set<Id>, policies: map<Id, Policy>) {
    forall id <- policies.Keys :: Apart(delayed, id, policies[id])
  }

  /** Edits and new policies keep to the division. */
  predicate KeepsDivision(delayed: set<Id>, l: Label) {
    && (l.Edit? ==> Fits(delayed, l.id, l.spec))
    && (l.Create? ==> Fits(delayed, l.id, l.spec))
  }

  predicate CopiesFit(delayed: set<Id>, copies: map<Id, Policy>) {
    forall id <- copies.Keys :: Fits(delayed, id, copies[id].spec)
  }

  /** Startup freezes only what its copies ask for, and flags no delayed policy. */
  predicate StartupFits(delayed: set<Id>, startup: Startup) {
    match startup
    case FreezingGroups(copies, freezes) =>
      && CopiesFit(delayed, copies)
      && forall id <- freezes :: id in copies && copies[id].spec.startupPolicy == StartupFreeze
    case Scanning(copies) => CopiesFit(delayed, copies)
    case HandlingFailure(_, _, failures, flags) =>
      (forall id <- failures :: id !in delayed) && (forall id <- flags :: id !in delayed)
    case Flagging(_, flags) => forall id <- flags :: id !in delayed
    case _ => true
  }

  predicate Separated(s: State, delayed: set<Id>) {
    && AllApart(delayed, s.policies) && StartupFits(delayed, s.startup)
    && (s.worker.Busy? ==>
          && Apart(delayed, s.worker.id, s.worker.snap)
          && (s.worker.pc.WriteFailureHandled? ==> s.worker.id !in delayed))
  }

  predicate EffectApart(e: Effect, delayed: set<Id>, id: Id) {
    && (e.write.Some? ==> Apart(delayed, id, e.write.value))
    && (e.next.Go? && e.next.pc.WriteFailureHandled? ==> id !in delayed)
    && (e.next.Reload? ==> !e.next.pc.WriteFailureHandled?)
  }

  predicate ViewApart(v: View, delayed: set<Id>, id: Id) {
    && v.latest.Some? && Apart(delayed, id, v.latest.value) && Apart(delayed, id, v.snap)
    && (v.pc.WriteFailureHandled? ==> id !in delayed)
    && (Gated(v.pc) ==> v.snap.status.pendingResume)
  }

  lemma FreezeApart(v: View, q: Search, c: Choice, delayed: set<Id>, id: Id)
    requires ViewApart(v, delayed, id) && FreezePart(v.pc)
    ensures EffectApart(DecideFreeze(v, q, c), delayed, id)
  {
  }

  lemma ResumeApart(v: View, q: Search, c: Choice, delayed: set<Id>, id: Id)
    requires ViewApart(v, delayed, id) && ResumePart(v.pc)
    ensures EffectApart(DecideResume(v, q, c), delayed, id)
  {
  }

  lemma FailureApart(v: View, c: Choice, delayed: set<Id>, id: Id)
    requires ViewApart(v, delayed, id) && FailurePart(v.pc)
    ensures EffectApart(DecideFailure(v, c), delayed, id)
  {
  }

  lemma ManualApart(v: View, c: Choice, delayed: set<Id>, id: Id)
    requires ViewApart(v, delayed, id) && ManualPart(v.pc)
    ensures EffectApart(DecideManual(v, c), delayed, id)
  {
  }

  lemma DecideApart(v: View, q: Search, c: Choice, delayed: set<Id>, id: Id)
    requires ViewApart(v, delayed, id)
    ensures EffectApart(Decide(v, q, c), delayed, id)
  {
    if FreezePart(v.pc) { FreezeApart(v, q, c, delayed, id); }
    else if ResumePart(v.pc) { ResumeApart(v, q, c, delayed, id); }
    else if FailurePart(v.pc) { FailureApart(v, c, delayed, id); }
    else { ManualApart(v, c, delayed, id); }
  }

  /** Without a stored policy nothing is written and nothing is fetched. */
  lemma DecideWithout(v: View, q: Search, c: Choice, delayed: set<Id>, id: Id)
    requires v.latest.None? && Apart(delayed, id, v.snap) && (v.pc.WriteFailureHandled? ==> id !in delayed)
    ensures
      var e := Decide(v, q, c);
      && (e.next.Go? && e.next.pc.WriteFailureHandled? ==> id !in delayed) && !e.next.Reload?
  {
  }

  lemma ApplySeparates(s: State, e: Effect, delayed: set<Id>)
    requires s.worker.Busy? && Separated(s, delayed)
    requires s.worker.id in s.policies && e.write.Some? ==> Apart(delayed, s.worker.id, e.write.value)
    requires e.next.Go? && e.next.pc.WriteFailureHandled? ==> s.worker.id !in delayed
    requires e.next.Reload? ==> !e.next.pc.WriteFailureHandled? && s.worker.id in s.policies
    ensures Separated(Apply(s, e), delayed)
  {
  }

  lemma WorkSeparates(s: State, c: Choice, delayed: set<Id>)
    requires Invariant(s) && s.worker.Busy? && Separated(s, delayed)
    ensures Separated(WorkStep(s, c), delayed)
  {
    var v, q, id := Seen(s), Searched(s), s.worker.id;
    if id in s.policies { DecideApart(v, q, c, delayed, id); } else { DecideWithout(v, q, c, delayed, id); }
    ApplySeparates(s, Decide(v, q, c), delayed);
  }

  lemma ScanFits(copies: map<Id, Policy>, failed: Option<string>, failures: seq<Id>, flags: seq<Id>, delayed: set<Id>)
    requires CopiesFit(delayed, copies) && ScanPlan(copies, failed, failures, flags)
    ensures (forall id <- failures :: id !in delayed) && (forall id <- flags :: id !in delayed)
  {
    forall id | id in failures || id in flags ensures id !in delayed {
      assert id in Select(copies, StartupResume);
    }
  }

  lemma StartupMoveFits(s: State, l: Label, delayed: set<Id>)
    requires OfStartup(l) && Enabled(s, l) && Separated(s, delayed)
    ensures
      var e := StartupMove(s, l);
      StartupFits(delayed, e.startup) && (e.write.Some? ==> Apart(delayed, e.id, e.write.value))
  {
    match l
    case StartupScan(failed, failures, flags) => ScanFits(s.startup.copies, failed, failures, flags, delayed);
    case _ =>
  }

  lemma StartupSeparates(s: State, e: StartupEffect, delayed: set<Id>)
    requires Separated(s, delayed) && StartupFits(delayed, e.startup)
    requires e.write.Some? ==> Apart(delayed, e.id, e.write.value)
    ensures Separated(ApplyStartup(s, e), delayed)
  {
  }

  lemma WorldSeparates(s: State, l: Label, delayed: set<Id>)
    requires OfWorld(l) && Enabled(s, l) && Separated(s, delayed) && KeepsDivision(delayed, l)
    ensures Separated(WorldStep(s, l), delayed)
  {
  }

  lemma StepSeparates(s: State, l: Label, delayed: set<Id>)
    requires Invariant(s) && Enabled(s, l) && Separated(s, delayed) && KeepsDivision(delayed, l)
    ensures Separated(Step(s, l), delayed)
  {
    if OfStartup(l) {
      StartupMoveFits(s, l, delayed);
      StartupSeparates(s, StartupMove(s, l), delayed);
    } else if OfWorld(l) {
      WorldSeparates(s, l, delayed);
    } else if l.Work? {
      WorkSeparates(s, l.choice, delayed);
    }
  }

  lemma {:induction false} RunSeparates(s: State, ls: seq<Label>, delayed: set<Id>)
    requires Invariant(s) && Runs(s, ls) && Separated(s, delayed) && forall l <- ls :: KeepsDivision(delayed, l)
    ensures OneFlagThroughout(s, ls)
    decreases |ls|
  {
    if |ls| > 0 {
      StepPreserves(s, ls[0]);
      StepSeparates(s, ls[0], delayed);
      RunSeparates(Step(s, ls[0]), ls[1..], delayed);
    }
  }

  /** No lost wake-up, by a condition on specs: if the policies that freeze at startup
      after a delay handle no node failures and begin without a resume flag, the
      others begin without a freeze flag, and edits do not blur the division, then
      every pending resume is woken or was stopped at a duplicate. */
  lemma NoLostWakeupBySpecs(s: State, ls: seq<Label>, delayed: set<Id>, id: Id)
    requires Initial(s) && AllApart(delayed, s.policies) && Runs(s, ls)
    requires forall l <- ls :: KeepsDivision(delayed, l)
    requires id in Final(s, ls).policies && Final(s, ls).policies[id].status.pendingResume
    ensures Woken(Final(s, ls), id) || EndedBy(Final(s, ls), id, OnConflict)
  {
    BootSatisfies(s.policies, s.clock);
    RunSeparates(s, ls, delayed);
    NoLostWakeup(s, ls, id);
  }
}
