/** What every reachable state of the operator satisfies, whatever interleaving
    led to it: pending flags are well formed, the gated part of Reconcile runs
    only after startup and after its delay, and a pending resume is not forgotten. */
module Wakeups {
  import opened Options
  import opened Policies
  import opened Operator

  /** The worker has not looked at the pending-resume flag of its copy yet. */
  predicate Early(pc: Pc) {
    FreezePart(pc) || pc.ResumeBranch?
  }

  predicate BeforeFreeze(pc: Pc) {
    pc.CheckConflict? || pc.WriteConflict? || pc.FreezeBranch? || pc.CancelFreeze? || pc.WriteFrozen?
  }

  /** The worker is handling a pending resume. */
  predicate Gated(pc: Pc) {
    ResumePart(pc) && !pc.ResumeBranch? && !pc.RefetchByFailure? && !pc.RefetchByManual?
  }

  predicate DelayOver(pc: Pc) {
    pc.PreCheck? || pc.WritePreWait? || pc.ResumeWorkloads? || pc.WriteResumed?
  }

  predicate Elapsed(start: Option<nat>, delay: int, clock: nat) {
    start.Some? && start.value + delay <= clock
  }

  /** What the worker may rely on about its local copy; `queued` says whether
      its policy is back in the queue already. */
  predicate Sound(v: View, queued: bool) {
    && SpecAdmitted(v.snap.spec)
    && FlagsWellFormed(v.snap.status)
    && (v.latest.Some? ==> SpecAdmitted(v.latest.value.spec) && FlagsWellFormed(v.latest.value.status))
    && (v.pc.WriteFrozen? || v.pc.CancelFreeze? || v.pc.ClearFreeze? ==> v.snap.status.pendingFreeze)
    && (v.pc.WriteFrozen? ==> Elapsed(v.snap.status.freezeStartedAt, v.snap.spec.freezeDelay, v.clock))
    && (Gated(v.pc) ==> v.startupComplete && v.snap.status.pendingResume)
    && (DelayOver(v.pc) ==> Elapsed(v.snap.status.resumeStartedAt, v.snap.spec.resumeDelay, v.clock))
    && !v.pc.ClearFreeze? && !v.pc.ClearResume?
    && (v.latest.Some? ==> DriftSeen(v.latest.value, v.snap, v.pc, queued))
  }

  /** A change of the stored policy that the local copy does not show, or a freeze
      that the reconcile has passed by, has put the policy back into the queue. */
  predicate DriftSeen(latest: Policy, snap: Policy, pc: Pc, queued: bool) {
    && (snap.spec != latest.spec ==> queued)
    && (Early(pc) && snap.status.pendingResume ==> latest.status.pendingResume)
    && (Early(pc) && !snap.status.pendingResume && latest.status.pendingResume ==> queued)
    && (Gated(pc) ==> latest.status.pendingResume)
    && (!Early(pc) && !Gated(pc) && latest.status.pendingResume ==> queued)
    && (BeforeFreeze(pc) && snap.status.pendingFreeze ==> latest.status.pendingFreeze)
    && (BeforeFreeze(pc) && !snap.status.pendingFreeze && latest.status.pendingFreeze ==> queued)
    && (!BeforeFreeze(pc) && latest.status.pendingFreeze ==> queued)
    && (!BeforeFreeze(pc) && !pc.RefetchFreeze? && snap.status.pendingFreeze ==> queued)
  }

  predicate Woken(s: State, id: Id) {
    id in s.queued || id in s.timers || (s.worker.Busy? && s.worker.id == id)
  }

  predicate EndedBy(s: State, id: Id, ending: Ending) {
    id in s.ended && s.ended[id] == ending
  }

  predicate NotForgotten(s: State, id: Id)
    requires id in s.policies
  {
    && (s.policies[id].status.pendingResume ==>
          Woken(s, id) || EndedBy(s, id, OnConflict) || EndedBy(s, id, FreezeOverPending))
    && (s.policies[id].status.pendingFreeze ==> Woken(s, id) || EndedBy(s, id, OnConflict))
  }

  predicate Invariant(s: State) {
    && Stored(s.policies)
    && (s.worker.Busy? ==> Sound(Seen(s), s.worker.id in s.queued))
    && forall id <- s.policies.Keys :: NotForgotten(s, id)
  }

  // ------------------------------------------------------------ the worker

  predicate AsksAgain(r: Result) {
    r.Retry? || (r.After? && r.delay > 0)
  }

  /** The stored policy after the step's write. */
  function Written(v: View, e: Effect): Option<Policy> {
    if e.write.Some? && v.latest.Some? then e.write else v.latest
  }

  predicate Requeued(v: View, e: Effect, queued: bool) {
    queued || (e.write.Some? && v.latest.Some? && UpdateTriggers(v.latest.value, e.write.value))
  }

  /** What a step owes: a sound next view, or a way back for a flag that stays set. */
  predicate Owed(v: View, e: Effect, queued: bool) {
    var latest := Written(v, e);
    var queued' := Requeued(v, e, queued);
    && (latest.Some? ==> SpecAdmitted(latest.value.spec) && FlagsWellFormed(latest.value.status))
    && match e.next
       case Go(pc) => Sound(v.(pc := pc, latest := latest), queued')
       case Reload(pc) => latest.Some? && Sound(v.(pc := pc, latest := latest, snap := latest.value), queued')
       case Exit(r, ending) =>
         && (latest.Some? && latest.value.status.pendingResume ==> queued' || AsksAgain(r) || ending != Normal)
         && (latest.Some? && latest.value.status.pendingFreeze ==> queued' || AsksAgain(r) || ending == OnConflict)
  }

  lemma FreezePartSound(v: View, q: Search, c: Choice, queued: bool)
    requires Sound(v, queued) && FreezePart(v.pc)
    ensures Owed(v, DecideFreeze(v, q, c), queued)
  {
  }

  lemma ResumeEntrySound(v: View, q: Search, c: Choice, queued: bool)
    requires Sound(v, queued) && ResumePart(v.pc)
    requires v.pc.ResumeBranch? || v.pc.Gate? || v.pc.DelayCheck? || v.pc.ClearResume? || v.pc.PreCheck?
    ensures Owed(v, DecideResume(v, q, c), queued)
  {
  }

  lemma ResumeWriteSound(v: View, q: Search, c: Choice, queued: bool)
    requires Sound(v, queued) && ResumePart(v.pc)
    requires !(v.pc.ResumeBranch? || v.pc.Gate? || v.pc.DelayCheck? || v.pc.ClearResume? || v.pc.PreCheck?)
    ensures Owed(v, DecideResume(v, q, c), queued)
  {
  }

  lemma FailurePartSound(v: View, c: Choice, queued: bool)
    requires Sound(v, queued) && FailurePart(v.pc)
    ensures Owed(v, DecideFailure(v, c), queued)
  {
  }

  lemma ManualEntrySound(v: View, c: Choice, queued: bool)
    requires Sound(v, queued) && (v.pc.SkipCheck? || v.pc.CheckingBranch? || v.pc.NamespaceCheck?)
    ensures Owed(v, DecideManual(v, c), queued)
  {
  }

  lemma ManualWriteSound(v: View, c: Choice, queued: bool)
    requires Sound(v, queued) && (v.pc.WriteChecked? || v.pc.Processing?)
    ensures Owed(v, DecideManual(v, c), queued)
  {
  }

  lemma ResumeCheckedSound(v: View, c: Choice, queued: bool)
    requires Sound(v, queued) && v.pc.ResumeChecked?
    ensures Owed(v, ResumeStep(v, c, WriteChecked), queued)
  {
  }

  lemma ManualWorkSound(v: View, c: Choice, queued: bool)
    requires Sound(v, queued) && v.pc.Manual?
    ensures Owed(v, ManualStep(v, c), queued)
  {
  }

  lemma DecideSound(v: View, q: Search, c: Choice, queued: bool)
    requires Sound(v, queued)
    ensures Owed(v, Decide(v, q, c), queued)
  {
    if FreezePart(v.pc) {
      FreezePartSound(v, q, c, queued);
    } else if ResumePart(v.pc) {
      if v.pc.ResumeBranch? || v.pc.Gate? || v.pc.DelayCheck? || v.pc.ClearResume? || v.pc.PreCheck? {
        ResumeEntrySound(v, q, c, queued);
      } else {
        ResumeWriteSound(v, q, c, queued);
      }
    } else if FailurePart(v.pc) {
      FailurePartSound(v, c, queued);
    } else if v.pc.ResumeChecked? {
      ResumeCheckedSound(v, c, queued);
    } else if v.pc.Manual? {
      ManualWorkSound(v, c, queued);
    } else if v.pc.WriteChecked? || v.pc.Processing? {
      ManualWriteSound(v, c, queued);
    } else {
      ManualEntrySound(v, c, queued);
    }
  }

  /** Moving on touches neither the store nor the queue. */
  lemma AdvanceFrame(s: State, next: Next)
    requires s.worker.Busy?
    ensures
      var s' := Advance(s, next);
      && s'.policies == s.policies && s'.queued == s.queued
      && s'.clock == s.clock && s'.startupComplete == s.startupComplete
  {
  }

  lemma AdvanceOthers(s: State, next: Next, other: Id)
    requires s.worker.Busy? && other != s.worker.id
    ensures
      var s' := Advance(s, next);
      && (other in s'.timers <==> other in s.timers)
      && (other in s'.ended <==> other in s.ended)
      && (other in s.ended ==> s'.ended[other] == s.ended[other])
  {
  }

  /** The state after the write, before moving on. */
  function AfterWrite(s: State, e: Effect): State
    requires s.worker.Busy?
  {
    if e.write.Some? && s.worker.id in s.policies then Put(s, s.worker.id, e.write.value) else s
  }

  /** What an effect does to the worker's own policy. */
  lemma ApplySeen(s: State, e: Effect)
    requires s.worker.Busy?
    ensures
      var s', id := Apply(s, e), s.worker.id;
      && s'.clock == s.clock && s'.startupComplete == s.startupComplete
      && Lookup(s'.policies, id) == Written(Seen(s), e)
      && (id in s'.queued <==> Requeued(Seen(s), e, id in s.queued))
  {
    AdvanceFrame(AfterWrite(s, e), e.next);
  }

  /** What an effect does to the other policies. */
  lemma ApplyFrame(s: State, e: Effect, other: Id)
    requires s.worker.Busy? && other != s.worker.id
    ensures
      var s' := Apply(s, e);
      && Lookup(s'.policies, other) == Lookup(s.policies, other)
      && (other in s'.queued <==> other in s.queued)
      && (other in s'.timers <==> other in s.timers)
      && (other in s'.ended <==> other in s.ended)
      && (other in s.ended ==> s'.ended[other] == s.ended[other])
  {
    AdvanceFrame(AfterWrite(s, e), e.next);
    AdvanceOthers(AfterWrite(s, e), e.next, other);
  }

  lemma ApplyKeepsStored(s: State, e: Effect)
    requires s.worker.Busy? && Stored(s.policies) && Owed(Seen(s), e, s.worker.id in s.queued)
    ensures Stored(Apply(s, e).policies)
  {
    var s' := Apply(s, e);
    ApplySeen(s, e);
    forall id <- s'.policies.Keys
      ensures SpecAdmitted(s'.policies[id].spec) && FlagsWellFormed(s'.policies[id].status)
    {
      if id != s.worker.id { ApplyFrame(s, e, id); }
    }
  }

  lemma ApplyKeepsWorker(s: State, e: Effect)
    requires s.worker.Busy? && Owed(Seen(s), e, s.worker.id in s.queued)
    ensures
      var s' := Apply(s, e);
      s'.worker.Busy? ==> Sound(Seen(s'), s'.worker.id in s'.queued)
  {
    ApplySeen(s, e);
    var v, v' := Seen(s), Apply(s, e);
    match e.next
    case Go(pc) => assert Seen(v') == v.(pc := pc, latest := Written(v, e));
    case Reload(pc) => assert Seen(v') == v.(pc := pc, latest := Written(v, e), snap := Written(v, e).value);
    case Exit(_, _) =>
  }

  lemma ApplyKeepsMemory(s: State, e: Effect)
    requires s.worker.Busy?
    requires Owed(Seen(s), e, s.worker.id in s.queued)
    requires s.worker.id in s.policies
    ensures NotForgotten(Apply(s, e), s.worker.id)
  {
    ApplySeen(s, e);
  }

  lemma ApplyKeepsOthers(s: State, e: Effect, other: Id)
    requires s.worker.Busy? && other != s.worker.id
    requires other in s.policies && NotForgotten(s, other)
    ensures other in Apply(s, e).policies && NotForgotten(Apply(s, e), other)
  {
    ApplyFrame(s, e, other);
  }

  lemma ApplyPreserves(s: State, e: Effect)
    requires Invariant(s) && s.worker.Busy?
    requires Owed(Seen(s), e, s.worker.id in s.queued)
    ensures Invariant(Apply(s, e))
  {
    ApplyKeepsStored(s, e);
    ApplyKeepsWorker(s, e);
    forall other <- Apply(s, e).policies.Keys ensures NotForgotten(Apply(s, e), other) {
      if other == s.worker.id {
        ApplySeen(s, e);
        ApplyKeepsMemory(s, e);
      } else {
        ApplyFrame(s, e, other);
        ApplyKeepsOthers(s, e, other);
      }
    }
  }

  lemma WorkPreserves(s: State, c: Choice)
    requires Invariant(s) && s.worker.Busy?
    ensures Invariant(WorkStep(s, c))
  {
    DecideSound(Seen(s), Searched(s), c, s.worker.id in s.queued);
    ApplyPreserves(s, Decide(Seen(s), Searched(s), c));
  }

  // ------------------------------------------------------- everybody else

  /** The startup goroutine, the node watch and the users never clear a pending flag. */
  predicate KeepsFlags(before: Policy, after: Policy) {
    && (before.status.pendingResume ==> after.status.pendingResume)
    && (before.status.pendingFreeze ==> after.status.pendingFreeze)
  }

  lemma OutsiderPreserves(s: State, id: Id, p: Policy)
    requires Invariant(s) && id in s.policies
    requires SpecAdmitted(p.spec) && FlagsWellFormed(p.status) && KeepsFlags(s.policies[id], p)
    ensures Invariant(Put(s, id, p))
  {
    var s' := Put(s, id, p);
    forall other <- s'.policies.Keys ensures NotForgotten(s', other) {
      assert NotForgotten(s, other);
    }
  }

  lemma EnqueuePreserves(s: State, id: Id)
    requires Invariant(s)
    ensures Invariant(Enqueue(s, id))
  {
    forall other <- s.policies.Keys ensures NotForgotten(Enqueue(s, id), other) {
      assert NotForgotten(s, other);
    }
  }

  /** Nothing here depends on how far the startup goroutine is. */
  lemma AdvanceStartup(s: State, startup: Startup, complete: bool)
    requires Invariant(s) && (s.startupComplete ==> complete)
    ensures Invariant(s.(startup := startup, startupComplete := complete))
  {
    var s' := s.(startup := startup, startupComplete := complete);
    forall other <- s.policies.Keys ensures NotForgotten(s', other) {
      assert NotForgotten(s, other);
    }
  }

  lemma StartupPreserves(s: State, l: Label)
    requires Invariant(s) && Enabled(s, l) && OfStartup(l)
    ensures Invariant(StartupStep(s, l))
  {
    StartupWrites(s, l);
    StartupEffectPreserves(s, StartupMove(s, l));
  }

  lemma StartupEffectPreserves(s: State, e: StartupEffect)
    requires Invariant(s)
    requires e.write.Some? ==> e.id in s.policies && StartupWrite(s.policies[e.id], e.write.value)
    ensures Invariant(ApplyStartup(s, e))
  {
    var complete := s.startupComplete || e.startup.Finished?;
    AdvanceStartup(s, e.startup, complete);
    if e.write.Some? {
      OutsiderPreserves(s.(startup := e.startup, startupComplete := complete), e.id, e.write.value);
    }
  }

  lemma CreatePreserves(s: State, id: Id, name: string, spec: Spec)
    requires Invariant(s) && Enabled(s, Create(id, name, spec))
    ensures Invariant(WorldStep(s, Create(id, name, spec)))
  {
    var s' := WorldStep(s, Create(id, name, spec));
    assert s.worker.Busy? ==> Seen(s') == Seen(s);
    forall other <- s'.policies.Keys ensures NotForgotten(s', other) {
      if other != id { assert NotForgotten(s, other); }
    }
  }

  lemma RemovePreserves(s: State, id: Id)
    requires Invariant(s) && id in s.policies
    ensures Invariant(WorldStep(s, Remove(id)))
  {
    var s' := WorldStep(s, Remove(id));
    forall other <- s'.policies.Keys ensures NotForgotten(s', other) {
      assert NotForgotten(s, other);
    }
  }

  lemma TickPreserves(s: State, ticks: nat)
    requires Invariant(s)
    ensures Invariant(s.(clock := s.clock + ticks))
  {
    forall other <- s.policies.Keys ensures NotForgotten(s.(clock := s.clock + ticks), other) {
      assert NotForgotten(s, other);
    }
  }

  lemma NodePreserves(s: State, l: Label)
    requires Invariant(s) && l.NodeFails? && Enabled(s, l)
    ensures Invariant(WorldStep(s, l))
  {
    var id, p := l.id, s.policies[l.id];
    var p' := p.(status := p.status.(failedNode := l.node, failureDetectedAt := Some(l.now)));
    OutsiderPreserves(s, id, p');
    EnqueuePreserves(s, id);
    EnqueuePreserves(Put(s, id, p'), id);
  }

  lemma WorldPreserves(s: State, l: Label)
    requires Invariant(s) && Enabled(s, l) && OfWorld(l)
    ensures Invariant(WorldStep(s, l))
  {
    match l
    case Edit(id, spec) => OutsiderPreserves(s, id, s.policies[id].(spec := spec));
    case NodeFails(_, _, _, _) => NodePreserves(s, l);
    case Wake(id) => EnqueuePreserves(s, id);
    case Create(id, name, spec) => CreatePreserves(s, id, name, spec);
    case MarkDeleting(id) => OutsiderPreserves(s, id, s.policies[id].(deleting := true));
    case Remove(id) => RemovePreserves(s, id);
    case Tick(ticks) => TickPreserves(s, ticks);
  }

  lemma TakePreserves(s: State, id: Id, ok: bool, wait: nat)
    requires Invariant(s) && Enabled(s, Take(id, ok, wait))
    ensures Invariant(TakeStep(s, id, ok, wait))
  {
    var s' := TakeStep(s, id, ok, wait);
    forall other <- s'.policies.Keys ensures NotForgotten(s', other) {
      assert NotForgotten(s, other);
    }
  }

  lemma FirePreserves(s: State, id: Id)
    requires Invariant(s) && id in s.timers
    ensures Invariant(Enqueue(s.(timers := s.timers - {id}), id))
  {
    var s' := Enqueue(s.(timers := s.timers - {id}), id);
    forall other <- s'.policies.Keys ensures NotForgotten(s', other) {
      assert NotForgotten(s, other);
    }
  }

  lemma BootSatisfies(policies: map<Id, Policy>, clock: nat)
    requires Stored(policies)
    ensures Invariant(Boot(policies, clock))
  {
    var s := Boot(policies, clock);
    forall id <- policies.Keys ensures NotForgotten(s, id) {
      assert CreateTriggers(policies[id]) ==> id in s.queued;
    }
  }

  lemma StepPreserves(s: State, l: Label)
    requires Invariant(s) && Enabled(s, l)
    ensures Invariant(Step(s, l))
  {
    if OfStartup(l) {
      StartupPreserves(s, l);
    } else if OfWorld(l) {
      WorldPreserves(s, l);
    } else {
      match l
      case Work(c) => WorkPreserves(s, c);
      case Take(id, ok, wait) => TakePreserves(s, id, ok, wait);
      case Fire(id) => FirePreserves(s, id);
      case Restart => BootSatisfies(s.policies, s.clock);
    }
  }

  // ------------------------------------------------------------- the results

  lemma {:induction false} RunPreserves(s: State, ls: seq<Label>)
    requires Invariant(s) && Runs(s, ls)
    ensures Invariant(Final(s, ls))
    decreases |ls|
  {
    if |ls| > 0 {
      StepPreserves(s, ls[0]);
      RunPreserves(Step(s, ls[0]), ls[1..]);
    }
  }

  /** The state can be reached from a start state. */
  ghost predicate Reached(s: State) {
    exists start, ls :: Initial(start) && Reaches(start, ls, s)
  }

  lemma ReachedInvariant(s: State, take: Label, ls: seq<Label>, t: State)
    requires Reached(s) && Enabled(s, take) && Reaches(Step(s, take), ls, t)
    ensures Invariant(t)
  {
    var start, before :| Initial(start) && Reaches(start, before, s);
    BootSatisfies(start.policies, start.clock);
    RunPreserves(start, before);
    StepPreserves(s, take);
    RunPreserves(Step(s, take), ls);
  }

  /** In every reachable state: a pending flag has its start time, so the two
      branches for a missing start time are never entered; the gated part of
      Reconcile is entered only after startup completed; a delayed freeze or
      resume is begun no earlier than the start plus the delay in the worker's copy. */
  lemma PendingFlagsAndDelays(s: State, ls: seq<Label>)
    requires Initial(s) && Runs(s, ls)
    ensures
      var t := Final(s, ls);
      && (forall id <- t.policies.Keys :: FlagsWellFormed(t.policies[id].status))
      && (t.worker.Busy? ==>
            var Busy(_, pc, snap, _) := t.worker;
            && !pc.ClearFreeze? && !pc.ClearResume?
            && (Gated(pc) ==> t.startupComplete)
            && (pc.WriteFrozen? ==> Elapsed(snap.status.freezeStartedAt, snap.spec.freezeDelay, t.clock))
            && (DelayOver(pc) ==> Elapsed(snap.status.resumeStartedAt, snap.spec.resumeDelay, t.clock)))
  {
    BootSatisfies(s.policies, s.clock);
    RunPreserves(s, ls);
  }

  /** No policy waits for a freeze and for a resume at once. */
  predicate OneFlag(s: State) {
    forall id <- s.policies.Keys :: !(s.policies[id].status.pendingResume && s.policies[id].status.pendingFreeze)
  }

  predicate OneFlagThroughout(s: State, ls: seq<Label>)
    requires Runs(s, ls)
    decreases |ls|
  {
    OneFlag(s) && (|ls| > 0 ==> OneFlagThroughout(Step(s, ls[0]), ls[1..]))
  }

  predicate NoneDropped(s: State) {
    forall id <- s.ended.Keys :: s.ended[id] != FreezeOverPending
  }

  lemma NoDropOnExit(s: State, c: Choice)
    requires Invariant(s) && s.worker.Busy? && OneFlag(s)
    ensures
      var e := Decide(Seen(s), Searched(s), c);
      e.next.Exit? ==> e.next.ending != FreezeOverPending
  {
    var id := s.worker.id;
    assert id in s.policies ==> DriftSeen(s.policies[id], s.worker.snap, s.worker.pc, id in s.queued);
  }

  lemma ApplyEnds(s: State, e: Effect)
    requires s.worker.Busy?
    ensures Apply(s, e).ended == if e.next.Exit? then s.ended[s.worker.id := e.next.ending] else s.ended
  {
  }

  lemma WorkDropsNone(s: State, c: Choice)
    requires Invariant(s) && s.worker.Busy? && OneFlag(s) && NoneDropped(s)
    ensures NoneDropped(WorkStep(s, c))
  {
    NoDropOnExit(s, c);
    ApplyEnds(s, Decide(Seen(s), Searched(s), c));
  }

  lemma StepDropsNone(s: State, l: Label)
    requires Invariant(s) && Enabled(s, l) && OneFlag(s) && NoneDropped(s)
    ensures NoneDropped(Step(s, l))
  {
    if l.Work? { WorkDropsNone(s, l.choice); } else if !l.Take? { OutsideFrame(s, l); }
  }

  lemma {:induction false} RunDropsNone(s: State, ls: seq<Label>)
    requires Invariant(s) && Runs(s, ls) && OneFlagThroughout(s, ls) && NoneDropped(s)
    ensures NoneDropped(Final(s, ls))
    decreases |ls|
  {
    if |ls| > 0 {
      StepPreserves(s, ls[0]);
      StepDropsNone(s, ls[0]);
      RunDropsNone(Step(s, ls[0]), ls[1..]);
    }
  }

  /** No lost wake-up: as long as no policy ever waits for a freeze and a resume
      at once, every pending resume is in the queue, has a timer or is being
      worked on, unless its last reconcile stopped because another policy owns
      the namespace. */
  lemma NoLostWakeup(s: State, ls: seq<Label>, id: Id)
    requires Initial(s) && Runs(s, ls) && OneFlagThroughout(s, ls)
    requires id in Final(s, ls).policies && Final(s, ls).policies[id].status.pendingResume
    ensures Woken(Final(s, ls), id) || EndedBy(Final(s, ls), id, OnConflict)
  {
    BootSatisfies(s.policies, s.clock);
    RunPreserves(s, ls);
    RunDropsNone(s, ls);
    assert NotForgotten(Final(s, ls), id);
  }

  /** No delayed freeze is forgotten, in any run: it is in the queue, has a timer or is
      being worked on, unless its last reconcile stopped because another policy owns
      the namespace. */
  lemma NoLostFreeze(s: State, ls: seq<Label>, id: Id)
    requires Initial(s) && Runs(s, ls)
    requires id in Final(s, ls).policies && Final(s, ls).policies[id].status.pendingFreeze
    ensures Woken(Final(s, ls), id) || EndedBy(Final(s, ls), id, OnConflict)
  {
    BootSatisfies(s.policies, s.clock);
    RunPreserves(s, ls);
    assert NotForgotten(Final(s, ls), id);
  }

  /** The resume of `id` is pending and nothing will ever look at it again by itself. */
  predicate Stuck(s: State, id: Id) {
    id in s.policies && s.policies[id].status.pendingResume && !Woken(s, id)
  }

  /** Without any assumption on the run there are just two ways to get stuck. */
  lemma OnlyTwoWaysToGetStuck(s: State, ls: seq<Label>, id: Id)
    requires Initial(s) && Runs(s, ls) && Stuck(Final(s, ls), id)
    ensures EndedBy(Final(s, ls), id, OnConflict) || EndedBy(Final(s, ls), id, FreezeOverPending)
  {
    BootSatisfies(s.policies, s.clock);
    RunPreserves(s, ls);
    assert NotForgotten(Final(s, ls), id);
  }

  /** Exactly when the end of a delayed freeze loses a wake-up. */
  lemma FreezeLosesWakeupIff(s: State, c: Choice)
    requires s.worker.Busy? && s.worker.pc.WriteFrozen? && c.ok && s.worker.id in s.policies
    ensures
      var id := s.worker.id;
      Stuck(WorkStep(s, c), id) <==>
        s.policies[id].status.pendingResume && id !in s.queued && id !in s.timers
  {
    var id, latest := s.worker.id, s.policies[s.worker.id];
    var e := DecideFreeze(Seen(s), Searched(s), c);
    assert !UpdateTriggers(latest, e.write.value);
    assert WorkStep(s, c) == Apply(s, e);
  }
}
