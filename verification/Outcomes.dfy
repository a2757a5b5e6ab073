/** What one undisturbed reconcile comes to, for every policy it can find and in every
    run, said of the stored policy before and after. */
module Outcomes {
  import opened Options
  import opened Policies
  import opened Operator
  import opened Wakeups
  import opened Reconciles

  /** The operation the policy asks for is recorded, and no pre-conditions are under check. */
  predicate OperationDone(p: Policy) {
    p.spec.operationId != "" && p.status.lastHandled == p.spec.operationId && !p.status.checking
  }

  /** A policy is skipped exactly when it is settled. */
  lemma SkipsIff(p: Policy)
    ensures ShouldSkip(p) <==> OperationDone(p)
  {
  }

  /** The reconcile has the stored policy `p` before it, and no time has run backwards. */
  predicate Reads(v: View, p: Policy, begun: nat) {
    v.snap == p && v.latest == Some(p) && begun <= v.clock
  }

  // ---------------------------------------------------------------- a duplicate

  predicate ConflictWay(v: View, q: Search, p: Policy, begun: nat) {
    Reads(v, p, begun) && q.conflicted && (v.pc.CheckConflict? || v.pc.WriteConflict?)
  }

  predicate ConflictEnd(after: Policy, r: Result, at: nat, p: Policy) {
    after == p.(status := p.status.(phase := Failed, lastHandled := p.spec.operationId)) && r == Done
  }

  ghost function ConflictBetween(p: Policy, begun: nat): Between { (v, q) => ConflictWay(v, q, p, begun) }

  ghost function ConflictAtEnd(p: Policy): AtEnd { (after: Policy, r: Result, at: nat) => ConflictEnd(after, r, at, p) }

  lemma ConflictClosed(p: Policy, begun: nat)
    ensures Closed(ConflictBetween(p, begun), ConflictAtEnd(p))
  {
    var between, atEnd := ConflictBetween(p, begun), ConflictAtEnd(p);
    forall v: View, q: Search, c: Choice | between(v, q) && c.ok && c.verdict.Pass? && c.now <= v.clock
      ensures LeadsOn(between, atEnd, v, q, Decide(v, q, c))
    {
      assert Decide(v, q, c) == DecideFreeze(v, q, c);
    }
  }

  /** While an older policy owns the namespace: Failed, the operation used up, and no
      further visit asked for. */
  lemma DuplicateFails(s: State, ls: seq<Label>, id: Id)
    requires WholeReconcile(s, ls, id) && Conflicted(s.policies, id, s.policies[id])
    ensures
      var p, t := s.policies[id], Final(s, ls);
      && id in t.policies
      && t.policies[id] == p.(status := p.status.(phase := Failed, lastHandled := p.spec.operationId))
      && Timer(t, id) == Timer(s, id)
  {
    var p := s.policies[id];
    ConflictClosed(p, s.clock);
    var r, at := EndOfReconcile(s, ls, id, ConflictBetween(p, s.clock), ConflictAtEnd(p));
  }

  // ----------------------------------------------------------- a delayed freeze

  predicate FreezeWay(v: View, q: Search, p: Policy, begun: nat) {
    && Reads(v, p, begun) && !q.conflicted && OperationDone(p)
    && p.status.pendingFreeze && p.status.freezeStartedAt.Some?
    && (v.pc.CheckConflict? || v.pc.FreezeBranch? ||
        (v.pc.WriteFrozen? && p.status.freezeStartedAt.value + p.spec.freezeDelay <= v.clock))
  }

  predicate FreezeEnd(after: Policy, r: Result, at: nat, p: Policy, begun: nat) {
    && p.status.freezeStartedAt.Some? && begun <= at
    && var deadline := p.status.freezeStartedAt.value + p.spec.freezeDelay;
       if at < deadline then after == p && r == After(deadline - at)
       else after == p.(status := p.status.(phase := Frozen, pendingFreeze := false)) && r == Done
  }

  ghost function FreezeBetween(p: Policy, begun: nat): Between { (v, q) => FreezeWay(v, q, p, begun) }

  ghost function FreezeAtEnd(p: Policy, begun: nat): AtEnd {
    (after: Policy, r: Result, at: nat) => FreezeEnd(after, r, at, p, begun)
  }

  lemma FreezeClosed(p: Policy, begun: nat)
    ensures Closed(FreezeBetween(p, begun), FreezeAtEnd(p, begun))
  {
    var between, atEnd := FreezeBetween(p, begun), FreezeAtEnd(p, begun);
    forall v: View, q: Search, c: Choice | between(v, q) && c.ok && c.verdict.Pass? && c.now <= v.clock
      ensures LeadsOn(between, atEnd, v, q, Decide(v, q, c))
    {
      assert Decide(v, q, c) == DecideFreeze(v, q, c);
    }
  }

  /** A delayed freeze that no command interferes with: once its time has come it is
      carried out, before that the policy is left alone and looked at again when it comes. */
  lemma FreezeByItsDeadline(s: State, ls: seq<Label>, id: Id)
    requires WholeReconcile(s, ls, id) && !Conflicted(s.policies, id, s.policies[id])
    requires
      var p := s.policies[id];
      p.status.pendingFreeze && p.status.freezeStartedAt.Some? && OperationDone(p)
    ensures
      var p, t := s.policies[id], Final(s, ls);
      var deadline := p.status.freezeStartedAt.value + p.spec.freezeDelay;
      var frozen := p.(status := p.status.(phase := Frozen, pendingFreeze := false));
      && id in t.policies
      && (deadline <= s.clock ==> t.policies[id] == frozen)
      && (t.clock < deadline ==> t.policies[id] == p)
      && (t.policies[id] == frozen || (t.policies[id] == p && id in t.timers && t.timers[id] <= deadline))
  {
    var p := s.policies[id];
    FreezeClosed(p, s.clock);
    var r, at := EndOfReconcile(s, ls, id, FreezeBetween(p, s.clock), FreezeAtEnd(p, s.clock));
  }

  // ----------------------------------------------------------- a pending resume

  predicate Resumable(p: Policy) {
    && p.status.pendingResume && p.status.resumeStartedAt.Some? && !p.status.pendingFreeze
    && !UnhandledFailure(p) && !UnhandledOperation(p)
  }

  predicate ResumeWay(v: View, q: Search, p: Policy, begun: nat, startup: bool, blocked: bool) {
    && Reads(v, p, begun) && !q.conflicted && q.blocked == blocked && v.startupComplete == startup && Resumable(p)
    && (v.pc.CheckConflict? || v.pc.FreezeBranch? || v.pc.ResumeBranch? || (startup && v.pc.Gate?) ||
        (startup && !blocked && v.pc.DelayCheck?) ||
        (startup && !blocked && (v.pc.PreCheck? || v.pc.ResumeWorkloads? || v.pc.WriteResumed?) &&
         p.status.resumeStartedAt.value + p.spec.resumeDelay <= v.clock))
  }

  predicate ResumeEnd(after: Policy, r: Result, at: nat, p: Policy, begun: nat, startup: bool, blocked: bool) {
    && p.status.resumeStartedAt.Some? && begun <= at
    && var deadline := p.status.resumeStartedAt.value + p.spec.resumeDelay;
       if !startup then after == p && r == After(2)
       else if blocked then after == p && r == After(10)
       else if at < deadline then after == p && r == After(deadline - at)
       else
         && after == p.(status := p.status.(phase := Resumed, pendingResume := false))
         && r == if p.spec.handleNodeFailure && p.status.failedNode != "" then After(30) else Done
  }

  ghost function ResumeBetween(p: Policy, begun: nat, startup: bool, blocked: bool): Between {
    (v, q) => ResumeWay(v, q, p, begun, startup, blocked)
  }

  ghost function ResumeAtEnd(p: Policy, begun: nat, startup: bool, blocked: bool): AtEnd {
    (after: Policy, r: Result, at: nat) => ResumeEnd(after, r, at, p, begun, startup, blocked)
  }

  lemma ResumeDecides(p: Policy, begun: nat, startup: bool, blocked: bool, v: View, q: Search, c: Choice)
    requires ResumeWay(v, q, p, begun, startup, blocked) && c.ok && c.verdict.Pass?
    ensures
      LeadsOn(ResumeBetween(p, begun, startup, blocked), ResumeAtEnd(p, begun, startup, blocked), v, q, Decide(v, q, c))
  {
    if FreezePart(v.pc) { assert Decide(v, q, c) == DecideFreeze(v, q, c); }
    else { assert Decide(v, q, c) == DecideResume(v, q, c); }
  }

  lemma ResumeClosed(p: Policy, begun: nat, startup: bool, blocked: bool)
    ensures Closed(ResumeBetween(p, begun, startup, blocked), ResumeAtEnd(p, begun, startup, blocked))
  {
    var between, atEnd := ResumeBetween(p, begun, startup, blocked), ResumeAtEnd(p, begun, startup, blocked);
    forall v: View, q: Search, c: Choice | between(v, q) && c.ok && c.verdict.Pass? && c.now <= v.clock
      ensures LeadsOn(between, atEnd, v, q, Decide(v, q, c))
    {
      ResumeDecides(p, begun, startup, blocked, v, q, c);
    }
  }

  /** A pending resume that no failure or command interferes with: before startup is
      complete it is looked at again after 2 seconds at most, behind a more urgent one
      after 10, before its time when that comes, and otherwise it is carried out. */
  lemma ResumeByItsDeadline(s: State, ls: seq<Label>, id: Id)
    requires WholeReconcile(s, ls, id) && !Conflicted(s.policies, id, s.policies[id]) && Resumable(s.policies[id])
    ensures
      var p, t := s.policies[id], Final(s, ls);
      var deadline := p.status.resumeStartedAt.value + p.spec.resumeDelay;
      var resumed := p.(status := p.status.(phase := Resumed, pendingResume := false));
      && id in t.policies
      && if !s.startupComplete then t.policies[id] == p && id in t.timers && t.timers[id] <= t.clock + 2
         else if Blocked(s.policies, id, p) then t.policies[id] == p && id in t.timers && t.timers[id] <= t.clock + 10
         else
           && (deadline <= s.clock ==> t.policies[id] == resumed)
           && (t.clock < deadline ==> t.policies[id] == p)
           && (t.policies[id] == resumed || (t.policies[id] == p && id in t.timers && t.timers[id] <= deadline))
           && (t.policies[id] == resumed && p.spec.handleNodeFailure && p.status.failedNode != "" ==>
                 id in t.timers && t.timers[id] <= t.clock + 30)
  {
    var p := s.policies[id];
    var startup, blocked := s.startupComplete, Blocked(s.policies, id, p);
    ResumeClosed(p, s.clock, startup, blocked);
    var r, at := EndOfReconcile(s, ls, id, ResumeBetween(p, s.clock, startup, blocked),
                                ResumeAtEnd(p, s.clock, startup, blocked));
  }

  // ------------------------------------------------------------- a node failure

  /** As `p`, but for flags that have been cleared. */
  predicate Cleared(q: Policy, p: Policy) {
    && q == p.(status := p.status.(pendingFreeze := q.status.pendingFreeze, pendingResume := q.status.pendingResume))
    && (q.status.pendingFreeze ==> p.status.pendingFreeze) && (q.status.pendingResume ==> p.status.pendingResume)
  }

  /** An unhandled failure that neither a freeze nor a resume before startup holds up. */
  predicate Recoverable(p: Policy, startup: bool) {
    && p.spec.handleNodeFailure && p.status.failureDetectedAt.Some?
    && (p.status.failureHandledAt.Some? ==> p.status.failureDetectedAt.value > p.status.failureHandledAt.value)
    && !(p.status.pendingFreeze && OperationDone(p)) && (p.status.pendingResume ==> startup)
  }

  predicate FailureWay(v: View, q: Search, p: Policy, begun: nat, startup: bool) {
    && begun <= v.clock && !q.conflicted && v.startupComplete == startup && Recoverable(p, startup)
    && v.latest.Some? && Cleared(v.latest.value, p) && Cleared(v.snap, p)
    && (v.pc.CheckConflict? || v.pc.FreezeBranch? || v.pc.CancelFreeze? || v.pc.RefetchFreeze? || v.pc.ResumeBranch? ||
        v.pc.CancelByFailure? || v.pc.RefetchByFailure? || v.pc.FailureBranch? || v.pc.WriteFailureHandled?)
  }

  predicate FailureEnd(after: Policy, r: Result, at: nat, p: Policy, begun: nat) {
    && after.spec == p.spec && after.status.pendingResume && after.status.failureHandledAt.Some?
    && after.status.resumeStartedAt == after.status.failureHandledAt && after.status.failureHandledAt.value <= at
    && after.status.lastHandled == (if p.spec.operationId != "" then p.spec.operationId else p.status.lastHandled)
    && r.Retry?
  }

  ghost function FailureBetween(p: Policy, begun: nat, startup: bool): Between {
    (v, q) => FailureWay(v, q, p, begun, startup)
  }

  ghost function FailureAtEnd(p: Policy, begun: nat): AtEnd {
    (after: Policy, r: Result, at: nat) => FailureEnd(after, r, at, p, begun)
  }

  lemma FailureDecides(p: Policy, begun: nat, startup: bool, v: View, q: Search, c: Choice)
    requires FailureWay(v, q, p, begun, startup) && c.ok && c.verdict.Pass? && c.now <= v.clock
    ensures LeadsOn(FailureBetween(p, begun, startup), FailureAtEnd(p, begun), v, q, Decide(v, q, c))
  {
    SkipsIff(v.snap);
    if FreezePart(v.pc) { assert Decide(v, q, c) == DecideFreeze(v, q, c); }
    else if ResumePart(v.pc) { assert Decide(v, q, c) == DecideResume(v, q, c); }
    else { assert Decide(v, q, c) == DecideFailure(v, c); }
  }

  lemma FailureClosed(p: Policy, begun: nat, startup: bool)
    ensures Closed(FailureBetween(p, begun, startup), FailureAtEnd(p, begun))
  {
    var between, atEnd := FailureBetween(p, begun, startup), FailureAtEnd(p, begun);
    forall v: View, q: Search, c: Choice | between(v, q) && c.ok && c.verdict.Pass? && c.now <= v.clock
      ensures LeadsOn(between, atEnd, v, q, Decide(v, q, c))
    {
      FailureDecides(p, begun, startup, v, q, c);
    }
  }

  /** A node failure that nothing holds up: the recovery resume is pending, its delay
      starts when the failure was handled, the operation asked for is recorded, and a
      further reconcile has been asked for. */
  lemma FailureFlagsResume(s: State, ls: seq<Label>, id: Id)
    requires WholeReconcile(s, ls, id) && !Conflicted(s.policies, id, s.policies[id])
    requires Recoverable(s.policies[id], s.startupComplete)
    ensures
      var p, t := s.policies[id], Final(s, ls);
      && id in t.policies && t.policies[id].spec == p.spec
      && t.policies[id].status.pendingResume && t.policies[id].status.failureHandledAt.Some?
      && t.policies[id].status.failureHandledAt.value <= t.clock
      && t.policies[id].status.resumeStartedAt == t.policies[id].status.failureHandledAt
      && (p.spec.operationId != "" ==> t.policies[id].status.lastHandled == p.spec.operationId)
      && (p.spec.operationId == "" ==> t.policies[id].status.lastHandled == p.status.lastHandled)
      && id in t.timers
  {
    var p := s.policies[id];
    FailureClosed(p, s.clock, s.startupComplete);
    var r, at := EndOfReconcile(s, ls, id, FailureBetween(p, s.clock, s.startupComplete), FailureAtEnd(p, s.clock));
  }

  // ------------------------------------------------------------ nothing to do

  predicate Idle(p: Policy) {
    !p.status.pendingFreeze && !p.status.pendingResume && !UnhandledFailure(p) && OperationDone(p)
  }

  function Recovered(p: Policy): Policy {
    if p.spec.handleNodeFailure then p.(status := p.status.(failedNode := "")) else p
  }

  predicate IdleWay(v: View, q: Search, p: Policy, begun: nat) {
    && begun <= v.clock && !q.conflicted && Idle(p)
    && if v.pc.RefetchCleanup? then v.snap == p && v.latest == Some(Recovered(p))
       else if v.pc.SkipCheck? then v.snap == Recovered(p) && v.latest == Some(Recovered(p))
       else
         && Reads(v, p, begun)
         && (v.pc.CheckConflict? || v.pc.FreezeBranch? || v.pc.ResumeBranch? || v.pc.FailureBranch? || v.pc.Cleanup? ||
             (v.pc.ClearFailedNode? && p.spec.handleNodeFailure))
  }

  predicate IdleEnd(after: Policy, r: Result, at: nat, p: Policy) {
    after == Recovered(p) && r == Done
  }

  ghost function IdleBetween(p: Policy, begun: nat): Between { (v, q) => IdleWay(v, q, p, begun) }

  ghost function IdleAtEnd(p: Policy): AtEnd { (after: Policy, r: Result, at: nat) => IdleEnd(after, r, at, p) }

  lemma IdleDecides(p: Policy, begun: nat, v: View, q: Search, c: Choice)
    requires IdleWay(v, q, p, begun) && c.ok && c.verdict.Pass?
    ensures LeadsOn(IdleBetween(p, begun), IdleAtEnd(p), v, q, Decide(v, q, c))
  {
    SkipsIff(v.snap);
    if FreezePart(v.pc) { assert Decide(v, q, c) == DecideFreeze(v, q, c); }
    else if ResumePart(v.pc) { assert Decide(v, q, c) == DecideResume(v, q, c); }
    else if FailurePart(v.pc) { assert Decide(v, q, c) == DecideFailure(v, c); }
    else { assert Decide(v, q, c) == DecideManual(v, c); }
  }

  lemma IdleClosed(p: Policy, begun: nat)
    ensures Closed(IdleBetween(p, begun), IdleAtEnd(p))
  {
    var between, atEnd := IdleBetween(p, begun), IdleAtEnd(p);
    forall v: View, q: Search, c: Choice | between(v, q) && c.ok && c.verdict.Pass? && c.now <= v.clock
      ensures LeadsOn(between, atEnd, v, q, Decide(v, q, c))
    {
      IdleDecides(p, begun, v, q, c);
    }
  }

  /** A policy with nothing to do: at most the name of a failed node is forgotten, and no
      further visit is asked for. */
  lemma NothingToDo(s: State, ls: seq<Label>, id: Id)
    requires WholeReconcile(s, ls, id) && !Conflicted(s.policies, id, s.policies[id]) && Idle(s.policies[id])
    ensures
      var p, t := s.policies[id], Final(s, ls);
      && id in t.policies && Timer(t, id) == Timer(s, id)
      && t.policies[id] == if p.spec.handleNodeFailure then p.(status := p.status.(failedNode := "")) else p
  {
    var p := s.policies[id];
    IdleClosed(p, s.clock);
    var r, at := EndOfReconcile(s, ls, id, IdleBetween(p, s.clock), IdleAtEnd(p));
  }

  // ----------------------------------------------- single steps, in any state

  lemma DecideHandles(v: View, q: Search, c: Choice)
    requires v.latest.Some?
    ensures
      var e := Decide(v, q, c);
      var before := v.latest.value.status;
      e.write.Some? && e.write.value.status.failureHandledAt != before.failureHandledAt ==>
        var after := e.write.value.status;
        if v.pc.WritePreWait? then after.failureHandledAt == v.snap.status.failureHandledAt
        else
          && after.pendingResume && after.failureHandledAt.Some? && after.resumeStartedAt == after.failureHandledAt
          && (v.latest.value.spec.operationId != "" ==> after.lastHandled == v.latest.value.spec.operationId)
  {
    if ResumePart(v.pc) { assert Decide(v, q, c) == DecideResume(v, q, c); }
    else if FailurePart(v.pc) { assert Decide(v, q, c) == DecideFailure(v, c); }
    else if FreezePart(v.pc) { assert Decide(v, q, c) == DecideFreeze(v, q, c); }
  }

  /** Whatever else fails: a step of the worker that marks a node failure handled flags
      the recovery resume with it.  Only the wait for pre-conditions may put an older
      mark back, because it overwrites the status from its copy. */
  lemma HandlingFlags(s: State, c: Choice)
    requires Enabled(s, Work(c)) && s.worker.id in s.policies
    ensures
      var s', id := Step(s, Work(c)), s.worker.id;
      && id in s'.policies
      && var before, after := s.policies[id].status, s'.policies[id].status;
         after.failureHandledAt != before.failureHandledAt ==>
           if s.worker.pc.WritePreWait? then after.failureHandledAt == s.worker.snap.status.failureHandledAt
           else
             && after.pendingResume && after.failureHandledAt.Some? && after.resumeStartedAt == after.failureHandledAt
             && (s.policies[id].spec.operationId != "" ==> after.lastHandled == s.policies[id].spec.operationId)
  {
    DecideHandles(Seen(s), Searched(s), c);
    ApplySeen(s, Decide(Seen(s), Searched(s), c));
  }

  /** A pending resume goes on past its pre-conditions if and only if there are none or
      they pass. */
  lemma PreconditionsIff(s: State, c: Choice)
    requires Enabled(s, Work(c)) && s.worker.pc.PreCheck? && c.ok
    ensures
      var s' := Step(s, Work(c));
      && s'.policies == s.policies && s'.worker.Busy?
      && s'.worker.pc ==
           if !s.worker.snap.spec.preConditions || c.verdict == Pass then ResumeWorkloads else WritePreWait
  {
    assert Decide(Seen(s), Searched(s), c) == DecideResume(Seen(s), Searched(s), c);
  }

  /** When they do not pass, the resume stays pending with the checks under way, and is
      looked at again after the interval of the checks. */
  lemma PreconditionsWait(s: State, c: Choice)
    requires Enabled(s, Work(c)) && s.worker.pc.WritePreWait? && s.worker.snap.spec.checkInterval >= 1
    requires s.worker.id in s.policies
    ensures
      var s', id := Step(s, Work(c)), s.worker.id;
      && s'.worker.Resting? && id in s'.policies && id in s'.timers
      && s'.timers[id] <= s.clock + s.worker.snap.spec.checkInterval
      && (c.ok ==>
            var p := s'.policies[id].status;
            && p.pendingResume && p.checking && p.phase == Resuming
            && p.lastHandled == s.policies[id].status.lastHandled
            && p.resumeStartedAt == s.worker.snap.status.resumeStartedAt)
  {
    var e := DecideResume(Seen(s), Searched(s), c);
    assert e == Decide(Seen(s), Searched(s), c);
    ApplySeen(s, e);
    ApplyTimer(s, e);
  }

  /** The manual operation begins with the phase its action asks for and its id recorded. */
  lemma ProcessingWrites(s: State, c: Choice)
    requires Enabled(s, Work(c)) && s.worker.pc.Processing? && c.ok && s.worker.id in s.policies
    ensures
      var s', id := Step(s, Work(c)), s.worker.id;
      && id in s'.policies && s'.worker.Busy? && s'.worker.pc.Manual?
      && s'.policies[id].status.lastHandled == s.worker.snap.spec.operationId
      && s'.policies[id].status.phase == if s.worker.snap.spec.action == Freeze then Freezing else Resuming
  {
    var e := DecideManual(Seen(s), c);
    assert e == Decide(Seen(s), Searched(s), c);
    ApplySeen(s, e);
  }

  /** A node event for a policy that handles node failures leaves a failure of this node
      unhandled, or detected now, and the policy is in the queue. */
  lemma NodeEventNoted(s: State, id: Id, node: string, now: nat)
    requires Enabled(s, NodeFails(id, node, true, now)) && s.policies[id].spec.handleNodeFailure
    ensures
      var s', p := Step(s, NodeFails(id, node, true, now)), s.policies[id].status;
      && id in s'.queued && id in s'.policies && s'.policies[id].status.failedNode == node
      && s'.policies[id].status.failureDetectedAt.Some?
      && (s'.policies[id].status.failureDetectedAt == Some(now) ||
          (s'.policies[id] == s.policies[id] &&
           (p.failureHandledAt.None? || p.failureDetectedAt.value > p.failureHandledAt.value)))
  {
  }

  /** An edit of the spec always puts the policy into the queue. */
  lemma EditQueues(s: State, id: Id, spec: Spec)
    requires Enabled(s, Edit(id, spec)) && spec != s.policies[id].spec
    ensures
      var s' := Step(s, Edit(id, spec));
      id in s'.queued && id in s'.policies && s'.policies[id].spec == spec
  {
  }

  /** A new policy is stored with an empty status, and is in the queue if it asks for an
      operation. */
  lemma NewPolicyQueued(s: State, id: Id, name: string, spec: Spec)
    requires Enabled(s, Create(id, name, spec))
    ensures
      var s' := Step(s, Create(id, name, spec));
      && id in s'.policies && s'.policies[id].spec == spec && s'.policies[id].status.phase == NoPhase
      && !s'.policies[id].status.pendingResume && !s'.policies[id].status.pendingFreeze
      && (id in s'.queued <==> id in s.queued || spec.operationId != "")
  {
  }

  /** What a restarted operator looks at first: pending flags, unhandled failures and
      unhandled operations, and nothing else. */
  lemma RestartQueues(s: State, id: Id)
    ensures id in Step(s, Restart).queued <==>
      && id in s.policies
      && var p := s.policies[id];
         || p.status.pendingResume || p.status.pendingFreeze
         || (p.spec.handleNodeFailure && p.status.failureDetectedAt.Some? &&
             (p.status.failureHandledAt.Some? ==>
                p.status.failureDetectedAt.value > p.status.failureHandledAt.value))
         || (p.spec.operationId != "" && p.status.lastHandled != p.spec.operationId)
  {
  }

  /** Pre-conditions under check that do not pass yet are looked at again after their
      interval, 5 seconds if there is none. */
  lemma ChecksWait(s: State, c: Choice)
    requires Enabled(s, Work(c)) && s.worker.pc.CheckingBranch? && s.worker.snap.status.checking && c.verdict != Pass
    ensures
      var s', id := Step(s, Work(c)), s.worker.id;
      && s'.worker.Resting? && s'.policies == s.policies && id in s'.timers
      && s'.timers[id] <= s.clock + if s.worker.snap.spec.checkInterval > 0 then s.worker.snap.spec.checkInterval else 5
  {
    var e := DecideManual(Seen(s), c);
    assert e == Decide(Seen(s), Searched(s), c);
    ApplyTimer(s, e);
  }

  /** The workloads of a pending resume count as resumed at once without throttling,
      and with throttling only when that has succeeded; a failure leaves the policy as
      it is and asks for another try, and only a newer command ends it for good. */
  lemma ThrottlingDecides(s: State, c: Choice)
    requires Enabled(s, Work(c)) && (s.worker.pc.ResumeWorkloads? || s.worker.pc.ResumeChecked?)
    requires s.worker.id in s.policies
    ensures
      var s', id, snap := Step(s, Work(c)), s.worker.id, s.worker.snap;
      var latest := s.policies[id];
      var done := if s.worker.pc.ResumeWorkloads? then WriteResumed else WriteChecked;
      if !snap.spec.throttling || c.verdict == Pass then s' == At(s, done)
      else if c.verdict == Error then s'.worker.Resting? && s'.policies == s.policies && id in s'.timers
      else if s'.worker.Resting? then
        && c.verdict == Abort && s'.policies == s.policies
        && latest.spec.operationId !in {"", latest.status.lastHandled, snap.spec.operationId}
        && latest.status.lastHandled != ""
      else s'.worker == s.worker
  {
    var v, q := Seen(s), Searched(s);
    assert Decide(v, q, c) == ResumeStep(v, c, if v.pc.ResumeWorkloads? then WriteResumed else WriteChecked);
    ApplyTimer(s, Decide(v, q, c));
  }

  /** The phases that the manual operation writes come with its own id, and nothing else
      it writes touches the record. */
  lemma ManualRecords(s: State, c: Choice)
    requires Enabled(s, Work(c)) && s.worker.pc.Manual? && c.ok && s.worker.id in s.policies
    ensures
      var s', id := Step(s, Work(c)), s.worker.id;
      && id in s'.policies
      && s'.policies[id].status.lastHandled ==
           (if c.move.SetPhase? then s.worker.snap.spec.operationId else s.policies[id].status.lastHandled)
      && (c.move.SetPhase? ==> s'.policies[id].status.phase == c.move.phase)
  {
    var e := DecideManual(Seen(s), c);
    assert e == Decide(Seen(s), Searched(s), c);
    ApplySeen(s, e);
  }

  /** Writing phases, records, marks and cleared flags wakes nobody up, so that Reconcile
      is not called for its own writes; a new flag, start or failure does. */
  lemma WritesThatWake(before: Policy, after: Policy)
    requires after.spec == before.spec
    ensures
      && (after.status.pendingFreeze ==>
            before.status.pendingFreeze && before.status.freezeStartedAt == after.status.freezeStartedAt)
      && (after.status.pendingResume ==>
            before.status.pendingResume && before.status.resumeStartedAt == after.status.resumeStartedAt)
      && after.status.failureDetectedAt == before.status.failureDetectedAt
      ==> !UpdateTriggers(before, after)
    ensures after.status.pendingFreeze && !before.status.pendingFreeze ==> UpdateTriggers(before, after)
    ensures after.status.pendingResume && !before.status.pendingResume ==> UpdateTriggers(before, after)
    ensures
      && after.status.failureDetectedAt.Some?
      && (before.status.failureDetectedAt.Some? ==>
            after.status.failureDetectedAt.value > before.status.failureDetectedAt.value)
      ==> UpdateTriggers(before, after)
  {
  }

  /** The points at which Reconcile makes a call whose failure ends it. */
  predicate Calls(pc: Pc) {
    || pc.CheckConflict? || pc.WriteConflict? || pc.CancelFreeze? || pc.RefetchFreeze? || pc.WriteFrozen?
    || pc.CancelByFailure? || pc.RefetchByFailure? || pc.CancelByManual? || pc.RefetchByManual? || pc.Gate?
    || pc.PreCheck? || pc.WriteResumed? || pc.WriteFailureHandled? || pc.RefetchCleanup? || pc.WriteChecked?
    || pc.Processing?
  }

  /** A call that fails there changes nothing and is tried again: the policy goes on a
      timer after the rate limiter's wait. */
  lemma FailedCallsRetried(s: State, c: Choice)
    requires Enabled(s, Work(c)) && Calls(s.worker.pc) && !c.ok
    ensures
      var s', id := Step(s, Work(c)), s.worker.id;
      s'.worker.Resting? && s'.policies == s.policies && id in s'.timers && s'.timers[id] <= s.clock + c.wait
  {
    var e := Decide(Seen(s), Searched(s), c);
    assert e == Quit(Retry(c.wait));
    ApplyTimer(s, e);
  }

  /** So is the fetch at the beginning. */
  lemma FetchRetried(s: State, id: Id, wait: nat)
    requires Enabled(s, Take(id, false, wait))
    ensures
      var s' := Step(s, Take(id, false, wait));
      s'.worker.Resting? && s'.policies == s.policies && id in s'.timers && s'.timers[id] <= s.clock + wait
  {
  }

  /** A policy that is not skipped goes on; one that is skipped is left alone, and looked
      at again only if a call made for it failed. */
  lemma SkippedLeftAlone(s: State, c: Choice)
    requires Enabled(s, Work(c)) && s.worker.pc.SkipCheck?
    ensures
      var s', id := Step(s, Work(c)), s.worker.id;
      if OperationDone(s.worker.snap) then
        && s'.worker.Resting? && s'.policies == s.policies
        && (c.ok ==> Timer(s', id) == Timer(s, id))
        && (!c.ok ==> id in s'.timers && s'.timers[id] <= s.clock + c.wait)
      else s' == At(s, NamespaceCheck)
  {
    SkipsIff(s.worker.snap);
    var e := DecideManual(Seen(s), c);
    assert e == Decide(Seen(s), Searched(s), c);
    ApplyTimer(s, e);
  }

  /** The check of the namespace: it is there, it is not, or the check fails.  In the
      last two cases the policy is Failed with its operation recorded, if that can be
      written, and in the last one, or if it cannot, there is another try. */
  lemma NamespaceDecides(s: State, c: Choice)
    requires Enabled(s, Work(c)) && s.worker.pc.NamespaceCheck? && s.worker.id in s.policies
    ensures
      var s', id, p := Step(s, Work(c)), s.worker.id, s.policies[s.worker.id];
      if c.verdict == Pass then s' == At(s, CheckingBranch)
      else
        && s'.worker.Resting? && id in s'.policies
        && s'.policies[id] ==
             (if c.ok then
                p.(status := p.status.(phase := Failed, lastHandled := s.worker.snap.spec.operationId))
              else p)
        && (c.verdict == Wait && c.ok ==> Timer(s', id) == Timer(s, id))
        && (c.verdict != Wait || !c.ok ==> id in s'.timers && s'.timers[id] <= s.clock + c.wait)
  {
    var e := DecideManual(Seen(s), c);
    assert e == Decide(Seen(s), Searched(s), c);
    ApplySeen(s, e);
    ApplyTimer(s, e);
  }
}
