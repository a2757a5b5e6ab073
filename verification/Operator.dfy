/** The running operator as a transition system: the stored policies, the work
    queue with its timers, the single reconcile worker, the startup goroutine
    and everything the outside world may do.  One step is one API call or one
    read of shared memory, so every interleaving of the worker with the startup
    goroutine and with the world between two API calls is a run here. */
module Operator {
  import opened Options
  import opened Policies
  import opened Sequences

  const STARTUP_WAIT := 2
  const GATE_WAIT := 10
  const CLEANUP_WAIT := 30
  const DEFAULT_CHECK_INTERVAL := 5

  /** Where the worker stands inside Reconcile. */
  datatype Pc =
    | CheckConflict
    | WriteConflict
    | FreezeBranch
    | CancelFreeze
    | RefetchFreeze
    | ClearFreeze
    | WriteFrozen
    | ResumeBranch
    | CancelByFailure
    | RefetchByFailure
    | CancelByManual
    | RefetchByManual
    | Gate
    | DelayCheck
    | ClearResume
    | PreCheck
    | WritePreWait
    | ResumeWorkloads
    | WriteResumed
    | FailureBranch
    | WriteFailureHandled
    | Cleanup
    | ClearFailedNode
    | RefetchCleanup
    | SkipCheck
    | NamespaceCheck
    | CheckingBranch
    | ResumeChecked
    | WriteChecked
    | Processing
    | Manual

  /** `snap` is the local copy of the policy, `sinceStartup` records whether the
      reconcile began after startup was marked complete. */
  datatype Worker = Resting | Busy(id: Id, pc: Pc, snap: Policy, sinceStartup: bool)

  /** The startup goroutine; `copies` is the policy list it read at the start. */
  datatype Startup =
    | NotListed
    | FreezingGroups(copies: map<Id, Policy>, freezes: set<Id>)
    | Scanning(copies: map<Id, Policy>)
    | HandlingFailure(copies: map<Id, Policy>, node: string, failures: seq<Id>, flags: seq<Id>)
    | Flagging(copies: map<Id, Policy>, flags: seq<Id>)
    | Marking
    | Finished

  /** How the latest reconcile of a policy ended. */
  datatype Ending = Normal | OnConflict | FreezeOverPending

  datatype State = State(
    policies: map<Id, Policy>,
    clock: nat,
    queued: set<Id>,
    timers: map<Id, nat>,
    worker: Worker,
    startup: Startup,
    startupComplete: bool,
    ended: map<Id, Ending>)

  /** What Reconcile asks the work queue to do: an error and `Requeue: true`
      both add the request again after the rate limiter's wait. */
  datatype Result = Done | Retry(wait: nat) | After(delay: int)

  datatype Verdict = Pass | Wait | Abort | Error

  datatype ManualMove = SetPhase(phase: Phase) | SetChecking(checking: bool) | Progress | Leave(result: Result)

  /** What a step of the worker does not decide itself: whether its API call
      succeeds, what it observes, the timestamp it writes, the limiter's wait. */
  datatype Choice = Choice(ok: bool, verdict: Verdict, now: nat, wait: nat, move: ManualMove)

  /** Calls succeed and checks pass. */
  const SURE := Choice(true, Pass, 0, 0, Leave(Done))

  datatype Label =
    | Work(choice: Choice)
    | Take(id: Id, ok: bool, wait: nat)
    | StartupList(ok: bool)
    | StartupFreezeOne(id: Id, ok: bool, now: nat)
    | StartupGroupsDone
    | StartupScan(failed: Option<string>, failures: seq<Id>, flags: seq<Id>)
    | StartupHandleOne(ok: bool, now: nat, handledAt: nat)
    | StartupHandled
    | StartupFlagOne(ok: bool, now: nat)
    | StartupFlagged
    | StartupMark
    | Edit(id: Id, spec: Spec)
    | NodeFails(id: Id, node: string, ok: bool, now: nat)
    | Wake(id: Id)
    | Create(id: Id, name: string, spec: Spec)
    | MarkDeleting(id: Id)
    | Remove(id: Id)
    | Tick(ticks: nat)
    | Fire(id: Id)
    | Restart

  // ---------------------------------------------------------------- the queue

  /** A watch event reaches the queue when the update predicate lets it pass. */
  function Put(s: State, id: Id, p: Policy): State
    requires id in s.policies
  {
    s.(policies := s.policies[id := p],
       queued := if UpdateTriggers(s.policies[id], p) then s.queued + {id} else s.queued)
  }

  function AddTimer(timers: map<Id, nat>, id: Id, due: nat): map<Id, nat> {
    if id in timers && timers[id] <= due then timers else timers[id := due]
  }

  /** The worker hands the request back.  A delay that is not positive asks for nothing. */
  function Finish(s: State, id: Id, r: Result, ending: Ending := Normal): State {
    s.(worker := Resting,
       ended := s.ended[id := ending],
       timers := match r
         case Done => s.timers
         case Retry(wait) => AddTimer(s.timers, id, s.clock + wait)
         case After(delay) => if delay > 0 then AddTimer(s.timers, id, s.clock + delay) else s.timers)
  }

  // ---------------------------------------------------------- status writes

  /** updateStatus for a user operation: the id recorded is the caller's copy's. */
  function Record(latest: Policy, snap: Policy, phase: Phase): Policy {
    latest.(status := latest.status.(phase := phase, lastHandled := snap.spec.operationId))
  }

  function Acknowledged(p: Policy): string {
    if p.spec.operationId != "" then p.spec.operationId else p.status.lastHandled
  }

  function Flagged(p: Policy, now: nat): Policy {
    p.(status := p.status.(lastHandled := Acknowledged(p), pendingResume := true, resumeStartedAt := Some(now)))
  }

  function WithPending(p: Policy, pending: bool): Policy {
    p.(status := p.status.(pendingResume := pending))
  }

  function WithPendingFreeze(p: Policy, pending: bool): Policy {
    p.(status := p.status.(pendingFreeze := pending))
  }

  /** The whole status is overwritten from the local copy, except the handled id. */
  function PreWait(latest: Policy, snap: Policy): Policy {
    latest.(status := snap.status.(
      checking := true, phase := Resuming, pendingResume := true, lastHandled := latest.status.lastHandled))
  }

  // --------------------------------------------------------------- the worker

  /** What one step of Reconcile can see: its program point and local copy, the
      stored policy if there still is one, the clock and the startup bit. */
  datatype View = View(pc: Pc, snap: Policy, latest: Option<Policy>, clock: nat, startupComplete: bool)

  /** The answers of the two searches over all policies. */
  datatype Search = Search(conflicted: bool, blocked: bool)

  datatype Next = Go(pc: Pc) | Reload(pc: Pc) | Exit(result: Result, ending: Ending)

  /** A step writes the stored policy at most once and then moves on. */
  datatype Effect = Effect(write: Option<Policy>, next: Next)

  function Move(pc: Pc): Effect { Effect(None, Go(pc)) }

  function Quit(r: Result): Effect { Effect(None, Exit(r, Normal)) }

  function WriteThen(p: Policy, next: Next): Effect { Effect(Some(p), next) }

  predicate FreezePart(pc: Pc) {
    pc.CheckConflict? || pc.WriteConflict? || pc.FreezeBranch? || pc.CancelFreeze? || pc.RefetchFreeze?
    || pc.ClearFreeze? || pc.WriteFrozen?
  }

  predicate ResumePart(pc: Pc) {
    pc.ResumeBranch? || pc.CancelByFailure? || pc.RefetchByFailure? || pc.CancelByManual?
    || pc.RefetchByManual? || pc.Gate? || pc.DelayCheck? || pc.ClearResume? || pc.PreCheck? || pc.WritePreWait?
    || pc.ResumeWorkloads? || pc.WriteResumed?
  }

  predicate FailurePart(pc: Pc) {
    pc.FailureBranch? || pc.WriteFailureHandled? || pc.Cleanup? || pc.ClearFailedNode? || pc.RefetchCleanup?
  }

  predicate ManualPart(pc: Pc) {
    pc.SkipCheck? || pc.NamespaceCheck? || pc.CheckingBranch? || pc.ResumeChecked? || pc.WriteChecked?
    || pc.Processing? || pc.Manual?
  }

  /** Duplicate detection and the pending freeze. */
  function DecideFreeze(v: View, q: Search, c: Choice): Effect
    requires FreezePart(v.pc)
  {
    var snap := v.snap;
    var ok := c.ok && v.latest.Some?;
    match v.pc
    case CheckConflict =>
      if !c.ok then Quit(Retry(c.wait)) else if q.conflicted then Move(WriteConflict) else Move(FreezeBranch)
    case WriteConflict =>
      if ok then WriteThen(Record(v.latest.value, snap, Failed), Exit(Done, OnConflict)) else Quit(Retry(c.wait))
    case FreezeBranch =>
      if !snap.status.pendingFreeze then Move(ResumeBranch)
      else if !ShouldSkip(snap) then Move(CancelFreeze)
      else if snap.status.freezeStartedAt.None? then Move(ClearFreeze)
      else
        var elapsed := v.clock - snap.status.freezeStartedAt.value;
        if elapsed < snap.spec.freezeDelay then Quit(After(snap.spec.freezeDelay - elapsed)) else Move(WriteFrozen)
    case CancelFreeze =>
      if ok then WriteThen(WithPendingFreeze(v.latest.value, false), Go(RefetchFreeze)) else Quit(Retry(c.wait))
    case RefetchFreeze => Refetch(ok, c, ResumeBranch)
    case ClearFreeze =>
      if ok && v.latest.value == snap then WriteThen(WithPendingFreeze(snap, false), Exit(Done, Normal)) else Quit(Done)
    case WriteFrozen =>
      if ok then
        var latest := v.latest.value;
        WriteThen(latest.(status := latest.status.(phase := Frozen, pendingFreeze := false)),
                  Exit(Done, if latest.status.pendingResume then FreezeOverPending else Normal))
      else Quit(Retry(c.wait))
  }

  /** The pending startup or recovery resume. */
  function DecideResume(v: View, q: Search, c: Choice): Effect
    requires ResumePart(v.pc)
  {
    var snap := v.snap;
    var ok := c.ok && v.latest.Some?;
    match v.pc
    case ResumeBranch =>
      if !snap.status.pendingResume then Move(FailureBranch)
      else if !v.startupComplete then Quit(After(STARTUP_WAIT))
      else if UnhandledFailure(snap) then Move(CancelByFailure)
      else if UnhandledOperation(snap) then Move(CancelByManual)
      else Move(Gate)
    case CancelByFailure =>
      if ok then WriteThen(WithPending(v.latest.value, false), Go(RefetchByFailure)) else Quit(Retry(c.wait))
    case RefetchByFailure => Refetch(ok, c, FailureBranch)
    case CancelByManual =>
      if ok then WriteThen(WithPending(v.latest.value, false), Go(RefetchByManual)) else Quit(Retry(c.wait))
    case RefetchByManual => Refetch(ok, c, FailureBranch)
    case Gate =>
      if !c.ok then Quit(Retry(c.wait)) else if q.blocked then Quit(After(GATE_WAIT)) else Move(DelayCheck)
    case DelayCheck =>
      if snap.status.resumeStartedAt.None? then Move(ClearResume)
      else
        var elapsed := v.clock - snap.status.resumeStartedAt.value;
        if elapsed < snap.spec.resumeDelay then Quit(After(snap.spec.resumeDelay - elapsed)) else Move(PreCheck)
    case ClearResume =>
      if ok && v.latest.value == snap then WriteThen(WithPending(snap, false), Exit(Done, Normal)) else Quit(Done)
    case PreCheck =>
      if !c.ok then Quit(Retry(c.wait))
      else if snap.spec.preConditions && !c.verdict.Pass? then Move(WritePreWait)
      else Move(ResumeWorkloads)
    case WritePreWait =>
      Effect(if ok then Some(PreWait(v.latest.value, snap)) else None, Exit(After(snap.spec.checkInterval), Normal))
    case ResumeWorkloads => ResumeStep(v, c, WriteResumed)
    case WriteResumed =>
      if ok then
        var latest := v.latest.value;
        WriteThen(latest.(status := latest.status.(phase := Resumed, pendingResume := false)),
                  Exit(if snap.spec.handleNodeFailure && snap.status.failedNode != ""
                       then After(CLEANUP_WAIT) else Done, Normal))
      else Quit(Retry(c.wait))
  }

  /** The node failure and the cleanup that follows it. */
  function DecideFailure(v: View, c: Choice): Effect
    requires FailurePart(v.pc)
  {
    var snap := v.snap;
    var ok := c.ok && v.latest.Some?;
    match v.pc
    case FailureBranch =>
      if UnhandledFailure(snap) then Move(WriteFailureHandled) else Move(Cleanup)
    case WriteFailureHandled =>
      if ok then
        var p := Flagged(v.latest.value, c.now);
        WriteThen(p.(status := p.status.(failureHandledAt := Some(c.now))), Exit(Retry(c.wait), Normal))
      else Quit(Retry(c.wait))
    case Cleanup =>
      if !snap.spec.handleNodeFailure || snap.status.failedNode == "" || !ShouldSkip(snap) then Move(SkipCheck)
      else if c.verdict.Wait? then Quit(After(CLEANUP_WAIT))
      else Move(ClearFailedNode)
    case ClearFailedNode =>
      if ok then WriteThen(v.latest.value.(status := v.latest.value.status.(failedNode := "")), Go(RefetchCleanup))
      else Move(RefetchCleanup)
    case RefetchCleanup => Refetch(ok, c, SkipCheck)
  }

  /** The manual operation. */
  function DecideManual(v: View, c: Choice): Effect
    requires ManualPart(v.pc)
  {
    var snap := v.snap;
    var ok := c.ok && v.latest.Some?;
    match v.pc
    case SkipCheck =>
      if !ShouldSkip(snap) then Move(NamespaceCheck) else Quit(if c.ok then Done else Retry(c.wait))
    case NamespaceCheck =>
      var failed := if ok then Some(Record(v.latest.value, snap, Failed)) else None;
      if c.verdict.Pass? then Move(CheckingBranch)
      else if c.verdict.Wait? && ok then Effect(failed, Exit(Done, Normal))
      else Effect(failed, Exit(Retry(c.wait), Normal))
    case CheckingBranch =>
      if !snap.status.checking then Move(Processing)
      else if c.verdict.Pass? then (if c.ok then Move(ResumeChecked) else Quit(Retry(c.wait)))
      else Quit(After(if snap.spec.checkInterval > 0 then snap.spec.checkInterval else DEFAULT_CHECK_INTERVAL))
    case ResumeChecked => ResumeStep(v, c, WriteChecked)
    case WriteChecked =>
      if ok then
        var latest := v.latest.value;
        WriteThen(latest.(status := latest.status.(phase := Resumed, checking := false, pendingResume := false)),
                  Exit(Done, Normal))
      else Quit(Retry(c.wait))
    case Processing =>
      if ok then
        WriteThen(Record(v.latest.value, snap, if snap.spec.action.Freeze? then Freezing else Resuming), Go(Manual))
      else Quit(Retry(c.wait))
    case Manual => ManualStep(v, c)
  }

  /** One step of Reconcile. */
  function Decide(v: View, q: Search, c: Choice): Effect {
    if FreezePart(v.pc) then DecideFreeze(v, q, c)
    else if ResumePart(v.pc) then DecideResume(v, q, c)
    else if FailurePart(v.pc) then DecideFailure(v, c)
    else DecideManual(v, c)
  }

  function Refetch(ok: bool, c: Choice, pc: Pc): Effect {
    if ok then Effect(None, Reload(pc)) else Quit(Retry(c.wait))
  }

  function InPhase(p: Policy, phase: Phase): Policy {
    p.(status := p.status.(phase := phase))
  }

  /** Resuming the workloads of a startup or recovery resume.  Without
      throttling nothing but the workloads is touched.  With throttling the loop
      also writes its progress, looks for an override and may fail. */
  function ResumeStep(v: View, c: Choice, next: Pc): Effect {
    var ok := c.ok && v.latest.Some?;
    if !v.snap.spec.throttling then Move(next)
    else
      match c.verdict
      case Pass => Move(next)
      case Wait => Effect(if ok then Some(InPhase(v.latest.value, Resuming)) else None, Go(v.pc))
      case Abort => if ok && Overridden(v.latest.value, v.snap, true) then Quit(Done) else Move(v.pc)
      case Error => Quit(Retry(c.wait))
  }

  /** After the "Processing" write the manual branch only writes phases and
      pre-condition progress, in an order that its workloads decide, and leaves. */
  function ManualStep(v: View, c: Choice): Effect {
    if c.move.Leave? then Quit(c.move.result)
    else if !c.ok || v.latest.None? then Move(v.pc)
    else
      var latest := v.latest.value;
      match c.move
      case SetPhase(phase) => WriteThen(Record(latest, v.snap, phase), Go(v.pc))
      case SetChecking(checking) => WriteThen(latest.(status := latest.status.(checking := checking)), Go(v.pc))
      case _ => WriteThen(InPhase(latest, Resuming), Go(v.pc))
  }

  function Seen(s: State): View
    requires s.worker.Busy?
  {
    View(s.worker.pc, s.worker.snap, Lookup(s.policies, s.worker.id), s.clock, s.startupComplete)
  }

  function Searched(s: State): Search
    requires s.worker.Busy?
  {
    var id, snap := s.worker.id, s.worker.snap;
    Search(Conflicted(s.policies, id, snap), Blocked(s.policies, id, snap))
  }

  function Lookup(policies: map<Id, Policy>, id: Id): Option<Policy> {
    if id in policies then Some(policies[id]) else None
  }

  function WorkStep(s: State, c: Choice): State
    requires s.worker.Busy?
  {
    Apply(s, Decide(Seen(s), Searched(s), c))
  }

  function Apply(s: State, e: Effect): State
    requires s.worker.Busy?
  {
    var s1 := if e.write.Some? && s.worker.id in s.policies then Put(s, s.worker.id, e.write.value) else s;
    Advance(s1, e.next)
  }

  function Advance(s: State, next: Next): State
    requires s.worker.Busy?
  {
    match next
    case Go(pc) => s.(worker := s.worker.(pc := pc))
    case Reload(pc) =>
      var snap := if s.worker.id in s.policies then s.policies[s.worker.id] else s.worker.snap;
      s.(worker := s.worker.(pc := pc, snap := snap))
    case Exit(result, ending) => Finish(s, s.worker.id, result, ending)
  }

  // -------------------------------------------------- the startup goroutine

  function Select(copies: map<Id, Policy>, startup: StartupPolicy): set<Id> {
    set id <- copies.Keys | copies[id].spec.startupPolicy == startup
  }

  predicate Lists(ids: seq<Id>, all: set<Id>) {
    Distinct(ids) && (forall id <- ids :: id in all) && (forall id <- all :: id in ids)
  }

  predicate InFlagOrder(copies: map<Id, Policy>, flags: seq<Id>)
    requires forall id <- flags :: id in copies
  {
    forall i, j :: 0 <= i < j < |flags| ==>
      EffectivePriority(copies[flags[i]].spec) <= EffectivePriority(copies[flags[j]].spec)
  }

  /** With a failed node, the resume policies that handle node failures are
      scaled down and flagged by the pre-scan, the others in the last phase. */
  predicate ScanPlan(copies: map<Id, Policy>, failed: Option<string>, failures: seq<Id>, flags: seq<Id>) {
    var resumes := Select(copies, StartupResume);
    var handlers := set id <- resumes | id in copies && copies[id].spec.handleNodeFailure;
    && (if failed.Some? then Lists(failures, handlers) && Lists(flags, resumes - handlers)
        else failures == [] && Lists(flags, resumes))
    && (forall id <- flags :: id in copies)
    && InFlagOrder(copies, flags)
  }

  function StartupFrozen(latest: Policy, copy: Policy, now: nat): Policy {
    if copy.spec.freezeDelay > 0 then
      latest.(status := latest.status.(pendingFreeze := true, freezeStartedAt := Some(now), phase := Idle))
    else latest.(status := latest.status.(phase := Frozen))
  }

  predicate FailureHandled(copy: Policy, node: string) {
    && copy.status.failedNode == node
    && copy.status.failureHandledAt.Some?
    && (copy.status.failureDetectedAt.None? || copy.status.failureHandledAt.value > copy.status.failureDetectedAt.value)
  }

  function StartupScaledDown(latest: Policy, node: string, now: nat, handledAt: nat): Policy {
    var p := Flagged(latest, handledAt);
    p.(status := p.status.(failedNode := node, failureDetectedAt := Some(now), failureHandledAt := Some(handledAt)))
  }

  function StartupPending(latest: Policy, now: nat): Policy {
    var p := Flagged(latest, now);
    p.(status := p.status.(phase := Idle))
  }

  // -------------------------------------------------------- the whole system

  predicate Enabled(s: State, l: Label) {
    match l
    case Work(c) => s.worker.Busy? && c.now <= s.clock
    case Take(id, _, _) => s.worker.Resting? && id in s.queued
    case StartupList(_) => s.startup.NotListed?
    case StartupFreezeOne(id, _, now) =>
      s.startup.FreezingGroups? && id in s.startup.freezes && id in s.startup.copies && now <= s.clock
    case StartupGroupsDone => s.startup.FreezingGroups? && s.startup.freezes == {}
    case StartupScan(failed, failures, flags) =>
      s.startup.Scanning? && ScanPlan(s.startup.copies, failed, failures, flags)
    case StartupHandleOne(_, now, handledAt) =>
      s.startup.HandlingFailure? && |s.startup.failures| > 0 && s.startup.failures[0] in s.startup.copies &&
      now <= s.clock && handledAt <= s.clock
    case StartupHandled => s.startup.HandlingFailure? && s.startup.failures == []
    case StartupFlagOne(_, now) =>
      s.startup.Flagging? && |s.startup.flags| > 0 && s.startup.flags[0] in s.startup.copies && now <= s.clock
    case StartupFlagged => s.startup.Flagging? && s.startup.flags == []
    case StartupMark => s.startup.Marking?
    case Edit(id, spec) => id in s.policies && SpecAdmitted(spec)
    case NodeFails(id, _, _, now) => id in s.policies && now <= s.clock
    case Wake(id) => true
    case Create(id, _, spec) =>
      id !in s.policies && SpecAdmitted(spec) && (s.worker.Busy? ==> s.worker.id != id)
    case MarkDeleting(id) => id in s.policies
    case Remove(id) => id in s.policies
    case Tick(_) => true
    case Fire(id) => id in s.timers && s.timers[id] <= s.clock
    case Restart => true
  }

  predicate OfStartup(l: Label) {
    || l.StartupList? || l.StartupFreezeOne? || l.StartupGroupsDone? || l.StartupScan? || l.StartupHandleOne?
    || l.StartupHandled? || l.StartupFlagOne? || l.StartupFlagged? || l.StartupMark?
  }

  predicate OfWorld(l: Label) {
    l.Edit? || l.NodeFails? || l.Wake? || l.Create? || l.MarkDeleting? || l.Remove? || l.Tick?
  }

  /** A step of the startup goroutine: where it goes, and the policy it writes. */
  datatype StartupEffect = StartupEffect(startup: Startup, id: Id, write: Option<Policy>)

  function Quietly(startup: Startup): StartupEffect {
    StartupEffect(startup, "", None)
  }

  /** The startup goroutine: freeze groups, node scan, pre-scan scale-down, flags, completion. */
  function StartupMove(s: State, l: Label): StartupEffect
    requires OfStartup(l) && Enabled(s, l)
  {
    match l
    case StartupList(ok) =>
      Quietly(if ok then FreezingGroups(s.policies, Select(s.policies, StartupFreeze)) else Marking)
    case StartupFreezeOne(id, ok, now) =>
      StartupEffect(s.startup.(freezes := s.startup.freezes - {id}), id,
        if ok && id in s.policies then Some(StartupFrozen(s.policies[id], s.startup.copies[id], now)) else None)
    case StartupGroupsDone => Quietly(Scanning(s.startup.copies))
    case StartupScan(failed, failures, flags) =>
      Quietly(if failed.Some? then HandlingFailure(s.startup.copies, failed.value, failures, flags)
              else Flagging(s.startup.copies, flags))
    case StartupHandleOne(ok, now, handledAt) =>
      var id := s.startup.failures[0];
      StartupEffect(s.startup.(failures := s.startup.failures[1..]), id,
        if ok && id in s.policies && !FailureHandled(s.startup.copies[id], s.startup.node) then
          Some(StartupScaledDown(s.policies[id], s.startup.node, now, handledAt))
        else None)
    case StartupHandled => Quietly(Flagging(s.startup.copies, s.startup.flags))
    case StartupFlagOne(ok, now) =>
      var id := s.startup.flags[0];
      StartupEffect(s.startup.(flags := s.startup.flags[1..]), id,
        if ok && id in s.policies && s.startup.copies[id].status.phase != Resumed then
          Some(StartupPending(s.policies[id], now))
        else None)
    case StartupFlagged => Quietly(Marking)
    case StartupMark => Quietly(Finished)
  }

  function StartupStep(s: State, l: Label): State
    requires OfStartup(l) && Enabled(s, l)
  {
    ApplyStartup(s, StartupMove(s, l))
  }

  /** Reaching the end marks startup complete. */
  function ApplyStartup(s: State, e: StartupEffect): State {
    var s1 := s.(startup := e.startup, startupComplete := s.startupComplete || e.startup.Finished?);
    if e.write.Some? && e.id in s.policies then Put(s1, e.id, e.write.value) else s1
  }

  /** Users, nodes and time. */
  function WorldStep(s: State, l: Label): State
    requires OfWorld(l) && Enabled(s, l)
  {
    match l
    case Edit(id, spec) => Put(s, id, s.policies[id].(spec := spec))
    case NodeFails(id, node, ok, now) =>
      var p := s.policies[id];
      if !p.spec.handleNodeFailure then s
      else if p.status.failedNode == node && UnhandledFailure(p) then Enqueue(s, id)
      else if ok then
        Enqueue(Put(s, id, p.(status := p.status.(failedNode := node, failureDetectedAt := Some(now)))), id)
      else s
    case Wake(id) => Enqueue(s, id)
    case Create(id, name, spec) =>
      var p := Policy(name, s.clock, false, spec, EMPTY_STATUS);
      var s1 := s.(policies := s.policies[id := p]);
      if CreateTriggers(p) then Enqueue(s1, id) else s1
    case MarkDeleting(id) => s.(policies := s.policies[id := s.policies[id].(deleting := true)])
    case Remove(id) => Enqueue(s.(policies := s.policies - {id}), id)
    case Tick(ticks) => s.(clock := s.clock + ticks)
  }

  function Enqueue(s: State, id: Id): State {
    s.(queued := s.queued + {id})
  }

  /** The worker picks up a request and reads the policy. */
  function TakeStep(s: State, id: Id, ok: bool, wait: nat): State {
    var s1 := s.(queued := s.queued - {id}, ended := s.ended - {id});
    if !ok then Finish(s1, id, Retry(wait))
    else if id !in s.policies then Finish(s1, id, Done)
    else s1.(worker := Busy(id, CheckConflict, s.policies[id], s.startupComplete))
  }

  function Step(s: State, l: Label): State
    requires Enabled(s, l)
  {
    if OfStartup(l) then StartupStep(s, l)
    else if OfWorld(l) then WorldStep(s, l)
    else
      match l
      case Work(c) => WorkStep(s, c)
      case Take(id, ok, wait) => TakeStep(s, id, ok, wait)
      case Fire(id) => Enqueue(s.(timers := s.timers - {id}), id)
      case Restart => Boot(s.policies, s.clock)
  }

  /** A fresh process: the watch delivers a create event for every stored policy. */
  function Boot(policies: map<Id, Policy>, clock: nat): State {
    State(policies, clock, set id <- policies.Keys | CreateTriggers(policies[id]), map[],
          Resting, NotListed, false, map[])
  }

  predicate Stored(policies: map<Id, Policy>) {
    forall id <- policies.Keys :: SpecAdmitted(policies[id].spec) && FlagsWellFormed(policies[id].status)
  }

  predicate Initial(s: State) {
    s == Boot(s.policies, s.clock) && Stored(s.policies)
  }

  // ---------------------------------------------------------------- runs

  /** The labels can be taken one after the other from s. */
  predicate Runs(s: State, ls: seq<Label>)
    decreases |ls|
  {
    |ls| == 0 || (Enabled(s, ls[0]) && Runs(Step(s, ls[0]), ls[1..]))
  }

  function Final(s: State, ls: seq<Label>): State
    requires Runs(s, ls)
    decreases |ls|
  {
    if |ls| == 0 then s else Final(Step(s, ls[0]), ls[1..])
  }

  lemma RunCons(s: State, l: Label, ls: seq<Label>)
    requires Enabled(s, l) && Runs(Step(s, l), ls)
    ensures Runs(s, [l] + ls) && Final(s, [l] + ls) == Final(Step(s, l), ls)
  {
    assert ([l] + ls)[1..] == ls;
  }

  lemma Uncons(ls: seq<Label>, more: seq<Label>)
    requires |ls| > 0
    ensures ls + more == [ls[0]] + (ls[1..] + more)
  {
  }

  lemma {:induction false} RunConcat(s: State, ls: seq<Label>, more: seq<Label>)
    requires Runs(s, ls) && Runs(Final(s, ls), more)
    ensures Runs(s, ls + more) && Final(s, ls + more) == Final(Final(s, ls), more)
    decreases |ls|
  {
    if |ls| == 0 {
      assert ls + more == more;
    } else {
      var l, rest := ls[0], ls[1..];
      Uncons(ls, more);
      RunConcat(Step(s, l), rest, more);
      RunCons(s, l, rest + more);
    }
  }

  /** A request for `id` is taken up somewhere in the run. */
  predicate Taken(ls: seq<Label>, id: Id) {
    exists l <- ls :: l.Take? && l.id == id && l.ok
  }

  /** A reconcile of `id` has just begun. */
  predicate TakenUp(s: State, id: Id) {
    && s.worker.Busy? && s.worker.id == id && s.worker.pc.CheckConflict?
    && id in s.policies && s.worker.snap == s.policies[id]
  }

  predicate NoneTaken(ls: seq<Label>) {
    forall l <- ls :: !l.Take?
  }

  // ------------------------------------------- the two searches, as loops

  /** The list call returns every stored policy. */
  predicate Listing(listed: seq<(Id, Policy)>, policies: map<Id, Policy>) {
    && (forall entry <- listed :: entry.0 in policies && policies[entry.0] == entry.1)
    && (forall id <- policies.Keys :: exists i :: 0 <= i < |listed| && listed[i].0 == id)
  }

  /** The duplicate check at the top of Reconcile. */
  method FindConflict(listed: seq<(Id, Policy)>, me: Id, mine: Policy, ghost policies: map<Id, Policy>)
    returns (winner: Option<Id>)
    requires Listing(listed, policies)
    ensures winner.Some? <==> Conflicted(policies, me, mine)
    ensures winner.Some? <==> exists other <- policies.Keys ::
      (var p := policies[other];
       && other != me && p.spec.targetNamespace == mine.spec.targetNamespace
       && !p.deleting && p.status.phase != Failed
       && (p.createdAt < mine.createdAt || (p.createdAt == mine.createdAt && Precedes(p.name, mine.name))))
    ensures winner.Some? ==> winner.value in policies && winner.value != me && Ousts(policies[winner.value], mine)
  {
    for i := 0 to |listed|
      invariant forall j :: 0 <= j < i ==> listed[j].0 == me || !Ousts(listed[j].1, mine)
    {
      var (id, p) := listed[i];
      if id == me { continue; }
      if p.spec.targetNamespace == mine.spec.targetNamespace {
        if p.deleting { continue; }
        if p.status.phase == Failed { continue; }
        if mine.createdAt > p.createdAt || (mine.createdAt == p.createdAt && Precedes(p.name, mine.name)) {
          assert listed[i] in listed;
          return Some(id);
        }
      }
    }
    forall id <- policies.Keys | id != me ensures !Ousts(policies[id], mine) {
      var i :| 0 <= i < |listed| && listed[i].0 == id;
      assert listed[i] in listed;
    }
    return None;
  }

  /** isBlockedByHigherPriorityResume. */
  method IsBlocked(listed: seq<(Id, Policy)>, me: Id, mine: Policy, ghost policies: map<Id, Policy>)
    returns (blocked: bool)
    requires Listing(listed, policies)
    ensures blocked <==> Blocked(policies, me, mine)
    ensures blocked <==> exists other <- policies.Keys ::
      (var p := policies[other];
       && other != me && p.status.pendingResume
       && (if p.spec.resumePriority == 0 then 100 else p.spec.resumePriority) <
          (if mine.spec.resumePriority == 0 then 100 else mine.spec.resumePriority))
  {
    var myPriority := DEFAULT_RESUME_PRIORITY;
    if mine.spec.resumePriority != 0 { myPriority := mine.spec.resumePriority; }
    for i := 0 to |listed|
      invariant forall j :: 0 <= j < i ==> listed[j].0 == me || !HoldsBack(listed[j].1, mine)
    {
      var (id, other) := listed[i];
      if id == me { continue; }
      if !other.status.pendingResume { continue; }
      var otherPriority := DEFAULT_RESUME_PRIORITY;
      if other.spec.resumePriority != 0 { otherPriority := other.spec.resumePriority; }
      if otherPriority < myPriority {
        assert listed[i] in listed && HoldsBack(policies[id], mine);
        return true;
      }
    }
    forall id <- policies.Keys | id != me ensures !HoldsBack(policies[id], mine) {
      var i :| 0 <= i < |listed| && listed[i].0 == id;
      assert listed[i] in listed;
    }
    return false;
  }

  // ---------------------------------------------------------------- frames

  /** What nobody but the worker changes: the worker's state, how reconciles
      ended, and name and age of a policy. */
  predicate Untouched(s: State, s': State) {
    && (s'.worker.Resting? || (s'.worker == s.worker && (s.worker.id in s'.policies ==> s.worker.id in s.policies)))
    && (s'.ended == s.ended || s'.ended == map[])
    && forall id <- s'.policies.Keys :: id in s.policies ==> SameBirth(s.policies[id], s'.policies[id])
  }

  predicate SameBirth(p: Policy, q: Policy) {
    p.name == q.name && p.createdAt == q.createdAt
  }

  /** Startup keeps name, age and spec, clears no flag, keeps the flags well formed,
      and records no id but the one asked for. */
  predicate StartupWrite(before: Policy, after: Policy) {
    && SameBirth(before, after) && after.spec == before.spec
    && (before.status.pendingResume ==> after.status.pendingResume)
    && (before.status.pendingFreeze ==> after.status.pendingFreeze)
    && (FlagsWellFormed(before.status) ==> FlagsWellFormed(after.status))
    && (after.status.lastHandled == before.status.lastHandled || after.status.lastHandled == before.spec.operationId)
  }

  lemma StartupWrites(s: State, l: Label)
    requires OfStartup(l) && Enabled(s, l)
    ensures
      var e := StartupMove(s, l);
      e.write.Some? ==> e.id in s.policies && StartupWrite(s.policies[e.id], e.write.value)
  {
  }

  lemma StartupFrame(s: State, e: StartupEffect)
    requires e.write.Some? ==> e.id in s.policies && StartupWrite(s.policies[e.id], e.write.value)
    ensures Untouched(s, ApplyStartup(s, e))
  {
  }

  lemma WorldFrame(s: State, l: Label)
    requires OfWorld(l) && Enabled(s, l)
    ensures Untouched(s, WorldStep(s, l))
  {
  }

  lemma OutsideFrame(s: State, l: Label)
    requires Enabled(s, l) && !l.Work? && !l.Take?
    ensures Untouched(s, Step(s, l))
  {
    if OfStartup(l) {
      StartupWrites(s, l);
      StartupFrame(s, StartupMove(s, l));
    } else if OfWorld(l) {
      WorldFrame(s, l);
    }
  }

  /** The worker goes on where it was, time does not run backwards. */
  lemma OutsideKeepsWorker(s: State, l: Label)
    requires Enabled(s, l) && !l.Work? && !l.Take? && !l.Restart?
    ensures
      var s' := Step(s, l);
      s'.worker == s.worker && s'.clock >= s.clock && (s.startupComplete ==> s'.startupComplete)
  {
  }

  /** t is reached from s by the labels. */
  predicate Reaches(s: State, ls: seq<Label>, t: State) {
    Runs(s, ls) && Final(s, ls) == t
  }

  lemma ReachOne(s: State, l: Label)
    requires Enabled(s, l)
    ensures Reaches(s, [l], Step(s, l))
  {
    RunCons(s, l, []);
    assert [l] + [] == [l];
  }

  lemma ReachTwo(s: State, l: Label, m: Label)
    requires Enabled(s, l) && Enabled(Step(s, l), m)
    ensures Reaches(s, [l, m], Step(Step(s, l), m))
  {
    ReachOne(Step(s, l), m);
    RunCons(s, l, [m]);
    assert [l] + [m] == [l, m];
  }

  lemma ReachOn(s: State, ls: seq<Label>, t: State, more: seq<Label>, u: State)
    requires Reaches(s, ls, t) && Reaches(t, more, u)
    ensures Reaches(s, ls + more, u)
  {
    RunConcat(s, ls, more);
  }

  ghost predicate Reachable(s: State, t: State) {
    exists ls :: Reaches(s, ls, t)
  }

  lemma ReachableOn(s: State, t: State, u: State)
    requires Reachable(s, t) && Reachable(t, u)
    ensures Reachable(s, u)
  {
    var ls :| Reaches(s, ls, t);
    var more :| Reaches(t, more, u);
    ReachOn(s, ls, t, more, u);
  }

  lemma ReachableOne(s: State, l: Label)
    requires Enabled(s, l)
    ensures Reachable(s, Step(s, l))
  {
    ReachOne(s, l);
  }

  lemma ReachableTwo(s: State, l: Label, m: Label)
    requires Enabled(s, l) && Enabled(Step(s, l), m)
    ensures Reachable(s, Step(Step(s, l), m))
  {
    ReachTwo(s, l, m);
  }

  /** The worker stands at `pc` instead. */
  function At(s: State, pc: Pc): State
    requires s.worker.Busy?
  {
    s.(worker := s.worker.(pc := pc))
  }

  /** When all goes well the worker moves on from `pc` to `pc'` without a write. */
  predicate Moves(s: State, pc: Pc, pc': Pc)
    requires s.worker.Busy?
  {
    Decide(Seen(At(s, pc)), Searched(At(s, pc)), SURE) == Move(pc')
  }

  lemma {:induction false} ReachableMoves(s: State, pcs: seq<Pc>)
    requires s.worker.Busy? && |pcs| > 0 && forall i :: 0 <= i < |pcs| - 1 ==> Moves(s, pcs[i], pcs[i + 1])
    ensures Reachable(At(s, pcs[0]), At(s, pcs[|pcs| - 1]))
    decreases |pcs|
  {
    var a := At(s, pcs[0]);
    if |pcs| == 1 {
      assert Reaches(a, [], a);
    } else {
      assert Moves(s, pcs[0], pcs[1]);
      ReachableOne(a, Work(SURE));
      assert Step(a, Work(SURE)) == At(s, pcs[1]);
      var rest := pcs[1..];
      forall i | 0 <= i < |rest| - 1 ensures Moves(s, rest[i], rest[i + 1]) {
        assert Moves(s, pcs[i + 1], pcs[i + 2]);
      }
      ReachableMoves(s, rest);
      ReachableOn(a, At(s, pcs[1]), At(s, pcs[|pcs| - 1]));
    }
  }
}
