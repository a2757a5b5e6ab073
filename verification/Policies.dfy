/** The NamespaceLifecyclePolicy resource as the reconciler sees it, and the
    read-only decisions the reconciler takes on it.  A policy is a value here:
    every writer in the operator fetches the stored object, changes fields of
    the copy and writes the copy back. */
module Policies {
  import opened Options

  /** Namespaced name of a policy. */
  type Id = string

  datatype Phase = NoPhase | Idle | Freezing | Frozen | Resuming | Resumed | Failed

  datatype Action = Freeze | Resume

  datatype StartupPolicy = StartupIgnore | StartupResume | StartupFreeze

  datatype Spec = Spec(
    targetNamespace: string,
    action: Action,
    operationId: string,
    startupPolicy: StartupPolicy,
    resumeDelay: int,
    resumePriority: int,
    freezeDelay: int,
    handleNodeFailure: bool,
    preConditions: bool,
    checkInterval: int,
    throttling: bool)

  /** `checking` stands for `preConditionsStatus != nil && preConditionsStatus.checking`. */
  datatype Status = Status(
    phase: Phase,
    lastHandled: string,
    pendingResume: bool,
    resumeStartedAt: Option<nat>,
    pendingFreeze: bool,
    freezeStartedAt: Option<nat>,
    failureDetectedAt: Option<nat>,
    failureHandledAt: Option<nat>,
    failedNode: string,
    checking: bool)

  datatype Policy = Policy(name: string, createdAt: nat, deleting: bool, spec: Spec, status: Status)

  const EMPTY_STATUS := Status(NoPhase, "", false, None, false, None, None, None, "", false)

  const DEFAULT_RESUME_PRIORITY := 100

  function EffectivePriority(spec: Spec): int {
    if spec.resumePriority == 0 then DEFAULT_RESUME_PRIORITY else spec.resumePriority
  }

  /** The custom resource's schema gives checkInterval a minimum of 1. */
  predicate SpecAdmitted(spec: Spec) {
    spec.checkInterval >= 1
  }

  /** A pending flag always comes with the start of its delay. */
  predicate FlagsWellFormed(status: Status) {
    && (status.pendingResume ==> status.resumeStartedAt.Some?)
    && (status.pendingFreeze ==> status.freezeStartedAt.Some?)
  }

  /** shouldSkipOperation: the operation id has been handled already. */
  predicate ShouldSkip(p: Policy) {
    if p.spec.operationId == "" then false
    else if p.status.checking then false
    else if p.status.pendingResume && p.status.lastHandled != p.spec.operationId then false
    else p.status.lastHandled == p.spec.operationId
  }

  predicate UnhandledOperation(p: Policy) {
    p.spec.operationId != "" && p.status.lastHandled != p.spec.operationId
  }

  predicate UnhandledFailure(p: Policy) {
    && p.spec.handleNodeFailure
    && p.status.failureDetectedAt.Some?
    && (p.status.failureHandledAt.None? || p.status.failureDetectedAt.value > p.status.failureHandledAt.value)
  }

  /** `after` is later than `before`, or `before` does not exist. */
  predicate Newer(after: Option<nat>, before: Option<nat>) {
    after.Some? && (before.None? || after.value > before.value)
  }

  /** The update predicate of the policy watch.  The generation changes exactly
      when the spec does. */
  predicate UpdateTriggers(before: Policy, after: Policy) {
    || before.spec != after.spec
    || (!before.status.pendingFreeze && after.status.pendingFreeze)
    || (after.status.pendingFreeze && after.status.freezeStartedAt.Some? &&
        before.status.freezeStartedAt != after.status.freezeStartedAt)
    || (!before.status.pendingResume && after.status.pendingResume)
    || (after.status.pendingResume && after.status.resumeStartedAt.Some? &&
        before.status.resumeStartedAt != after.status.resumeStartedAt)
    || Newer(after.status.failureDetectedAt, before.status.failureDetectedAt)
  }

  /** The create predicate, which also decides what is queued after a restart. */
  predicate CreateTriggers(p: Policy) {
    p.status.pendingResume || p.status.pendingFreeze || UnhandledFailure(p) || UnhandledOperation(p)
  }

  /** Byte-wise order on names. */
  predicate Precedes(a: string, b: string) {
    |b| > 0 && (|a| == 0 || a[0] < b[0] || (a[0] == b[0] && Precedes(a[1..], b[1..])))
  }

  /** p was created after q, or at the same time with the later name. */
  predicate Younger(p: Policy, q: Policy) {
    p.createdAt > q.createdAt || (p.createdAt == q.createdAt && Precedes(q.name, p.name))
  }

  /** `other` takes the namespace away from `mine`. */
  predicate Ousts(other: Policy, mine: Policy) {
    && other.spec.targetNamespace == mine.spec.targetNamespace
    && !other.deleting
    && other.status.phase != Failed
    && Younger(mine, other)
  }

  predicate Conflicted(policies: map<Id, Policy>, id: Id, mine: Policy) {
    exists other <- policies.Keys :: other != id && Ousts(policies[other], mine)
  }

  /** `other` keeps `mine` waiting at the priority gate. */
  predicate HoldsBack(other: Policy, mine: Policy) {
    other.status.pendingResume && EffectivePriority(other.spec) < EffectivePriority(mine.spec)
  }

  predicate Blocked(policies: map<Id, Policy>, id: Id, mine: Policy) {
    exists other <- policies.Keys :: other != id && HoldsBack(policies[other], mine)
  }

  /** checkManualOverride, said as one condition on the freshly fetched policy. */
  predicate Overridden(latest: Policy, mine: Policy, startup: bool) {
    || (&& UnhandledOperation(latest)
        && (startup ==> latest.status.lastHandled != "")
        && latest.spec.operationId != mine.spec.operationId)
    || (!startup && latest.spec.action == Freeze)
  }
}
