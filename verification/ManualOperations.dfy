/** The manual operation on the workloads of a namespace: freeze all of them, or
    resume the annotated ones, with or without throttling. */
module ManualOperations {
  import opened Options
  import opened Decimal
  import Policies
  import opened Workloads
  import opened NodeFailure
  import opened Namespaces
  import opened Throttling
  import opened ThrottledResume

  /** The phase that is written at the end; an abort in favour of a newer command
      and a panic write none. */
  datatype Report = ReportFrozen | ReportResumed | ReportFailed | NoReport

  // -------------------------------------------------------------------- freeze

  /** Exactly the first `k` listed workloads have been frozen. */
  predicate FrozenPrefix(before: Store, after: Store, uids: seq<Uid>, k: nat, override: Uid -> Option<int>)
    requires k <= |uids|
  {
    && after.Keys == before.Keys
    && forall uid <- before.Keys ::
         after[uid] == if uid in uids[..k] then Frozen(before[uid], override(uid)) else before[uid]
  }

  lemma FreezeNextOfPrefix(before: Store, now: Store, uids: seq<Uid>, k: nat, override: Uid -> Option<int>)
    requires k < |uids| && FrozenPrefix(before, now, uids, k, override) && uids[k] in before
    ensures
      var uid := uids[k];
      FrozenPrefix(before, now[uid := Frozen(now[uid], override(uid))], uids, k + 1, override)
  {
    var uid := uids[k];
    assert uids[..k + 1] == uids[..k] + [uid];
    FreezeTwice(before[uid], override(uid), override(uid));
  }

  lemma FrozenMeansZero(before: Store, after: Store, uids: seq<Uid>, override: Uid -> Option<int>)
    requires FrozenPrefix(before, after, uids, |uids|, override)
    ensures forall uid <- uids :: uid in after ==> after[uid].replicas == Some(0)
  {
    assert uids[..|uids|] == uids;
  }

  /** The manual Freeze: the first failure ends it.  `override` is the policy's
      grace period for the kind of the workload. */
  method ManualFreeze(ns: Namespace, uids: seq<Uid>, override: Uid -> Option<int>, ok: Uid -> bool)
    returns (report: Report, done: nat)
    requires forall uid <- uids :: uid in ns.workloads
    modifies ns
    ensures done <= |uids| && FrozenPrefix(old(ns.workloads), ns.workloads, uids, done, override)
    ensures report == ReportFrozen || report == ReportFailed
    ensures report == ReportFrozen ==>
      forall uid <- uids :: uid in ns.workloads && ns.workloads[uid].replicas == Some(0)
    ensures report == ReportFailed <==> exists uid <- uids :: !ok(uid)
    ensures report == ReportFailed ==> done < |uids| && !ok(uids[done])
  {
    for i := 0 to |uids|
      invariant FrozenPrefix(old(ns.workloads), ns.workloads, uids, i, override)
      invariant forall uid <- uids[..i] :: ok(uid)
    {
      var uid := uids[i];
      if !ok(uid) { return ReportFailed, i; }
      FreezeNextOfPrefix(old(ns.workloads), ns.workloads, uids, i, override);
      ns.workloads := ns.workloads[uid := Frozen(ns.workloads[uid], override(uid))];
    }
    assert uids[..|uids|] == uids;
    FrozenMeansZero(old(ns.workloads), ns.workloads, uids, override);
    return ReportFrozen, |uids|;
  }

  // -------------------------------------------------------------------- resume

  /** `todo` are the annotated workloads of the list, in its order; `places` are their
      places in it. */
  predicate Picked(uids: seq<Uid>, listed: Store, todo: seq<Uid>, places: seq<nat>) {
    && |places| == |todo|
    && (forall i, j :: 0 <= i < j < |places| ==> places[i] < places[j])
    && (forall i :: 0 <= i < |places| ==> places[i] < |uids| && todo[i] == uids[places[i]])
    && (forall p :: 0 <= p < |uids| ==> (p in places <==> uids[p] in listed && Marked(listed[uids[p]])))
  }

  /** filterWorkloadsRequiringResume. */
  method Filter(uids: seq<Uid>, listed: Store) returns (todo: seq<Uid>, ghost places: seq<nat>)
    ensures Picked(uids, listed, todo, places) && |todo| <= |uids|
    ensures forall uid :: uid in todo <==> uid in uids && uid in listed && Marked(listed[uid])
  {
    todo, places := [], [];
    for i := 0 to |uids|
      invariant Picked(uids[..i], listed, todo, places) && |todo| <= i
      invariant forall uid :: uid in todo <==> uid in uids[..i] && uid in listed && Marked(listed[uid])
    {
      if uids[i] in listed && Marked(listed[uids[i]]) { todo, places := todo + [uids[i]], places + [i]; }
    }
    assert uids[..|uids|] == uids;
  }

  /** After the resume of all annotated workloads no annotation is left. */
  lemma NoneMarked(before: Store, after: Store, uids: seq<Uid>, todo: seq<Uid>, listed: Store)
    requires ResumedLog(before, after, todo, listed) && before == listed
    requires forall uid :: uid in todo <==> uid in uids && uid in listed && Marked(listed[uid])
    ensures forall uid <- uids :: uid in after ==> !Marked(after[uid])
  {
  }

  /** Resuming one after the other; the first failure ends it. */
  method ResumeAll(ns: Namespace, todo: seq<Uid>, listed: Store, ok: Uid -> bool) returns (log: seq<Uid>)
    requires forall uid <- todo :: uid in listed
    modifies ns
    ensures log <= todo && ResumedLog(old(ns.workloads), ns.workloads, log, listed)
    ensures log != todo ==>
      var uid := todo[|log|];
      uid in listed && !Succeeds(listed[uid], ok(uid), uid in old(ns.workloads))
  {
    log := [];
    for i := 0 to |todo|
      invariant log == todo[..i] && ResumedLog(old(ns.workloads), ns.workloads, log, listed)
    {
      var uid := todo[i];
      ghost var now := ns.workloads;
      var success := ns.ResumeOne(uid, listed[uid], ok(uid));
      if !success { return; }
      ResumeNext(old(ns.workloads), now, log, listed, uid);
      log := log + [uid];
    }
  }

  /** How the resume is carried out: all at once, or throttled with this
      configuration and history. */
  datatype Mode = AtOnce(ok: Uid -> bool) | Throttled(config: Config, world: World, now: int)

  method ResumeInBatches(ns: Namespace, todo: seq<Uid>, listed: Store, config: Config, world: World, now: int,
                         mine: Policies.Policy)
    returns (report: Report, log: seq<Uid>)
    requires Admitted(config) && |todo| <= INT32_MAX && forall uid <- todo :: uid in listed
    modifies ns
    ensures log <= todo && ResumedLog(old(ns.workloads), ns.workloads, log, listed)
    ensures report != ReportFrozen && (report == ReportResumed <==> log == todo)
    ensures report == NoReport ==>
      (exists j :: Aborts(world(j), mine, false)) || |todo| - 1 + Highest(config) > INT32_MAX
  {
    var outcome, l := ResumeThrottled(ns, Job(todo, listed, config, world, mine, false), now);
    log := l.log;
    report := match outcome
      case Success => ReportResumed
      case Aborted => NoReport
      case SlicePanic => NoReport
      case _ => ReportFailed;
  }

  /** The manual Resume: only annotated workloads count, the first failure ends it. */
  method ManualResume(ns: Namespace, uids: seq<Uid>, mode: Mode, mine: Policies.Policy)
    returns (report: Report, todo: seq<Uid>, log: seq<Uid>, ghost places: seq<nat>)
    requires forall uid <- uids :: uid in ns.workloads
    requires mode.Throttled? ==> Admitted(mode.config) && |uids| <= INT32_MAX
    modifies ns
    ensures Picked(uids, old(ns.workloads), todo, places)
    ensures log <= todo && ResumedLog(old(ns.workloads), ns.workloads, log, old(ns.workloads))
    ensures report != ReportFrozen && (report == ReportResumed <==> log == todo)
    ensures report == ReportResumed ==> forall uid <- uids :: uid in ns.workloads && !Marked(ns.workloads[uid])
    ensures report == NoReport ==> mode.Throttled?
    ensures mode.AtOnce? && report == ReportFailed ==>
      |log| < |todo| && todo[|log|] in uids && (!mode.ok(todo[|log|]) || Garbled(old(ns.workloads)[todo[|log|]]))
    ensures report == NoReport ==>
      (exists j :: Aborts(mode.world(j), mine, false)) || |todo| - 1 + Highest(mode.config) > INT32_MAX
  {
    var listed := ns.workloads;
    todo, places := Filter(uids, listed);
    match mode
    case AtOnce(ok) =>
      log := ResumeAll(ns, todo, listed, ok);
      report := if |log| == |todo| then ReportResumed else ReportFailed;
    case Throttled(config, world, now) =>
      report, log := ResumeInBatches(ns, todo, listed, config, world, now, mine);
    if report == ReportResumed { NoneMarked(listed, ns.workloads, uids, todo, listed); }
  }
}
