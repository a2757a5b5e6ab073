/** The workloads of one namespace and the loops that freeze and resume them. */
module Namespaces {
  import opened Options
  import opened Workloads
  import opened NodeFailure

  type Store = map<Uid, Workload>

  predicate Marked(w: Workload) {
    REPLICAS_KEY in w.annotations
  }

  /** The annotation of the workload does not parse. */
  predicate Garbled(w: Workload) {
    Workloads.Resumed(w, w).None?
  }

  /** The workload `w` after a resume with the copy `seen`; an annotation that does
      not parse leaves it alone. */
  function ResumedWith(seen: Workload, w: Workload): Workload {
    var r := Workloads.Resumed(seen, w);
    if r.Some? then r.value else w
  }

  /** A resume succeeds without any call if the copy shows no annotation; otherwise
      the calls have to succeed, the workload to exist and the annotation to parse. */
  predicate Succeeds(seen: Workload, ok: bool, present: bool) {
    !Marked(seen) || (ok && present && !Garbled(seen))
  }

  lemma FreezeTwice(w: Workload, a: Option<int>, b: Option<int>)
    ensures Frozen(Frozen(w, a), b) == Frozen(w, a)
  {
  }

  lemma ResumeTwice(seen: Workload, w: Workload)
    ensures ResumedWith(seen, ResumedWith(seen, w)) == ResumedWith(seen, w)
    ensures Workloads.Resumed(seen, w).None? <==> Garbled(seen)
  {
  }

  /** The listed workloads whose calls succeed have been frozen, the others are as before. */
  predicate FrozenAmong(before: Store, after: Store, uids: seq<Uid>, override: Option<int>, ok: Uid -> bool) {
    && after.Keys == before.Keys
    && forall uid <- before.Keys ::
         after[uid] == if uid in uids && ok(uid) then Frozen(before[uid], override) else before[uid]
  }

  lemma FreezeNext(before: Store, now: Store, uids: seq<Uid>, override: Option<int>, ok: Uid -> bool, uid: Uid)
    requires FrozenAmong(before, now, uids, override, ok)
    ensures
      var next := if uid in now && ok(uid) then now[uid := Frozen(now[uid], override)] else now;
      FrozenAmong(before, next, uids + [uid], override, ok)
  {
    if uid in now { FreezeTwice(before[uid], override, override); }
  }

  /** Exactly the workloads of `log` have been resumed, each with its listed copy,
      and none of them is one that cannot be resumed. */
  predicate ResumedLog(before: Store, after: Store, log: seq<Uid>, listed: Store) {
    && (forall uid <- log :: uid in listed && Succeeds(listed[uid], true, uid in before)) && after.Keys == before.Keys
    && forall uid <- before.Keys ::
         after[uid] == if uid in log then ResumedWith(listed[uid], before[uid]) else before[uid]
  }

  lemma ResumeNext(before: Store, now: Store, log: seq<Uid>, listed: Store, uid: Uid)
    requires ResumedLog(before, now, log, listed) && uid in listed && Succeeds(listed[uid], true, uid in before)
    ensures
      var next := if uid in now then now[uid := ResumedWith(listed[uid], now[uid])] else now;
      ResumedLog(before, next, log + [uid], listed)
  {
    if uid in now { ResumeTwice(listed[uid], before[uid]); }
  }

  class Namespace {
    var workloads: Store

    constructor (ws: Store)
      ensures workloads == ws
    {
      workloads := ws;
    }

    /** Freeze every listed workload; a failure is logged and the loop goes on. */
    method FreezeEach(uids: seq<Uid>, override: Option<int>, ok: Uid -> bool) returns (done: seq<Uid>)
      modifies this
      ensures FrozenAmong(old(workloads), workloads, uids, override, ok)
      ensures forall uid :: uid in done <==> uid in uids && ok(uid) && uid in workloads
    {
      done := [];
      for i := 0 to |uids|
        invariant FrozenAmong(old(workloads), workloads, uids[..i], override, ok)
        invariant forall uid :: uid in done <==> uid in uids[..i] && ok(uid) && uid in workloads
      {
        var uid := uids[i];
        assert uids[..i + 1] == uids[..i] + [uid];
        FreezeNext(old(workloads), workloads, uids[..i], override, ok, uid);
        if uid in workloads && ok(uid) {
          workloads := workloads[uid := Frozen(workloads[uid], override)];
          done := done + [uid];
        }
      }
      assert uids[..|uids|] == uids;
    }

    /** resumeDeployment or resumeStatefulSet with the copy `seen`, which may be outdated. */
    method ResumeOne(uid: Uid, seen: Workload, ok: bool) returns (success: bool)
      modifies this
      ensures success <==> Succeeds(seen, ok, uid in old(workloads))
      ensures workloads == if success && uid in old(workloads)
        then old(workloads)[uid := ResumedWith(seen, old(workloads)[uid])] else old(workloads)
    {
      if !Marked(seen) { return true; }
      if !ok || uid !in workloads { return false; }
      var r := Workloads.Resumed(seen, workloads[uid]);
      ResumeTwice(seen, workloads[uid]);
      if r.None? { return false; }
      workloads := workloads[uid := r.value];
      return true;
    }

    /** Resume every listed workload, each with its copy from the list, which may be
        outdated; a failure is logged and the loop goes on. */
    method ResumeEach(uids: seq<Uid>, listed: Store, ok: Uid -> bool) returns (log: seq<Uid>)
      requires forall uid <- uids :: uid in listed
      modifies this
      ensures ResumedLog(old(workloads), workloads, log, listed)
      ensures forall uid :: uid in log <==>
        uid in uids && uid in listed && Succeeds(listed[uid], ok(uid), uid in old(workloads))
    {
      log := [];
      for i := 0 to |uids|
        invariant ResumedLog(old(workloads), workloads, log, listed)
        invariant forall uid :: uid in log <==>
          uid in uids[..i] && uid in listed && Succeeds(listed[uid], ok(uid), uid in old(workloads))
      {
        var uid := uids[i];
        assert uids[..i + 1] == uids[..i] + [uid];
        ghost var now := workloads;
        var success := ResumeOne(uid, listed[uid], ok(uid));
        if success {
          ResumeNext(old(workloads), now, log, listed, uid);
          log := log + [uid];
        }
      }
      assert uids[..|uids|] == uids;
    }

    /** handleNodeFailureEvent: scale down what lived on the failed node alone. */
    method ScaleDown(alreadyFrozen: bool, pods: seq<Pod>, rs: ReplicaSets, node: string, ds: set<Uid>, ss: set<Uid>,
                     ok: Uid -> bool)
      returns (affected: seq<Uid>)
      requires ds !! ss && ds + ss <= workloads.Keys
      modifies this
      ensures workloads.Keys == old(workloads).Keys
      ensures alreadyFrozen ==> workloads == old(workloads) && affected == []
      ensures forall uid <- workloads.Keys ::
        workloads[uid] == if uid in affected then Frozen(old(workloads)[uid], None) else old(workloads)[uid]
      ensures !alreadyFrozen ==> forall uid :: uid in affected <==> ok(uid) && LocalTo(pods, rs, node, ds, ss, uid)
    {
      if alreadyFrozen { return []; }
      var deployments, statefulSets := FindFullyLocal(pods, rs, node, ds, ss);
      var a := FreezeEach(deployments, None, ok);
      label Deployments:
      var b := FreezeEach(statefulSets, None, ok);
      affected := a + b;
      forall uid <- workloads.Keys
        ensures workloads[uid] == if uid in affected then Frozen(old(workloads)[uid], None) else old(workloads)[uid]
      {
        FreezeTwice(old(workloads)[uid], None, None);
      }
    }
  }

  /** A selected workload whose live pods are all on the node. */
  predicate LocalTo(pods: seq<Pod>, rs: ReplicaSets, node: string, ds: set<Uid>, ss: set<Uid>, uid: Uid) {
    || (uid in ds && FullyLocal(pods, rs, Deployment, uid, node))
    || (uid in ss && FullyLocal(pods, rs, StatefulSet, uid, node))
  }

  // ----------------------------------------------------- failure and recovery

  /** The state after scaling some workloads down, the state after resuming all of them. */
  predicate ScaledDown(before: Store, after: Store) {
    && after.Keys == before.Keys
    && forall uid <- before.Keys :: after[uid] == before[uid] || after[uid] == Frozen(before[uid], None)
  }

  predicate Recovered(before: Store, after: Store, selected: set<Uid>) {
    && after.Keys == before.Keys
    && forall uid <- before.Keys ::
         after[uid] == if uid in selected then ResumedWith(before[uid], before[uid]) else before[uid]
  }

  /** Scaling a workload down and resuming it brings the original back. */
  lemma FailureThenRecovery(origin: Store, down: Store, up: Store, selected: set<Uid>, uid: Uid)
    requires forall id <- origin.Keys :: Typed(origin[id]) && Clean(origin[id])
    requires ScaledDown(origin, down) && Recovered(down, up, selected)
    requires forall id <- origin.Keys :: id !in selected ==> down[id] == origin[id]
    requires uid in origin
    ensures Active(origin[uid], up[uid])
    ensures down[uid] == origin[uid] ==> up[uid] == origin[uid]
  {
    var w, d := origin[uid], down[uid];
    assert Conserved(w, w);
    FreezeConserves(w, w, None);
    ResumeConserves(w, d, d);
  }

  /** The whole episode: node failure in a namespace that is not frozen and has no
      operator annotations, then the recovery resume without API errors. */
  method FailAndRecover(ns: Namespace, pods: seq<Pod>, rs: ReplicaSets, node: string, ds: set<Uid>, ss: set<Uid>,
                        listed: seq<Uid>, ok: Uid -> bool)
    requires ds !! ss && ds + ss <= ns.workloads.Keys
    requires forall uid :: uid in listed <==> uid in ds + ss
    requires forall uid <- ns.workloads.Keys :: Typed(ns.workloads[uid]) && Clean(ns.workloads[uid])
    modifies ns
    ensures ns.workloads.Keys == old(ns.workloads).Keys
    ensures forall uid <- ns.workloads.Keys :: Active(old(ns.workloads)[uid], ns.workloads[uid])
    ensures forall uid <- ns.workloads.Keys ::
      !LocalTo(pods, rs, node, ds, ss, uid) ==> ns.workloads[uid] == old(ns.workloads)[uid]
  {
    ghost var origin := ns.workloads;
    var affected := ns.ScaleDown(false, pods, rs, node, ds, ss, ok);
    ghost var down := ns.workloads;
    var log := ns.ResumeEach(listed, ns.workloads, _ => true);
    forall uid <- origin.Keys
      ensures Active(origin[uid], ns.workloads[uid])
      ensures !LocalTo(pods, rs, node, ds, ss, uid) ==> ns.workloads[uid] == origin[uid]
    {
      FailureThenRecovery(origin, down, ns.workloads, ds + ss, uid);
    }
  }
}
