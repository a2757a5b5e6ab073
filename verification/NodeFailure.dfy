/** Which workloads lived on a failed node alone. */
module NodeFailure {
  import opened Sequences

  type Uid = string

  datatype OwnerRef = OwnerRef(kind: string, name: string, uid: Uid)

  datatype PodPhase = PodSucceeded | PodFailed | PodActive

  datatype Pod = Pod(phase: PodPhase, terminating: bool, node: string, owners: seq<OwnerRef>)

  /** Owner references of the ReplicaSets that can be fetched, by name. */
  type ReplicaSets = map<string, seq<OwnerRef>>

  datatype Kind = Deployment | StatefulSet

  datatype Owner = Unresolved | Unmanaged | Owned(kind: Kind, uid: Uid)

  predicate Controls(ref: OwnerRef) {
    ref.kind == "ReplicaSet" || ref.kind == "StatefulSet"
  }

  /** The reference at i is the first one to a ReplicaSet or StatefulSet; it decides. */
  predicate Decides(owners: seq<OwnerRef>, i: int) {
    0 <= i < |owners| && Controls(owners[i]) && forall j :: 0 <= j < i ==> !Controls(owners[j])
  }

  /** The reference at d is the first one to a Deployment. */
  predicate FirstDeployment(refs: seq<OwnerRef>, d: int) {
    0 <= d < |refs| && refs[d].kind == "Deployment" && forall j :: 0 <= j < d ==> refs[j].kind != "Deployment"
  }

  /** The references lead to this workload: directly to a StatefulSet, or by way of a
      ReplicaSet that can be fetched to its Deployment. */
  predicate OwnedBy(owners: seq<OwnerRef>, rs: ReplicaSets, kind: Kind, uid: Uid) {
    exists i :: 0 <= i < |owners| && Decides(owners, i) && LeadsTo(owners[i], rs, kind, uid)
  }

  predicate LeadsTo(ref: OwnerRef, rs: ReplicaSets, kind: Kind, uid: Uid) {
    match kind
    case StatefulSet => ref.kind == "StatefulSet" && ref.uid == uid
    case Deployment =>
      && ref.kind == "ReplicaSet" && ref.name in rs
      && var refs := rs[ref.name];
         exists d :: 0 <= d < |refs| && FirstDeployment(refs, d) && refs[d].uid == uid
  }

  /** The first controlling reference is to a ReplicaSet that cannot be fetched. */
  predicate Untraceable(owners: seq<OwnerRef>, rs: ReplicaSets) {
    exists i :: 0 <= i < |owners| && Decides(owners, i) && owners[i].kind == "ReplicaSet" && owners[i].name !in rs
  }

  /** resolveWorkloadOwnerUID; `Unmanaged` is the answer in all other cases. */
  method ResolveOwner(owners: seq<OwnerRef>, rs: ReplicaSets) returns (owner: Owner)
    ensures forall kind, uid :: owner == Owned(kind, uid) <==> OwnedBy(owners, rs, kind, uid)
    ensures owner == Unresolved <==> Untraceable(owners, rs)
  {
    for i := 0 to |owners|
      invariant forall j :: 0 <= j < i ==> !Controls(owners[j])
    {
      var ref := owners[i];
      if ref.kind == "ReplicaSet" {
        assert Decides(owners, i);
        if ref.name !in rs { return Unresolved; }
        var refs := rs[ref.name];
        for j := 0 to |refs|
          invariant forall k :: 0 <= k < j ==> refs[k].kind != "Deployment"
        {
          if refs[j].kind == "Deployment" {
            assert FirstDeployment(refs, j);
            return Owned(Deployment, refs[j].uid);
          }
        }
        return Unmanaged;
      } else if ref.kind == "StatefulSet" {
        assert Decides(owners, i);
        return Owned(StatefulSet, ref.uid);
      }
    }
    return Unmanaged;
  }

  lemma OwnedOnce(owners: seq<OwnerRef>, rs: ReplicaSets, kind: Kind, uid: Uid, kind': Kind, uid': Uid)
    requires OwnedBy(owners, rs, kind, uid) && OwnedBy(owners, rs, kind', uid')
    ensures kind == kind' && uid == uid'
  {
    var i :| 0 <= i < |owners| && Decides(owners, i) && LeadsTo(owners[i], rs, kind, uid);
    var j :| 0 <= j < |owners| && Decides(owners, j) && LeadsTo(owners[j], rs, kind', uid');
    assert i == j;
  }

  /** Completed and terminating pods serve no traffic. */
  predicate Live(pod: Pod) {
    !pod.phase.PodSucceeded? && !pod.phase.PodFailed? && !pod.terminating
  }

  predicate Serves(pod: Pod, rs: ReplicaSets, kind: Kind, uid: Uid) {
    Live(pod) && OwnedBy(pod.owners, rs, kind, uid)
  }

  /** The workload has live pods, and all of them are on the node. */
  predicate FullyLocal(pods: seq<Pod>, rs: ReplicaSets, kind: Kind, uid: Uid, node: string) {
    && (exists pod <- pods :: Serves(pod, rs, kind, uid))
    && (forall pod <- pods :: Serves(pod, rs, kind, uid) ==> pod.node == node)
  }

  /** A pod counts if and only if it has neither finished nor been told to stop. */
  lemma FullyLocalMeans(pods: seq<Pod>, rs: ReplicaSets, kind: Kind, uid: Uid, node: string)
    ensures FullyLocal(pods, rs, kind, uid, node) <==>
      && (exists pod <- pods :: pod.phase == PodActive && !pod.terminating && OwnedBy(pod.owners, rs, kind, uid))
      && (forall pod <- pods ::
            pod.phase == PodActive && !pod.terminating && OwnedBy(pod.owners, rs, kind, uid) ==> pod.node == node)
  {
    forall pod <- pods
      ensures Serves(pod, rs, kind, uid) <==>
        pod.phase == PodActive && !pod.terminating && OwnedBy(pod.owners, rs, kind, uid)
    {
    }
    if exists pod <- pods :: pod.phase == PodActive && !pod.terminating && OwnedBy(pod.owners, rs, kind, uid) {
      var pod :| pod in pods && pod.phase == PodActive && !pod.terminating && OwnedBy(pod.owners, rs, kind, uid);
      assert Serves(pod, rs, kind, uid);
    }
  }

  // ------------------------------------------------------------- the counters

  function Total(pods: seq<Pod>, rs: ReplicaSets, kind: Kind, uid: Uid): nat {
    if |pods| == 0 then 0
    else Total(pods[..|pods| - 1], rs, kind, uid) + if Serves(pods[|pods| - 1], rs, kind, uid) then 1 else 0
  }

  function OnNode(pods: seq<Pod>, rs: ReplicaSets, kind: Kind, uid: Uid, node: string): nat {
    if |pods| == 0 then 0
    else
      var last := pods[|pods| - 1];
      OnNode(pods[..|pods| - 1], rs, kind, uid, node)
      + if Serves(last, rs, kind, uid) && last.node == node then 1 else 0
  }

  /** The counters agree exactly when no live pod is elsewhere. */
  lemma {:induction false} CountersMeanLocal(pods: seq<Pod>, rs: ReplicaSets, kind: Kind, uid: Uid, node: string)
    ensures OnNode(pods, rs, kind, uid, node) <= Total(pods, rs, kind, uid)
    ensures Total(pods, rs, kind, uid) > 0 <==> exists pod <- pods :: Serves(pod, rs, kind, uid)
    ensures OnNode(pods, rs, kind, uid, node) == Total(pods, rs, kind, uid) <==>
            forall pod <- pods :: Serves(pod, rs, kind, uid) ==> pod.node == node
    decreases |pods|
  {
    if |pods| > 0 {
      var init, last := pods[..|pods| - 1], pods[|pods| - 1];
      CountersMeanLocal(init, rs, kind, uid, node);
      assert pods == init + [last];
      assert forall pod :: pod in pods <==> pod in init || pod == last;
    }
  }

  datatype Entry = Entry(kind: Kind, total: nat, failed: nat)

  /** The counters of the pods seen so far, for the workloads the policy selects. */
  predicate Tallied(counts: map<Uid, Entry>, pods: seq<Pod>, rs: ReplicaSets, node: string, ds: set<Uid>,
                    ss: set<Uid>)
  {
    && counts.Keys <= ds + ss
    && (forall uid <- ds :: TalliedFor(counts, pods, rs, node, Deployment, uid))
    && (forall uid <- ss :: TalliedFor(counts, pods, rs, node, StatefulSet, uid))
  }

  predicate TalliedFor(counts: map<Uid, Entry>, pods: seq<Pod>, rs: ReplicaSets, node: string, kind: Kind, uid: Uid) {
    var total := Total(pods, rs, kind, uid);
    if uid in counts then total > 0 && counts[uid] == Entry(kind, total, OnNode(pods, rs, kind, uid, node))
    else total == 0
  }

  lemma TallyExtends(pods: seq<Pod>, pod: Pod, rs: ReplicaSets, kind: Kind, uid: Uid, node: string)
    ensures Total(pods + [pod], rs, kind, uid) ==
            Total(pods, rs, kind, uid) + if Serves(pod, rs, kind, uid) then 1 else 0
    ensures OnNode(pods + [pod], rs, kind, uid, node) ==
            OnNode(pods, rs, kind, uid, node) + if Serves(pod, rs, kind, uid) && pod.node == node then 1 else 0
  {
    assert (pods + [pod])[..|pods|] == pods;
  }

  /** A pod that serves none of the selected workloads changes no counter. */
  lemma PodIgnored(counts: map<Uid, Entry>, before: seq<Pod>, pod: Pod, rs: ReplicaSets, node: string,
                   ds: set<Uid>, ss: set<Uid>)
    requires Tallied(counts, before, rs, node, ds, ss)
    requires forall uid <- ds :: !Serves(pod, rs, Deployment, uid)
    requires forall uid <- ss :: !Serves(pod, rs, StatefulSet, uid)
    ensures Tallied(counts, before + [pod], rs, node, ds, ss)
  {
    forall uid <- ds ensures TalliedFor(counts, before + [pod], rs, node, Deployment, uid) {
      TallyExtends(before, pod, rs, Deployment, uid, node);
    }
    forall uid <- ss ensures TalliedFor(counts, before + [pod], rs, node, StatefulSet, uid) {
      TallyExtends(before, pod, rs, StatefulSet, uid, node);
    }
  }

  function Bumped(counts: map<Uid, Entry>, kind: Kind, uid: Uid, onNode: bool): map<Uid, Entry> {
    var entry := if uid in counts then counts[uid] else Entry(kind, 0, 0);
    counts[uid := Entry(entry.kind, entry.total + 1, if onNode then entry.failed + 1 else entry.failed)]
  }

  lemma PodCountedFor(counts: map<Uid, Entry>, before: seq<Pod>, pod: Pod, rs: ReplicaSets, node: string,
                      kind: Kind, uid: Uid, other: Kind, uid': Uid)
    requires Serves(pod, rs, kind, uid) && (uid' == uid ==> other == kind)
    requires TalliedFor(counts, before, rs, node, other, uid')
    ensures TalliedFor(Bumped(counts, kind, uid, pod.node == node), before + [pod], rs, node, other, uid')
  {
    TallyExtends(before, pod, rs, other, uid', node);
    CountersMeanLocal(before, rs, other, uid', node);
    if Serves(pod, rs, other, uid') { OwnedOnce(pod.owners, rs, kind, uid, other, uid'); }
  }

  /** A pod of a selected workload is counted for that workload alone. */
  lemma PodCounted(counts: map<Uid, Entry>, before: seq<Pod>, pod: Pod, rs: ReplicaSets, node: string,
                   ds: set<Uid>, ss: set<Uid>, kind: Kind, uid: Uid)
    requires ds !! ss && Tallied(counts, before, rs, node, ds, ss) && Serves(pod, rs, kind, uid)
    requires if kind.Deployment? then uid in ds else uid in ss
    ensures Tallied(Bumped(counts, kind, uid, pod.node == node), before + [pod], rs, node, ds, ss)
  {
    var counts' := Bumped(counts, kind, uid, pod.node == node);
    forall u <- ds ensures TalliedFor(counts', before + [pod], rs, node, Deployment, u) {
      PodCountedFor(counts, before, pod, rs, node, kind, uid, Deployment, u);
    }
    forall u <- ss ensures TalliedFor(counts', before + [pod], rs, node, StatefulSet, u) {
      PodCountedFor(counts, before, pod, rs, node, kind, uid, StatefulSet, u);
    }
  }

  /** Counting one pod. */
  method CountPod(counts: map<Uid, Entry>, pod: Pod, rs: ReplicaSets, node: string, ds: set<Uid>, ss: set<Uid>,
                  ghost before: seq<Pod>)
    returns (counts': map<Uid, Entry>)
    requires ds !! ss && Tallied(counts, before, rs, node, ds, ss)
    ensures Tallied(counts', before + [pod], rs, node, ds, ss)
  {
    counts' := counts;
    var owner := ResolveOwner(pod.owners, rs);
    if pod.phase.PodSucceeded? || pod.phase.PodFailed? || pod.terminating || owner.Unresolved? || owner.Unmanaged?
       || (owner.kind.Deployment? && owner.uid !in ds) || (owner.kind.StatefulSet? && owner.uid !in ss) {
      PodIgnored(counts, before, pod, rs, node, ds, ss);
      return;
    }
    PodCounted(counts, before, pod, rs, node, ds, ss, owner.kind, owner.uid);
    if owner.uid !in counts' { counts' := counts'[owner.uid := Entry(owner.kind, 0, 0)]; }
    var entry := counts'[owner.uid];
    var failed := if pod.node == node then entry.failed + 1 else entry.failed;
    counts' := counts'[owner.uid := Entry(entry.kind, entry.total + 1, failed)];
    assert counts' == Bumped(counts, owner.kind, owner.uid, pod.node == node);
  }

  /** findFullyLocalWorkloads.  `ds` and `ss` are the selected Deployments and
      StatefulSets; the API server never gives two objects the same UID. */
  method FindFullyLocal(pods: seq<Pod>, rs: ReplicaSets, node: string, ds: set<Uid>, ss: set<Uid>)
    returns (deployments: seq<Uid>, statefulSets: seq<Uid>)
    requires ds !! ss
    ensures forall uid :: uid in deployments <==> uid in ds && FullyLocal(pods, rs, Deployment, uid, node)
    ensures forall uid :: uid in statefulSets <==> uid in ss && FullyLocal(pods, rs, StatefulSet, uid, node)
    ensures Distinct(deployments) && Distinct(statefulSets)
  {
    var counts: map<Uid, Entry> := map[];
    for i := 0 to |pods|
      invariant Tallied(counts, pods[..i], rs, node, ds, ss)
    {
      counts := CountPod(counts, pods[i], rs, node, ds, ss, pods[..i]);
      assert pods[..i] + [pods[i]] == pods[..i + 1];
    }
    assert pods[..|pods|] == pods;
    deployments, statefulSets := [], [];
    var left := counts.Keys;
    while left != {}
      invariant left <= counts.Keys
      invariant forall uid :: uid in deployments <==>
        uid in ds && uid in counts.Keys - left && counts[uid].total == counts[uid].failed
      invariant forall uid :: uid in statefulSets <==>
        uid in ss && uid in counts.Keys - left && counts[uid].total == counts[uid].failed
      invariant Distinct(deployments) && Distinct(statefulSets)
      decreases |left|
    {
      var uid :| uid in left;
      left := left - {uid};
      if counts[uid].total == counts[uid].failed {
        assert uid in ds ==> TalliedFor(counts, pods, rs, node, Deployment, uid);
        assert uid in ss ==> TalliedFor(counts, pods, rs, node, StatefulSet, uid);
        if counts[uid].kind.Deployment? {
          deployments := deployments + [uid];
        } else {
          statefulSets := statefulSets + [uid];
        }
      }
    }
    forall uid <- ds ensures uid in deployments <==> FullyLocal(pods, rs, Deployment, uid, node) {
      CountersMeanLocal(pods, rs, Deployment, uid, node);
      assert TalliedFor(counts, pods, rs, node, Deployment, uid);
    }
    forall uid <- ss ensures uid in statefulSets <==> FullyLocal(pods, rs, StatefulSet, uid, node) {
      CountersMeanLocal(pods, rs, StatefulSet, uid, node);
      assert TalliedFor(counts, pods, rs, node, StatefulSet, uid);
    }
  }
}
