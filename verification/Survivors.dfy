/** After every policy of a namespace has been reconciled, the oldest is the only
    one that has not failed. */
module Survivors {
  import opened Policies
  import opened Operator
  import opened Wakeups
  import opened Conflicts

  function Members(s: State, namespace: string): set<Id> {
    set id <- s.policies.Keys | s.policies[id].spec.targetNamespace == namespace
  }

  /** The step brings no policy into the namespace or out of it and deletes none of
      its policies; the owner's own reconcile reports no failure, calls made for the
      other policies of the namespace succeed, and no restart interrupts their reconciles. */
  predicate Peaceful(s: State, l: Label, owner: Id, namespace: string)
    requires Enabled(s, l)
  {
    match l
    case Work(c) =>
      if s.worker.id == owner then
        c.move != SetPhase(Failed) && (s.worker.pc.NamespaceCheck? ==> c.verdict.Pass?)
      else s.worker.id in Members(s, namespace) ==> c.ok
    case Edit(id, spec) => id in Members(s, namespace) <==> spec.targetNamespace == namespace
    case Create(_, _, spec) => spec.targetNamespace != namespace
    case MarkDeleting(id) => id !in Members(s, namespace)
    case Remove(id) => id !in Members(s, namespace)
    case Restart => s.worker.Busy? ==> s.worker.id == owner || s.worker.id !in Members(s, namespace)
    case _ => true
  }

  predicate PeacefulRun(s: State, ls: seq<Label>, owner: Id, namespace: string)
    requires Runs(s, ls)
    decreases |ls|
  {
    |ls| > 0 ==> Peaceful(s, ls[0], owner, namespace) && PeacefulRun(Step(s, ls[0]), ls[1..], owner, namespace)
  }

  /** The oldest policy of the namespace is alive and not failed, and not about to be failed. */
  predicate Reigns(s: State, owner: Id, namespace: string) {
    && NeverOusted(s, owner, namespace)
    && !s.policies[owner].deleting && s.policies[owner].status.phase != Failed
  }

  /** Reconcile writes the status only. */
  lemma WritesKeepIdentity(v: View, q: Search, c: Choice)
    ensures
      var e := Decide(v, q, c);
      v.latest.Some? && e.write.Some? ==> e.write.value == v.latest.value.(status := e.write.value.status)
  {
  }

  /** The writes of Reconcile that report a failure. */
  lemma FailureReports(v: View, q: Search, c: Choice)
    requires v.latest.Some? && v.latest.value.status.phase != Failed && !v.pc.WriteConflict?
    requires v.pc.NamespaceCheck? ==> c.verdict.Pass?
    requires c.move != SetPhase(Failed)
    ensures
      var e := Decide(v, q, c);
      e.write.Some? ==> e.write.value.status.phase != Failed
  {
    if ManualPart(v.pc) { ManualReports(v, c); }
    else if ResumePart(v.pc) { ResumeReports(v, q, c); }
  }

  lemma ResumeReports(v: View, q: Search, c: Choice)
    requires v.latest.Some? && v.latest.value.status.phase != Failed && ResumePart(v.pc)
    ensures
      var e := DecideResume(v, q, c);
      e.write.Some? ==> e.write.value.status.phase != Failed
  {
  }

  lemma ManualReports(v: View, c: Choice)
    requires v.latest.Some? && v.latest.value.status.phase != Failed && ManualPart(v.pc)
    requires v.pc.NamespaceCheck? ==> c.verdict.Pass?
    requires c.move != SetPhase(Failed)
    ensures
      var e := DecideManual(v, c);
      e.write.Some? ==> e.write.value.status.phase != Failed
  {
  }

  /** Policies of the namespace keep age and name, and none joins or leaves. */
  predicate SameMembers(s: State, s': State, namespace: string) {
    && Members(s', namespace) == Members(s, namespace)
    && forall id <- Members(s, namespace) :: id in s.policies && id in s'.policies ==>
         SameBirth(s.policies[id], s'.policies[id]) && s'.policies[id].deleting == s.policies[id].deleting
  }

  lemma WorkSameMembers(s: State, c: Choice, namespace: string)
    requires s.worker.Busy?
    ensures SameMembers(s, WorkStep(s, c), namespace)
  {
    WritesKeepIdentity(Seen(s), Searched(s), c);
    ApplySameMembers(s, Decide(Seen(s), Searched(s), c), namespace);
  }

  lemma ApplySameMembers(s: State, e: Effect, namespace: string)
    requires s.worker.Busy?
    requires s.worker.id in s.policies && e.write.Some? ==>
      e.write.value == s.policies[s.worker.id].(status := e.write.value.status)
    ensures SameMembers(s, Apply(s, e), namespace)
  {
    forall id ensures SameMember(s, Apply(s, e), namespace, id) {
      if id == s.worker.id { ApplySeen(s, e); } else { ApplyFrame(s, e, id); }
    }
    MemberByMember(s, Apply(s, e), namespace);
  }

  lemma WorldSameMembers(s: State, l: Label, owner: Id, namespace: string)
    requires OfWorld(l) && Enabled(s, l) && Peaceful(s, l, owner, namespace)
    ensures SameMembers(s, WorldStep(s, l), namespace)
  {
    forall id ensures SameMember(s, WorldStep(s, l), namespace, id) {
      WorldSameMember(s, l, owner, namespace, id);
    }
    MemberByMember(s, WorldStep(s, l), namespace);
  }

  predicate IsMember(s: State, namespace: string, id: Id) {
    id in s.policies && s.policies[id].spec.targetNamespace == namespace
  }

  predicate SameMember(s: State, s': State, namespace: string, id: Id) {
    && (IsMember(s', namespace, id) <==> IsMember(s, namespace, id))
    && (IsMember(s, namespace, id) && id in s'.policies ==>
          SameBirth(s.policies[id], s'.policies[id]) && s'.policies[id].deleting == s.policies[id].deleting)
  }

  lemma MemberByMember(s: State, s': State, namespace: string)
    requires forall id :: SameMember(s, s', namespace, id)
    ensures SameMembers(s, s', namespace)
  {
    forall id ensures id in Members(s', namespace) <==> id in Members(s, namespace) {
      assert SameMember(s, s', namespace, id);
    }
    forall id <- Members(s, namespace) | id in s.policies && id in s'.policies
      ensures SameBirth(s.policies[id], s'.policies[id]) && s'.policies[id].deleting == s.policies[id].deleting
    {
      assert SameMember(s, s', namespace, id);
    }
  }

  lemma WorldSameMember(s: State, l: Label, owner: Id, namespace: string, id: Id)
    requires OfWorld(l) && Enabled(s, l) && Peaceful(s, l, owner, namespace)
    ensures SameMember(s, WorldStep(s, l), namespace, id)
  {
    match l
    case Edit(_, _) =>
    case NodeFails(_, _, _, _) =>
    case Wake(_) =>
    case Create(_, _, _) =>
    case MarkDeleting(_) =>
    case Remove(_) =>
    case Tick(_) =>
  }

  lemma StepSameMembers(s: State, l: Label, owner: Id, namespace: string)
    requires Enabled(s, l) && Peaceful(s, l, owner, namespace)
    ensures SameMembers(s, Step(s, l), namespace)
  {
    if l.Work? { WorkSameMembers(s, l.choice, namespace); }
    else if OfWorld(l) { WorldSameMembers(s, l, owner, namespace); }
    else if OfStartup(l) { StartupSameMembers(s, l, namespace); }
  }

  /** Startup writes the status only, too. */
  lemma StartupKeepsIdentity(s: State, l: Label)
    requires OfStartup(l) && Enabled(s, l)
    ensures
      var e := StartupMove(s, l);
      e.write.Some? ==> e.id in s.policies && e.write.value == s.policies[e.id].(status := e.write.value.status)
  {
  }

  lemma StartupSameMembers(s: State, l: Label, namespace: string)
    requires OfStartup(l) && Enabled(s, l)
    ensures SameMembers(s, StartupStep(s, l), namespace)
  {
    StartupKeepsIdentity(s, l);
    ApplyStartupSameMembers(s, StartupMove(s, l), namespace);
  }

  lemma ApplyStartupSameMembers(s: State, e: StartupEffect, namespace: string)
    requires e.write.Some? ==> e.id in s.policies && e.write.value == s.policies[e.id].(status := e.write.value.status)
    ensures SameMembers(s, ApplyStartup(s, e), namespace)
  {
    forall id ensures SameMember(s, ApplyStartup(s, e), namespace, id) {
    }
    MemberByMember(s, ApplyStartup(s, e), namespace);
  }

  lemma SeniorTransfers(s: State, s': State, owner: Id, namespace: string)
    requires Senior(s, owner, namespace) && SameMembers(s, s', namespace)
    ensures Senior(s', owner, namespace) && s'.policies[owner].deleting == s.policies[owner].deleting
  {
    assert owner in Members(s, namespace);
    forall id <- s'.policies.Keys | id != owner && s'.policies[id].spec.targetNamespace == namespace
      ensures Younger(s'.policies[id], s'.policies[owner])
    {
      assert id in Members(s', namespace);
    }
  }

  lemma OwnerNotFailed(s: State, l: Label, owner: Id, namespace: string)
    requires Enabled(s, l) && Reigns(s, owner, namespace) && Peaceful(s, l, owner, namespace)
    ensures owner in Step(s, l).policies ==> !IsFailed(Step(s, l), owner)
  {
    if l.Work? {
      var e := Decide(Seen(s), Searched(s), l.choice);
      if s.worker.id == owner { FailureReports(Seen(s), Searched(s), l.choice); }
      ApplyNotFailed(s, e, owner);
    } else if OfWorld(l) {
      WorldNotFailed(s, l, owner);
    } else if OfStartup(l) {
      StartupPhase(s, l, owner);
    }
  }

  lemma ApplyNotFailed(s: State, e: Effect, id: Id)
    requires s.worker.Busy? && !IsFailed(s, id)
    requires s.worker.id == id && e.write.Some? ==> e.write.value.status.phase != Failed
    ensures !IsFailed(Apply(s, e), id)
  {
  }

  lemma WorldNotFailed(s: State, l: Label, id: Id)
    requires OfWorld(l) && Enabled(s, l) && !IsFailed(s, id)
    ensures !IsFailed(WorldStep(s, l), id)
  {
  }

  lemma StepKeepsReign(s: State, l: Label, owner: Id, namespace: string)
    requires Enabled(s, l) && Reigns(s, owner, namespace) && Peaceful(s, l, owner, namespace)
    ensures Reigns(Step(s, l), owner, namespace) && Members(Step(s, l), namespace) == Members(s, namespace)
  {
    StepSameMembers(s, l, owner, namespace);
    SeniorTransfers(s, Step(s, l), owner, namespace);
    StepNeverOusts(s, l, owner, namespace);
    OwnerNotFailed(s, l, owner, namespace);
  }

  /** While the oldest reigns it owns the namespace against every other policy of it. */
  lemma {:induction false} ReignIsOwnership(s: State, ls: seq<Label>, owner: Id, namespace: string, rival: Id)
    requires Runs(s, ls) && Reigns(s, owner, namespace) && PeacefulRun(s, ls, owner, namespace)
    requires rival in Members(s, namespace) && rival != owner
    ensures OwnsThroughout(s, ls, owner, rival) && CallsSucceed(s, ls, rival)
    ensures Reigns(Final(s, ls), owner, namespace) && Members(Final(s, ls), namespace) == Members(s, namespace)
    decreases |ls|
  {
    if |ls| > 0 {
      StepKeepsReign(s, ls[0], owner, namespace);
      ReignIsOwnership(Step(s, ls[0]), ls[1..], owner, namespace, rival);
    }
  }

  lemma {:induction false} ReignLasts(s: State, ls: seq<Label>, owner: Id, namespace: string)
    requires Runs(s, ls) && Reigns(s, owner, namespace) && PeacefulRun(s, ls, owner, namespace)
    ensures Reigns(Final(s, ls), owner, namespace) && Members(Final(s, ls), namespace) == Members(s, namespace)
    decreases |ls|
  {
    if |ls| > 0 {
      StepKeepsReign(s, ls[0], owner, namespace);
      ReignLasts(Step(s, ls[0]), ls[1..], owner, namespace);
    }
  }

  /** Once every policy of the namespace has been reconciled, in any order and with
      anything else going on, startup and restarts included: the oldest is not Failed,
      and every other policy is, unless startup has overwritten its phase after its
      last report. */
  lemma ExactlyOldestSurvives(s: State, ls: seq<Label>, owner: Id, namespace: string)
    requires s.worker.Resting? && Oldest(s.policies, Members(s, namespace), owner)
    requires !s.policies[owner].deleting && !IsFailed(s, owner)
    requires Runs(s, ls) && PeacefulRun(s, ls, owner, namespace) && Final(s, ls).worker.Resting?
    requires forall id <- Members(s, namespace) :: id != owner ==> Taken(ls, id)
    ensures Members(Final(s, ls), namespace) == Members(s, namespace)
    ensures forall id <- Members(s, namespace) ::
      IsFailed(Final(s, ls), id) <==> id != owner && !Undone(s, ls, id)
  {
    OldestReigns(s, owner, namespace);
    ReignLasts(s, ls, owner, namespace);
    forall id <- Members(s, namespace) | id != owner ensures IsFailed(Final(s, ls), id) <==> !Undone(s, ls, id) {
      ReignIsOwnership(s, ls, owner, namespace, id);
      YoungerFails(s, ls, owner, id);
    }
  }

  lemma OldestReigns(s: State, owner: Id, namespace: string)
    requires s.worker.Resting? && Oldest(s.policies, Members(s, namespace), owner)
    requires !s.policies[owner].deleting && !IsFailed(s, owner)
    ensures Reigns(s, owner, namespace)
    ensures forall id <- Members(s, namespace) :: id != owner ==> KeptOut(s, owner, id)
  {
    forall id <- s.policies.Keys | id != owner && s.policies[id].spec.targetNamespace == namespace
      ensures Younger(s.policies[id], s.policies[owner])
    {
      assert id in Members(s, namespace);
    }
  }
}
