/** What happens to a pending resume that nothing will look at again, and how
    the operator gets there. */
module Stalls {
  import opened Options
  import opened Policies
  import opened Operator
  import opened Wakeups

  /** Steps the operator takes by itself once startup is over. */
  predicate Internal(l: Label) {
    l.Work? || l.Take? || l.Fire? || l.Tick?
  }

  predicate AllInternal(ls: seq<Label>) {
    forall l <- ls :: Internal(l)
  }

  /** The worker has passed the priority gate for its policy. */
  predicate PastGate(pc: Pc) {
    pc.DelayCheck? || pc.ClearResume? || pc.PreCheck? || pc.WritePreWait? || pc.ResumeWorkloads? || pc.WriteResumed?
  }

  /** `id` is stuck, and the worker is not past the gate with a policy of lower priority. */
  predicate Holds(s: State, id: Id) {
    && Stuck(s, id)
    && (s.worker.Busy? && PastGate(s.worker.pc) ==> !HoldsBack(s.policies[id], s.worker.snap))
  }

  lemma DecideAtGate(v: View, q: Search, c: Choice)
    requires !PastGate(v.pc)
    ensures
      var e := Decide(v, q, c);
      && (e.next.Go? && PastGate(e.next.pc) ==> v.pc.Gate? && !q.blocked)
      && (e.next.Reload? ==> !PastGate(e.next.pc))
  {
  }

  lemma DecidePastGate(v: View, q: Search, c: Choice)
    requires PastGate(v.pc)
    ensures !Decide(v, q, c).next.Reload?
  {
  }

  lemma ApplyKeepsStuck(s: State, e: Effect, id: Id)
    requires s.worker.Busy? && Stuck(s, id)
    ensures Stuck(Apply(s, e), id) && Apply(s, e).policies[id] == s.policies[id]
  {
  }

  lemma WorkHolds(s: State, c: Choice, id: Id)
    requires s.worker.Busy? && Holds(s, id)
    ensures Holds(WorkStep(s, c), id)
  {
    var v, q := Seen(s), Searched(s);
    var e := Decide(v, q, c);
    ApplyKeepsStuck(s, e, id);
    if PastGate(s.worker.pc) {
      DecidePastGate(v, q, c);
    } else {
      DecideAtGate(v, q, c);
      if HoldsBack(s.policies[id], s.worker.snap) {
        assert q.blocked;
      }
    }
  }

  lemma StepHolds(s: State, l: Label, id: Id)
    requires Enabled(s, l) && Internal(l) && Holds(s, id)
    ensures Holds(Step(s, l), id)
  {
    if l.Work? { WorkHolds(s, l.choice, id); }
  }

  /** A stuck resume stays stuck in everything the operator does by itself, and
      no policy of lower priority gets through the gate: the whole chain stops. */
  lemma {:induction false} StuckForever(s: State, ls: seq<Label>, id: Id)
    requires Runs(s, ls) && AllInternal(ls) && Holds(s, id)
    ensures Holds(Final(s, ls), id)
    decreases |ls|
  {
    if |ls| > 0 {
      StepHolds(s, ls[0], id);
      StuckForever(Step(s, ls[0]), ls[1..], id);
    }
  }

  /** Exactly when the exit for a duplicate policy leaves a resume stuck. */
  lemma ConflictLosesWakeupIff(s: State, c: Choice)
    requires s.worker.Busy? && s.worker.pc.WriteConflict? && c.ok && s.worker.id in s.policies
    ensures
      var id := s.worker.id;
      Stuck(WorkStep(s, c), id) <==>
        s.policies[id].status.pendingResume && id !in s.queued && id !in s.timers
  {
    var id, latest := s.worker.id, s.policies[s.worker.id];
    var e := DecideFreeze(Seen(s), Searched(s), c);
    assert !UpdateTriggers(latest, e.write.value);
    assert WorkStep(s, c) == Apply(s, e);
  }

  // ------------------------------------------- a run that loses a wake-up

  const LEFTOVER := Status(NoPhase, "op-1", true, Some(0), false, None, None, None, "", false)

  /** Startup Freeze with a delay, and a resume flag left over from an earlier process. */
  const FROZEN_AT_START := Policy(
    "a", 0, false, Spec("ns", Freeze, "op-1", StartupFreeze, 0, 1, 60, false, false, 5, false), LEFTOVER)

  const BOTH_FLAGS := StartupFrozen(FROZEN_AT_START, FROZEN_AT_START, 0)

  const STALL_0 := Boot(map["a" := FROZEN_AT_START], 0)
  const STALL_1 := STALL_0.(
    policies := map["a" := BOTH_FLAGS], startup := FreezingGroups(map["a" := FROZEN_AT_START], {}))
  const STALL_2 := STALL_1.(clock := 60, queued := {}, worker := Busy("a", CheckConflict, BOTH_FLAGS, false))
  const STALL_3 := STALL_2.(worker := Busy("a", WriteFrozen, BOTH_FLAGS, false))

  lemma StallStartup()
    ensures Reachable(STALL_0, STALL_1)
  {
    var l, m := StartupList(true), StartupFreezeOne("a", true, 0);
    assert STALL_0.queued == {"a"};
    assert Step(STALL_0, l).startup.freezes == {"a"};
    var t := Step(Step(STALL_0, l), m);
    assert t.policies == STALL_1.policies && t.queued == {"a"} && t.startup.freezes == {};
    ReachableTwo(STALL_0, l, m);
  }

  lemma StallTake()
    ensures Reachable(STALL_1, STALL_2)
  {
    assert STALL_0.queued == {"a"};
    assert Step(Step(STALL_1, Tick(60)), Take("a", true, 0)) == STALL_2;
    ReachableTwo(STALL_1, Tick(60), Take("a", true, 0));
  }

  lemma StallWait()
    ensures Reachable(STALL_2, STALL_3)
  {
    assert !Conflicted(STALL_2.policies, "a", BOTH_FLAGS);
    assert Step(Step(STALL_2, Work(SURE)), Work(SURE)) == STALL_3;
    ReachableTwo(STALL_2, Work(SURE), Work(SURE));
  }

  lemma StallEnd()
    ensures Enabled(STALL_3, Work(SURE)) && Stuck(Step(STALL_3, Work(SURE)), "a")
  {
    FreezeLosesWakeupIff(STALL_3, SURE);
  }

  lemma StallReaches()
    ensures Reachable(STALL_0, STALL_3)
  {
    StallStartup();
    StallTake();
    ReachableOn(STALL_0, STALL_1, STALL_2);
    StallWait();
    ReachableOn(STALL_0, STALL_2, STALL_3);
  }

  /** The startup freeze is put next to the old resume flag; when its delay is
      over the freeze is carried out, Reconcile returns, and the resume is stuck. */
  lemma LostWakeupReachable()
    ensures Initial(STALL_0)
    ensures exists t :: Reachable(STALL_0, t) && Stuck(t, "a")
  {
    StallReaches();
    StallEnd();
    ReachableOne(STALL_3, Work(SURE));
    ReachableOn(STALL_0, STALL_3, Step(STALL_3, Work(SURE)));
  }
}
