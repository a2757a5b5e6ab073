/** How a pending resume can be completed without passing the priority gate, and
    a run in which that happens. */
module GateBypass {
  import opened Options
  import opened Policies
  import opened Operator
  import opened Wakeups
  import opened Stalls
  import opened Ordering

  /** Somewhere in the run the worker stands at `pc`. */
  predicate Visits(s: State, ls: seq<Label>, pc: Pc)
    requires Runs(s, ls)
    decreases |ls|
  {
    (s.worker.Busy? && s.worker.pc == pc) || (|ls| > 0 && Visits(Step(s, ls[0]), ls[1..], pc))
  }

  /** The reconcile goes past the gate. */
  predicate PassesGate(s: State, ls: seq<Label>)
    requires Runs(s, ls)
  {
    Visits(s, ls, DelayCheck)
  }

  /** The reconcile takes the branch for pre-conditions that are being checked. */
  predicate TakesChecking(s: State, ls: seq<Label>)
    requires Runs(s, ls)
  {
    Visits(s, ls, ResumeChecked)
  }

  predicate Checked(pc: Pc) {
    pc.ResumeChecked? || pc.WriteChecked?
  }

  /** Neither way has been chosen yet. */
  predicate Undecided(s: State) {
    s.worker.Busy? ==> !PastGate(s.worker.pc) && !Checked(s.worker.pc)
  }

  /** Once past the gate, or in the branch of the checks, a reconcile stays there. */
  lemma DecideWays(v: View, q: Search, c: Choice)
    ensures
      var next := Decide(v, q, c).next;
      && (PastGate(v.pc) ==> !next.Reload? && (next.Go? ==> PastGate(next.pc)))
      && (Checked(v.pc) ==> !next.Reload? && (next.Go? ==> Checked(next.pc)))
      && (!PastGate(v.pc) && !Checked(v.pc) ==>
            && (next.Reload? ==> !PastGate(next.pc) && !Checked(next.pc))
            && (next.Go? && PastGate(next.pc) ==> next.pc.DelayCheck?)
            && (next.Go? && Checked(next.pc) ==> next.pc.ResumeChecked?))
  {
  }

  lemma StepWays(s: State, l: Label)
    requires Enabled(s, l) && !l.Take?
    ensures
      var s' := Step(s, l);
      s'.worker.Busy? ==>
        && s.worker.Busy?
        && (PastGate(s.worker.pc) ==> PastGate(s'.worker.pc))
        && (Checked(s.worker.pc) ==> Checked(s'.worker.pc))
        && (Undecided(s) ==>
              && (PastGate(s'.worker.pc) ==> s'.worker.pc.DelayCheck?)
              && (Checked(s'.worker.pc) ==> s'.worker.pc.ResumeChecked?))
  {
    if l.Work? { DecideWays(Seen(s), Searched(s), l.choice); } else { OutsideFrame(s, l); }
  }

  /** A reconcile that has gone one way does not visit the other. */
  lemma {:induction false} WayKept(s: State, ls: seq<Label>)
    requires Runs(s, ls) && NoneTaken(ls) && !Undecided(s)
    ensures
      var t := Final(s, ls);
      && (PastGate(s.worker.pc) ==> !TakesChecking(s, ls) && (t.worker.Busy? ==> PastGate(t.worker.pc)))
      && (Checked(s.worker.pc) ==> !PassesGate(s, ls) && (t.worker.Busy? ==> Checked(t.worker.pc)))
    decreases |ls|
  {
    if |ls| > 0 {
      var u := Step(s, ls[0]);
      StepWays(s, ls[0]);
      if u.worker.Busy? { WayKept(u, ls[1..]); } else { RestsOn(u, ls[1..]); }
    }
  }

  /** Without a new request the worker goes on resting. */
  lemma {:induction false} RestsOn(s: State, ls: seq<Label>)
    requires Runs(s, ls) && NoneTaken(ls) && s.worker.Resting?
    ensures Final(s, ls).worker.Resting? && !PassesGate(s, ls) && !TakesChecking(s, ls)
    decreases |ls|
  {
    if |ls| > 0 {
      OutsideFrame(s, ls[0]);
      RestsOn(Step(s, ls[0]), ls[1..]);
    }
  }

  lemma {:induction false} WayTaken(s: State, ls: seq<Label>)
    requires Runs(s, ls) && NoneTaken(ls) && Undecided(s) && Final(s, ls).worker.Busy?
    ensures
      var pc := Final(s, ls).worker.pc;
      && (PastGate(pc) ==> PassesGate(s, ls) && !TakesChecking(s, ls))
      && (Checked(pc) ==> TakesChecking(s, ls) && !PassesGate(s, ls))
    decreases |ls|
  {
    if |ls| > 0 {
      var u := Step(s, ls[0]);
      StepWays(s, ls[0]);
      if u.worker.Resting? { RestsOn(u, ls[1..]); }
      else if Undecided(u) { WayTaken(u, ls[1..]); }
      else { WayKept(u, ls[1..]); }
    }
  }

  /** The reconcile begun by `take` in s goes through `ls` to t, where `l` completes a
      pending resume. */
  predicate CompletingReconcile(s: State, take: Label, ls: seq<Label>, t: State, l: Label) {
    && take.Take? && Enabled(s, take) && NoneTaken(ls) && Reaches(Step(s, take), ls, t)
    && Enabled(t, l) && Completes(t, l)
  }

  lemma WayOfCompletion(s: State, take: Label, ls: seq<Label>, t: State, l: Label)
    requires Reached(s) && CompletingReconcile(s, take, ls, t, l)
    ensures
      if TakesChecking(Step(s, take), ls) then !PassesGate(Step(s, take), ls) && t.worker.pc.WriteChecked?
      else PassesGate(Step(s, take), ls) && t.startupComplete
  {
    ReachedInvariant(s, take, ls, t);
    TwoWaysToComplete(t, l.choice);
    WayTaken(Step(s, take), ls);
  }

  /** In every run a reconcile that completes a pending resume goes around the gate
      if and only if it takes the branch for pre-conditions that are being checked. */
  lemma BypassIff(s: State, take: Label, ls: seq<Label>, t: State, l: Label)
    requires Reached(s) && CompletingReconcile(s, take, ls, t, l)
    ensures !PassesGate(Step(s, take), ls) <==> TakesChecking(Step(s, take), ls)
  {
    WayOfCompletion(s, take, ls, t, l);
  }

  /** A resume that does not go around the gate is completed after startup only. */
  lemma NotBeforeStartup(s: State, take: Label, ls: seq<Label>, t: State, l: Label)
    requires Reached(s) && CompletingReconcile(s, take, ls, t, l)
    ensures !TakesChecking(Step(s, take), ls) ==> t.startupComplete
  {
    WayOfCompletion(s, take, ls, t, l);
  }

  /** A resume that goes around the gate was flagged while its reconcile was under way. */
  lemma BypassNeedsNewFlag(s: State, take: Label, ls: seq<Label>, t: State, l: Label)
    requires Reached(s) && CompletingReconcile(s, take, ls, t, l)
    ensures TakesChecking(Step(s, take), ls) ==> FlaggedDuring(Step(s, take), ls, take.id)
  {
    WayOfCompletion(s, take, ls, t, l);
    if TakesChecking(Step(s, take), ls) { OverlooksNewFlag(s, take, ls); }
  }

  lemma OverlooksNewFlag(s: State, take: Label, ls: seq<Label>)
    requires take.Take? && Enabled(s, take) && Runs(Step(s, take), ls) && NoneTaken(ls)
    requires
      var t := Final(Step(s, take), ls);
      t.worker.Busy? && t.worker.pc.WriteChecked? && Pending(t, t.worker.id)
    ensures FlaggedDuring(Step(s, take), ls, take.id)
  {
    if !FlaggedDuring(Step(s, take), ls, take.id) { RunKnowsFlag(Step(s, take), ls, take.id); }
  }

  /** Some step of the run flags `id`, which was not pending before. */
  predicate FlaggedDuring(s: State, ls: seq<Label>, id: Id)
    requires Runs(s, ls)
    decreases |ls|
  {
    |ls| > 0 && ((!Pending(s, id) && Pending(Step(s, ls[0]), id)) || FlaggedDuring(Step(s, ls[0]), ls[1..], id))
  }

  lemma {:induction false} RunKnowsFlag(s: State, ls: seq<Label>, id: Id)
    requires Runs(s, ls) && NoneTaken(ls) && !FlaggedDuring(s, ls, id)
    requires s.worker.Busy? ==> s.worker.id == id && (Pending(s, id) ==> KnowsFlag(s.worker.pc, s.worker.snap))
    ensures
      var t := Final(s, ls);
      t.worker.Busy? ==> t.worker.id == id && (Pending(t, id) ==> KnowsFlag(t.worker.pc, t.worker.snap))
    decreases |ls|
  {
    if |ls| > 0 {
      StepKnowsFlag(s, ls[0], id);
      RunKnowsFlag(Step(s, ls[0]), ls[1..], id);
    }
  }

  lemma StepKnowsFlag(s: State, l: Label, id: Id)
    requires Enabled(s, l) && !l.Take? && (Pending(Step(s, l), id) ==> Pending(s, id))
    requires s.worker.Busy? ==> s.worker.id == id && (Pending(s, id) ==> KnowsFlag(s.worker.pc, s.worker.snap))
    ensures
      var s' := Step(s, l);
      s'.worker.Busy? ==> s'.worker.id == id && (Pending(s', id) ==> KnowsFlag(s'.worker.pc, s'.worker.snap))
  {
    if l.Work? {
      if Pending(s, id) { WorkKnowsFlag(s, l.choice); }
    } else {
      OutsideFrame(s, l);
    }
  }

  // ------------------------------------------------ a run that goes around it

  /** Pre-conditions left over from a manual Resume, and an id that is not handled yet. */
  const CHECKED := Policy(
    "a", 0, false, Spec("ns-a", Resume, "op-2", StartupResume, 60, 50, 0, false, true, 5, false),
    Status(Resuming, "op-1", false, None, false, None, None, None, "", true))

  const URGENT := Policy(
    "b", 0, false, Spec("ns-b", Freeze, "op-1", StartupResume, 0, 1, 0, false, false, 5, false),
    Status(Frozen, "op-1", false, None, false, None, None, None, "", false))

  const COPIES := map["a" := CHECKED, "b" := URGENT]

  const BYPASS_0 := Boot(COPIES, 0)
  const BYPASS_1 := BYPASS_0.(queued := {}, worker := Busy("a", CheckConflict, CHECKED, false))
  const BYPASS_2 := At(BYPASS_1, WriteChecked)
  const BYPASS_3 := BYPASS_2.(startup := Flagging(COPIES, ["b", "a"]))
  const BYPASS_4 := BYPASS_3.(
    startup := Flagging(COPIES, []), queued := {"a", "b"},
    policies := map["a" := StartupPending(CHECKED, 0), "b" := StartupPending(URGENT, 0)])

  lemma BypassTake()
    ensures Reachable(BYPASS_0, BYPASS_1)
  {
    assert BYPASS_0.queued == {"a"};
    assert Step(BYPASS_0, Take("a", true, 0)) == BYPASS_1;
    ReachableOne(BYPASS_0, Take("a", true, 0));
  }

  lemma BypassWork()
    ensures Reachable(BYPASS_1, BYPASS_2)
  {
    assert !Conflicted(COPIES, "a", CHECKED);
    ReachableMoves(BYPASS_1, [CheckConflict, FreezeBranch, ResumeBranch, FailureBranch]);
    BypassFailure();
    ReachableOn(BYPASS_1, At(BYPASS_1, FailureBranch), At(BYPASS_1, NamespaceCheck));
    BypassChecks();
    ReachableOn(BYPASS_1, At(BYPASS_1, NamespaceCheck), BYPASS_2);
  }

  lemma BypassFailure()
    ensures Reachable(At(BYPASS_1, FailureBranch), At(BYPASS_1, NamespaceCheck))
  {
    ReachableMoves(BYPASS_1, [FailureBranch, Cleanup, SkipCheck, NamespaceCheck]);
  }

  lemma BypassChecks()
    ensures Reachable(At(BYPASS_1, NamespaceCheck), BYPASS_2)
  {
    ReachableMoves(BYPASS_1, [NamespaceCheck, CheckingBranch, ResumeChecked, WriteChecked]);
  }

  lemma BypassList()
    ensures Reachable(BYPASS_2, BYPASS_3)
  {
    assert Select(COPIES, StartupFreeze) == {};
    ReachableTwo(BYPASS_2, StartupList(true), StartupGroupsDone);
    BypassScan(BYPASS_2.(startup := Scanning(COPIES)));
    ReachableOn(BYPASS_2, BYPASS_2.(startup := Scanning(COPIES)), BYPASS_3);
  }

  lemma BypassScan(s: State)
    requires s.startup == Scanning(COPIES)
    ensures Reachable(s, s.(startup := Flagging(COPIES, ["b", "a"])))
  {
    assert Select(COPIES, StartupResume) == {"a", "b"};
    ReachableOne(s, StartupScan(None, [], ["b", "a"]));
  }

  lemma BypassFlag()
    ensures Reachable(BYPASS_3, BYPASS_4)
  {
    var l := StartupFlagOne(true, 0);
    var u := BYPASS_3.(startup := Flagging(COPIES, ["a"]), queued := {"b"},
                       policies := COPIES["b" := StartupPending(URGENT, 0)]);
    assert Step(BYPASS_3, l) == u;
    BypassSecondFlag(u);
    ReachableTwo(BYPASS_3, l, l);
  }

  lemma BypassSecondFlag(u: State)
    requires u.startup == Flagging(COPIES, ["a"]) && u.queued == {"b"} && u.clock == 0
    requires u.policies == map["a" := CHECKED, "b" := StartupPending(URGENT, 0)]
    ensures
      var l := StartupFlagOne(true, 0);
      Enabled(u, l) && Step(u, l) == u.(startup := Flagging(COPIES, []), queued := {"a", "b"},
        policies := map["a" := StartupPending(CHECKED, 0), "b" := StartupPending(URGENT, 0)])
  {
    var e := StartupEffect(Flagging(COPIES, []), "a", Some(StartupPending(CHECKED, 0)));
    assert u.startup.flags[1..] == [] && u.queued + {"a"} == {"a", "b"};
    assert u.policies["a" := StartupPending(CHECKED, 0)] ==
      map["a" := StartupPending(CHECKED, 0), "b" := StartupPending(URGENT, 0)];
    assert StartupMove(u, StartupFlagOne(true, 0)) == e;
    assert UpdateTriggers(CHECKED, StartupPending(CHECKED, 0));
  }

  /** The branch of the checks completes whatever resume is pending at its end. */
  lemma CheckedCompletes(s: State)
    requires s.worker.Busy? && s.worker.pc.WriteChecked? && Pending(s, s.worker.id)
    ensures Enabled(s, Work(SURE)) && Completes(s, Work(SURE))
  {
    var e := DecideManual(Seen(s), SURE);
    assert e == Decide(Seen(s), Searched(s), SURE);
    EndsIn(s, e);
  }

  lemma EndsIn(s: State, e: Effect)
    requires s.worker.Busy? && e.next.Exit? && e.write.Some? && s.worker.id in s.policies
    ensures
      var s' := Apply(s, e);
      s'.worker.Resting? && s.worker.id in s'.policies && s'.policies[s.worker.id] == e.write.value
  {
  }

  lemma BypassReaches()
    ensures Reachable(BYPASS_0, BYPASS_4)
  {
    BypassTake();
    BypassWork();
    ReachableOn(BYPASS_0, BYPASS_1, BYPASS_2);
    BypassList();
    ReachableOn(BYPASS_0, BYPASS_2, BYPASS_3);
    BypassFlag();
    ReachableOn(BYPASS_0, BYPASS_3, BYPASS_4);
  }

  /** From a start state: a pending resume of priority 50 is completed while one of
      priority 1 is pending and startup is not complete. */
  lemma BypassReachable()
    ensures Initial(BYPASS_0) && Reachable(BYPASS_0, BYPASS_4)
    ensures Enabled(BYPASS_4, Work(SURE)) && Completes(BYPASS_4, Work(SURE)) && !BYPASS_4.startupComplete
    ensures Pending(BYPASS_4, "b") && Priority(BYPASS_4, "b") < Priority(BYPASS_4, BYPASS_4.worker.id)
  {
    BypassReaches();
    CheckedCompletes(BYPASS_4);
  }
}
