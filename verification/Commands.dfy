/** When a manual command is carried out, from the moment its policy is taken up, and
    a run in which a command after a completed resume is not. */
module Commands {
  import opened Options
  import opened Policies
  import opened Operator
  import opened Operations
  import opened Wakeups
  import opened Ordering
  import opened PreconditionCancel

  /** The reconcile has not decided yet what to do with a pending resume. */
  predicate Entering(pc: Pc) {
    FreezePart(pc) || pc.ResumeBranch? || pc.CancelByFailure? || pc.RefetchByFailure?
  }

  /** A pending resume lets the command through only after startup. */
  predicate LetThrough(p: Policy, startupComplete: bool) {
    CarriesOut(p) && (p.status.pendingResume ==> startupComplete)
  }

  /** As `Heading`, for the points before. */
  predicate Entry(v: View, conflicted: bool, op: string, n: nat) {
    && v.latest.Some? && v.latest.value.spec.operationId == op && UnhandledOperation(v.latest.value)
    && if v.pc.CheckConflict? then
         v.latest == Some(v.snap) && n == Count(!conflicted && LetThrough(v.snap, v.startupComplete))
       else if v.pc.FreezeBranch? || v.pc.CancelFreeze? || v.pc.ResumeBranch? then
         v.latest == Some(v.snap) && n == Count(LetThrough(v.snap, v.startupComplete))
       else if v.pc.RefetchFreeze? then n == Count(LetThrough(v.latest.value, v.startupComplete))
       else if v.pc.CancelByFailure? || v.pc.RefetchByFailure? then
         && n == 0 && UnhandledFailure(v.latest.value)
         && (v.pc.RefetchByFailure? ==> !v.latest.value.status.pendingResume)
       else n == 0 && v.pc.WriteConflict?
  }

  predicate Destined(v: View, conflicted: bool, op: string, n: nat) {
    if Entering(v.pc) then Entry(v, conflicted, op, n) else Heading(v, op, n)
  }

  lemma DecideEnters(v: View, q: Search, c: Choice, op: string, n: nat)
    requires op != "" && Entering(v.pc) && Entry(v, q.conflicted, op, n) && c.ok && c.verdict.Pass?
    ensures
      var e := Decide(v, q, c);
      var latest := if e.write.Some? then e.write else v.latest;
      && (e.next.Go? ==> !e.next.pc.CheckConflict? && Destined(v.(pc := e.next.pc, latest := latest), false, op, n))
      && (e.next.Reload? ==>
            && e.write.None? && !e.next.pc.CheckConflict?
            && Destined(v.(pc := e.next.pc, snap := latest.value), false, op, n))
      && (e.next.Exit? ==> n == 0)
  {
  }

  predicate DestinedFor(s: State, id: Id, op: string, n: nat) {
    if s.worker.Resting? then n == 0
    else
      && s.worker.id == id && s.worker.snap.spec.operationId == op
      && Destined(Seen(s), Searched(s).conflicted, op, n)
  }

  /** Until the reconcile has passed these points, nobody changes the answer of the
      duplicate search, or completes startup. */
  predicate Steady(s: State, l: Label, id: Id)
    requires Enabled(s, l)
  {
    !l.Work? && s.worker.Busy? ==>
      && (Entering(s.worker.pc) ==> Step(s, l).startupComplete == s.startupComplete)
      && (s.worker.pc.CheckConflict? ==>
            (Conflicted(Step(s, l).policies, id, s.worker.snap) <==> Conflicted(s.policies, id, s.worker.snap)))
  }

  predicate SteadyRun(s: State, ls: seq<Label>, id: Id)
    requires Runs(s, ls)
    decreases |ls|
  {
    |ls| > 0 ==> Steady(s, ls[0], id) && SteadyRun(Step(s, ls[0]), ls[1..], id)
  }

  /** The conflict is looked up at the first point only. */
  lemma DestinedAnyway(v: View, a: bool, b: bool, op: string, n: nat)
    requires Destined(v, a, op, n) && !v.pc.CheckConflict?
    ensures Destined(v, b, op, n)
  {
  }

  lemma ApplyDestined(s: State, e: Effect, op: string, n: nat)
    requires s.worker.Busy? && s.worker.id in s.policies && s.worker.snap.spec.operationId == op
    requires e.next.Reload? ==> e.write.None? && s.policies[s.worker.id].spec.operationId == op
    requires
      var v := Seen(s);
      var latest := if e.write.Some? then e.write else v.latest;
      && (e.next.Go? ==> !e.next.pc.CheckConflict? && Destined(v.(pc := e.next.pc, latest := latest), false, op, n))
      && (e.next.Reload? ==>
            !e.next.pc.CheckConflict? && Destined(v.(pc := e.next.pc, snap := latest.value), false, op, n))
      && (e.next.Exit? ==> n == 0)
    ensures DestinedFor(Apply(s, e), s.worker.id, op, n)
  {
    var s' := Apply(s, e);
    ApplySeen(s, e);
    if s'.worker.Busy? { DestinedAnyway(Seen(s'), false, Searched(s').conflicted, op, n); }
  }

  lemma WorkDestined(s: State, c: Choice, id: Id, op: string, n: nat)
    requires op != "" && Enabled(s, Work(c)) && DestinedFor(s, id, op, n) && c.ok && c.verdict.Pass?
    ensures
      var passed := Count(Passes(s, Work(c), id, op));
      n >= passed && DestinedFor(Step(s, Work(c)), id, op, n - passed)
  {
    var v, q := Seen(s), Searched(s);
    if Entering(v.pc) {
      DecideEnters(v, q, c, op, n);
      ApplyDestined(s, Decide(v, q, c), op, n);
    } else {
      WorkHeadsOn(s, c, id, op, n);
    }
  }

  lemma WorkHeadsOn(s: State, c: Choice, id: Id, op: string, n: nat)
    requires op != "" && Enabled(s, Work(c)) && HeadingFor(s, id, op, n) && !Entering(s.worker.pc)
    requires c.ok && c.verdict.Pass?
    ensures
      var passed := Count(Passes(s, Work(c), id, op));
      n >= passed && DestinedFor(Step(s, Work(c)), id, op, n - passed)
  {
    WorkHeads(s, c, id, op, n);
    NoReturn(Seen(s), Searched(s), c, op, n);
  }

  /** A reconcile does not come back to its first points. */
  lemma NoReturn(v: View, q: Search, c: Choice, op: string, n: nat)
    requires Heading(v, op, n) && !Entering(v.pc)
    ensures
      var next := Decide(v, q, c).next;
      next.Go? || next.Reload? ==> !Entering(next.pc)
  {
  }

  lemma StepDestined(s: State, l: Label, id: Id, op: string, n: nat)
    requires op != "" && Enabled(s, l) && Favourable(s, l, id) && Steady(s, l, id) && DestinedFor(s, id, op, n)
    ensures
      var passed := Count(Passes(s, l, id, op));
      n >= passed && DestinedFor(Step(s, l), id, op, n - passed)
  {
    if l.Work? { WorkDestined(s, l.choice, id, op, n); } else { OutsideDestined(s, l, id, op, n); }
  }

  lemma OutsideDestined(s: State, l: Label, id: Id, op: string, n: nat)
    requires Enabled(s, l) && !l.Work? && Favourable(s, l, id) && Steady(s, l, id) && DestinedFor(s, id, op, n)
    ensures DestinedFor(Step(s, l), id, op, n)
  {
    OutsideKeepsWorker(s, l);
  }

  lemma {:induction false} PassesAsDestined(s: State, ls: seq<Label>, id: Id, op: string, n: nat)
    requires op != "" && Runs(s, ls) && FavourableRun(s, ls, id) && SteadyRun(s, ls, id) && DestinedFor(s, id, op, n)
    ensures Final(s, ls).worker.Resting? ==> CountPasses(s, ls, id, op) == n
    decreases |ls|
  {
    if |ls| > 0 {
      StepDestined(s, ls[0], id, op, n);
      PassesAsDestined(Step(s, ls[0]), ls[1..], id, op, n - Count(Passes(s, ls[0], id, op)));
    }
  }

  /** For every policy with an unhandled command, and every favourable run from the
      moment it is taken up to the end of the reconcile: the command is carried out,
      and once, if and only if no pre-conditions are being checked, no node failure
      is unhandled, no older policy owns the namespace, and a pending resume does not
      wait for startup. */
  lemma CarriedOutIff(s: State, ls: seq<Label>, id: Id, op: string)
    requires TakenUp(s, id) && Asks(s, id, op) && UnhandledOperation(s.policies[id])
    requires Runs(s, ls) && FavourableRun(s, ls, id) && SteadyRun(s, ls, id) && Final(s, ls).worker.Resting?
    ensures
      var p := s.policies[id];
      CountPasses(s, ls, id, op) == Count(
        && !p.status.checking && !UnhandledFailure(p) && !Conflicted(s.policies, id, p)
        && (p.status.pendingResume ==> s.startupComplete))
  {
    var p := s.policies[id];
    PassesAsDestined(s, ls, id, op, Count(!Conflicted(s.policies, id, p) && LetThrough(p, s.startupComplete)));
  }

  // ------------------------------------------ checks that outlive their resume

  /** A resume that goes through the gate is completed without ending the checks: if
      they were under way they still are, with nothing pending any more. */
  lemma ResumeLeavesChecking(s: State, c: Choice)
    requires Enabled(s, Work(c)) && s.worker.pc.WriteResumed? && Completes(s, Work(c))
    ensures
      var s', id := Step(s, Work(c)), s.worker.id;
      && id in s'.policies && !s'.policies[id].status.pendingResume
      && s'.policies[id].status.checking == s.policies[id].status.checking
  {
    var e := DecideResume(Seen(s), Searched(s), c);
    assert e == Decide(Seen(s), Searched(s), c);
    ApplySeen(s, e);
  }

  /** A recovery resume whose pre-conditions had to be waited for. */
  const WAITED := Policy(
    "a", 0, false, Spec("ns", Resume, "op-1", StartupIgnore, 0, 1, 0, true, true, 5, false),
    Status(Resuming, "op-1", true, Some(0), false, None, None, None, "", true))

  const DONE := WAITED.(status := WAITED.status.(phase := Resumed, pendingResume := false))

  const FREEZE_SPEC := WAITED.spec.(action := Freeze, operationId := "op-2")

  const LATE_0 := Boot(map["a" := WAITED], 0)
  const LATE_1 := LATE_0.(startup := Finished, startupComplete := true)
  const LATE_2 := LATE_1.(queued := {}, worker := Busy("a", WriteResumed, WAITED, true))
  const LATE_3 := LATE_1.(queued := {}, policies := map["a" := DONE], ended := map["a" := Normal])
  const LATE_4 := LATE_3.(
    policies := map["a" := DONE.(spec := FREEZE_SPEC)], ended := map[],
    worker := Busy("a", FailureBranch, DONE.(spec := FREEZE_SPEC), true))

  lemma LateStartup()
    ensures Reachable(LATE_0, LATE_1)
  {
    StartupIdles(map["a" := WAITED], LATE_0);
  }

  lemma LateResume()
    ensures Reachable(LATE_1, LATE_2)
  {
    var t := At(LATE_2, CheckConflict);
    assert LATE_1.queued == {"a"};
    assert Step(LATE_1, Take("a", true, 0)) == t;
    ReachableOne(LATE_1, Take("a", true, 0));
    assert !Conflicted(t.policies, "a", WAITED) && !Blocked(t.policies, "a", WAITED);
    ReachableMoves(t, [CheckConflict, FreezeBranch, ResumeBranch, Gate]);
    LateGate();
    ReachableOn(LATE_1, t, At(LATE_2, Gate));
    ReachableOn(LATE_1, At(LATE_2, Gate), LATE_2);
  }

  lemma LateGate()
    ensures Reachable(At(LATE_2, Gate), LATE_2)
  {
    assert !Blocked(LATE_2.policies, "a", WAITED);
    ReachableMoves(LATE_2, [Gate, DelayCheck, PreCheck, ResumeWorkloads, WriteResumed]);
  }

  lemma LateWrite()
    ensures Reachable(LATE_2, LATE_3)
  {
    var e := WriteThen(DONE, Exit(Done, Normal));
    assert DecideResume(Seen(LATE_2), Searched(LATE_2), SURE) == e;
    assert !UpdateTriggers(WAITED, DONE);
    assert Step(LATE_2, Work(SURE)) == Apply(LATE_2, e) == LATE_3;
    ReachableOne(LATE_2, Work(SURE));
  }

  lemma LateFreeze()
    ensures Reachable(LATE_3, LATE_4)
  {
    var t := At(LATE_4, CheckConflict);
    ReachableTwo(LATE_3, Edit("a", FREEZE_SPEC), Take("a", true, 0));
    assert Step(Step(LATE_3, Edit("a", FREEZE_SPEC)), Take("a", true, 0)) == t;
    assert !Conflicted(t.policies, "a", t.worker.snap);
    ReachableMoves(t, [CheckConflict, FreezeBranch, ResumeBranch, FailureBranch]);
    ReachableOn(LATE_3, t, LATE_4);
  }

  lemma LateReaches()
    ensures Reachable(LATE_0, LATE_4)
  {
    LateStartup();
    LateResume();
    ReachableOn(LATE_0, LATE_1, LATE_2);
    LateWrite();
    ReachableOn(LATE_0, LATE_2, LATE_3);
    LateFreeze();
    ReachableOn(LATE_0, LATE_3, LATE_4);
  }

  /** From a start state: a resume is completed, a Freeze is asked for afterwards, and
      its reconcile ends with the namespace resumed, the command unhandled, and the
      policy neither queued nor on a timer. */
  lemma FreezeAfterResumeLost()
    ensures Initial(LATE_0)
    ensures exists t :: Reachable(LATE_0, t) && EndsResumed(t, "a") && "a" !in t.queued && "a" !in t.timers
  {
    LateReaches();
    var p := DONE.(spec := FREEZE_SPEC);
    var ls := RunsToEnd(LATE_4, "a", p);
    RunResumes(LATE_4, ls, "a", p);
    assert Reaches(LATE_4, ls, Final(LATE_4, ls));
    ReachableOn(LATE_0, LATE_4, Final(LATE_4, ls));
  }
}
