/** What becomes of a manual command while pre-conditions are being checked.  Any
    other command is carried out by the reconcile that takes it up.  With the checks
    under way it is not: whatever the command is, the namespace is resumed and the
    command stays unhandled. */
module PreconditionCancel {
  import opened Options
  import opened Policies
  import opened Operator
  import opened Operations

  /** The worker is about to cancel the pending resume of `id`, whose policy asks for `op`. */
  predicate AboutToCancel(s: State, id: Id, op: string) {
    s.worker.Busy? && s.worker.id == id && s.worker.pc.CancelByManual? && Asks(s, id, op) && op != ""
  }

  // ------------------------------------------------- in every continuation

  /** The reconcile of `id` is on a way that does not lead to the manual operation.
      Its copy may be outdated until it is fetched again after a cancellation. */
  predicate Diverted(s: State, id: Id) {
    s.worker.Busy? && s.worker.id == id ==>
      && !s.worker.pc.Processing? && !s.worker.pc.Manual?
      && (id in s.policies ==> s.policies[id].status.checking)
      && (s.worker.snap.status.checking || s.worker.pc.CancelByManual? || s.worker.pc.RefetchByManual?)
  }

  predicate EffectDiverts(v: View, e: Effect) {
    && (!e.next.Exit? && e.write.Some? && v.latest.Some? ==> e.write.value.status.checking)
    && (e.next.Reload? ==>
          v.latest.Some? && e.write.None? && !e.next.pc.Processing? && !e.next.pc.Manual?)
    && (e.next.Go? ==>
          && !e.next.pc.Processing? && !e.next.pc.Manual?
          && (v.snap.status.checking || e.next.pc.RefetchByManual?))
  }

  lemma DecideDiverts(v: View, q: Search, c: Choice)
    requires v.latest.Some? ==> v.latest.value.status.checking
    requires !v.pc.Processing? && !v.pc.Manual?
    requires v.snap.status.checking || v.pc.CancelByManual? || v.pc.RefetchByManual?
    ensures EffectDiverts(v, Decide(v, q, c))
  {
  }

  lemma WorkDiverts(s: State, c: Choice, id: Id)
    requires s.worker.Busy? && Diverted(s, id)
    ensures Diverted(WorkStep(s, c), id)
  {
    var e := Decide(Seen(s), Searched(s), c);
    if s.worker.id == id { DecideDiverts(Seen(s), Searched(s), c); }
    ApplyDiverts(s, e, id);
  }

  lemma ApplyDiverts(s: State, e: Effect, id: Id)
    requires s.worker.Busy? && Diverted(s, id)
    requires s.worker.id == id ==> EffectDiverts(Seen(s), e)
    ensures Diverted(Apply(s, e), id)
  {
  }

  /** Nobody but the worker changes whether pre-conditions are being checked. */
  lemma OutsideKeepsChecking(s: State, l: Label, id: Id)
    requires Enabled(s, l) && !l.Work? && !l.Take? && s.worker.Busy? && s.worker.id == id
    ensures
      var s' := Step(s, l);
      id in s'.policies ==> id in s.policies && s'.policies[id].status.checking == s.policies[id].status.checking
  {
    if OfStartup(l) { StartupKeepsChecking(s, l, id); }
  }

  lemma StartupKeepsChecking(s: State, l: Label, id: Id)
    requires OfStartup(l) && Enabled(s, l)
    ensures
      var s' := StartupStep(s, l);
      id in s'.policies ==> id in s.policies && s'.policies[id].status.checking == s.policies[id].status.checking
  {
    var e := StartupMove(s, l);
    assert e.write.Some? && e.id in s.policies ==>
      e.write.value.status.checking == s.policies[e.id].status.checking;
  }

  lemma StepDiverts(s: State, l: Label, id: Id)
    requires Enabled(s, l) && Diverted(s, id) && !(l.Take? && l.id == id)
    ensures Diverted(Step(s, l), id)
  {
    if l.Work? {
      WorkDiverts(s, l.choice, id);
    } else if !l.Take? {
      OutsideFrame(s, l);
      if s.worker.Busy? && s.worker.id == id { OutsideKeepsChecking(s, l, id); }
    }
  }

  lemma {:induction false} DivertedRun(s: State, ls: seq<Label>, id: Id, op: string)
    requires Runs(s, ls) && Diverted(s, id) && forall l <- ls :: !(l.Take? && l.id == id)
    ensures CountPasses(s, ls, id, op) == 0 && Diverted(Final(s, ls), id)
    decreases |ls|
  {
    if |ls| > 0 {
      StepDiverts(s, ls[0], id);
      DivertedRun(Step(s, ls[0]), ls[1..], id, op);
    }
  }

  /** In every continuation, whatever fails, is edited, flagged or restarted: a
      reconcile that is taken up, or cancels a resume, while pre-conditions are being
      checked carries out no command at all. */
  lemma NeverCarriedOut(s: State, ls: seq<Label>, id: Id, op: string, any: string)
    requires (TakenUp(s, id) || AboutToCancel(s, id, op)) && s.policies[id].status.checking
    requires Runs(s, ls) && forall l <- ls :: !(l.Take? && l.id == id)
    ensures CountPasses(s, ls, id, any) == 0
    ensures
      var t := Final(s, ls);
      t.worker.Busy? && t.worker.id == id ==> !t.worker.pc.Processing? && !t.worker.pc.Manual?
  {
    DivertedRun(s, ls, id, any);
  }

  // ------------------------------------------------- when nothing goes wrong

  /** Calls succeed and checks pass; nobody else touches the policy or its
      requests, and the reconcile is not followed by another one. */
  predicate Favourable(s: State, l: Label, id: Id)
    requires Enabled(s, l)
  {
    if l.Work? then l.choice.ok && l.choice.verdict.Pass?
    else
      && !l.Take? && !l.Restart? && Lookup(Step(s, l).policies, id) == Lookup(s.policies, id)
      && (id in Step(s, l).queued <==> id in s.queued) && (id in Step(s, l).timers <==> id in s.timers)
  }

  predicate FavourableRun(s: State, ls: seq<Label>, id: Id)
    requires Runs(s, ls)
    decreases |ls|
  {
    |ls| > 0 ==> Favourable(s, ls[0], id) && FavourableRun(Step(s, ls[0]), ls[1..], id)
  }

  /** The reconcile that cancels goes on to carry out the command. */
  predicate CarriesOut(p: Policy) {
    UnhandledOperation(p) && !p.status.checking && !UnhandledFailure(p)
  }

  function Count(b: bool): nat { if b then 1 else 0 }

  /** What the view of a reconcile says about the commands it is still going to carry out. */
  predicate Heading(v: View, op: string, n: nat) {
    && v.latest.Some? && v.latest.value.spec.operationId == op
    && if v.pc.CancelByManual? || v.pc.RefetchByManual? then
         n == Count(CarriesOut(v.latest.value)) && (v.pc.RefetchByManual? ==> !v.latest.value.status.pendingResume)
       else if v.pc.FailureBranch? || v.pc.Cleanup? || v.pc.SkipCheck? || v.pc.NamespaceCheck? ||
               v.pc.CheckingBranch? || v.pc.Processing? then
         && v.latest == Some(v.snap) && !v.snap.status.pendingResume && n == Count(CarriesOut(v.snap))
         && (!v.pc.FailureBranch? ==> !UnhandledFailure(v.snap))
         && (v.pc.NamespaceCheck? || v.pc.CheckingBranch? ==> v.snap.status.checking || UnhandledOperation(v.snap))
         && (v.pc.Processing? ==> n == 1)
       else if v.pc.ClearFailedNode? || v.pc.RefetchCleanup? then
         && n == 0 && !v.latest.value.status.pendingResume && !v.latest.value.status.checking
         && !UnhandledOperation(v.latest.value) && !UnhandledFailure(v.latest.value)
       else
         n == 0 && (v.pc.WriteFailureHandled? || v.pc.ResumeChecked? || v.pc.WriteChecked? || v.pc.Manual?)
  }

  function PassesNow(v: View): nat { Count(v.pc.Processing?) }

  lemma DecideHeads(v: View, q: Search, c: Choice, op: string, n: nat)
    requires op != "" && Heading(v, op, n) && c.ok && c.verdict.Pass?
    ensures
      var e := Decide(v, q, c);
      var latest := if e.write.Some? then e.write else v.latest;
      && n >= PassesNow(v)
      && (e.next.Go? ==> Heading(v.(pc := e.next.pc, latest := latest), op, n - PassesNow(v)))
      && (e.next.Reload? ==>
            Heading(v.(pc := e.next.pc, latest := latest, snap := latest.value), op, n - PassesNow(v)))
      && (e.next.Exit? ==> n == 0)
  {
  }

  predicate HeadingFor(s: State, id: Id, op: string, n: nat) {
    if s.worker.Resting? then n == 0
    else s.worker.id == id && s.worker.snap.spec.operationId == op && Heading(Seen(s), op, n)
  }

  /** The copy may be outdated until it is fetched again, but asks for the same command. */
  lemma CopyKeepsAsking(v: View, q: Search, c: Choice, op: string, n: nat)
    requires Heading(v, op, n)
    ensures Decide(v, q, c).next.Reload? ==> Decide(v, q, c).write.None?
  {
  }

  lemma WorkHeads(s: State, c: Choice, id: Id, op: string, n: nat)
    requires op != "" && Enabled(s, Work(c)) && HeadingFor(s, id, op, n) && c.ok && c.verdict.Pass?
    ensures
      var passed := Count(Passes(s, Work(c), id, op));
      n >= passed && HeadingFor(Step(s, Work(c)), id, op, n - passed)
  {
    var v, q := Seen(s), Searched(s);
    DecideHeads(v, q, c, op, n);
    CopyKeepsAsking(v, q, c, op, n);
    ApplyHeads(s, Decide(v, q, c), op, n, n - PassesNow(v));
  }

  lemma ApplyHeads(s: State, e: Effect, op: string, n: nat, n': nat)
    requires s.worker.Busy? && s.worker.id in s.policies && s.worker.snap.spec.operationId == op
    requires e.next.Reload? ==> e.write.None? && s.policies[s.worker.id].spec.operationId == op
    requires
      var v := Seen(s);
      var latest := if e.write.Some? then e.write else v.latest;
      && (e.next.Go? ==> Heading(v.(pc := e.next.pc, latest := latest), op, n'))
      && (e.next.Reload? ==> Heading(v.(pc := e.next.pc, latest := latest, snap := latest.value), op, n'))
      && (e.next.Exit? ==> n' == 0)
    ensures HeadingFor(Apply(s, e), s.worker.id, op, n')
  {
  }

  lemma StepHeads(s: State, l: Label, id: Id, op: string, n: nat)
    requires op != "" && Enabled(s, l) && Favourable(s, l, id) && HeadingFor(s, id, op, n)
    ensures
      var passed := Count(Passes(s, l, id, op));
      n >= passed && HeadingFor(Step(s, l), id, op, n - passed)
  {
    if l.Work? { WorkHeads(s, l.choice, id, op, n); } else { OutsideKeepsWorker(s, l); }
  }

  lemma {:induction false} PassesAsHeading(s: State, ls: seq<Label>, id: Id, op: string, n: nat)
    requires op != "" && Runs(s, ls) && FavourableRun(s, ls, id) && HeadingFor(s, id, op, n)
    ensures Final(s, ls).worker.Resting? ==> CountPasses(s, ls, id, op) == n
    decreases |ls|
  {
    if |ls| > 0 {
      StepHeads(s, ls[0], id, op, n);
      PassesAsHeading(Step(s, ls[0]), ls[1..], id, op, n - Count(Passes(s, ls[0], id, op)));
    }
  }

  /** For every favourable run to the end of the reconcile: the command that cancels
      a resume is carried out, and once, if and only if it is unhandled in the
      store, no pre-conditions are being checked and no node failure is unhandled. */
  lemma CancelCarriedOutIff(s: State, ls: seq<Label>, id: Id, op: string)
    requires AboutToCancel(s, id, op) && s.worker.snap.spec.operationId == op
    requires Runs(s, ls) && FavourableRun(s, ls, id) && Final(s, ls).worker.Resting?
    ensures CountPasses(s, ls, id, op) == Count(CarriesOut(s.policies[id]))
  {
    PassesAsHeading(s, ls, id, op, Count(CarriesOut(s.policies[id])));
  }

  // --------------------------------------------------- what happens instead

  /** The unhandled command cancels a resume whose pre-conditions are being checked. */
  predicate Overridable(p: Policy) {
    p.status.checking && UnhandledOperation(p) && !UnhandledFailure(p)
  }

  function Outcome(p: Policy): Policy {
    p.(status := p.status.(phase := Resumed, checking := false, pendingResume := false))
  }

  function StepsToGo(pc: Pc): nat {
    match pc
    case CancelByManual => 9
    case RefetchByManual => 8
    case FailureBranch => 7
    case Cleanup => 6
    case SkipCheck => 5
    case NamespaceCheck => 4
    case CheckingBranch => 3
    case ResumeChecked => 2
    case WriteChecked => 1
    case _ => 0
  }

  function Onward(pc: Pc): Pc {
    match pc
    case FailureBranch => Cleanup
    case Cleanup => SkipCheck
    case SkipCheck => NamespaceCheck
    case NamespaceCheck => CheckingBranch
    case CheckingBranch => ResumeChecked
    case _ => WriteChecked
  }

  lemma DecideInstead(v: View, q: Search, c: Choice, p: Policy)
    requires Overridable(p) && !p.status.pendingResume && c.ok && c.verdict.Pass?
    requires 1 <= StepsToGo(v.pc) <= 7 && v.snap == p && v.latest == Some(p)
    ensures
      var e := Decide(v, q, c);
      if v.pc.WriteChecked? then e == WriteThen(Outcome(p), Exit(Done, Normal)) else e == Move(Onward(v.pc))
  {
  }

  /** On the way from the cancellation to the end; `p` is the policy with the flag cleared. */
  predicate OnTheWay(s: State, id: Id, p: Policy) {
    && id in s.policies && !p.status.pendingResume
    && if s.worker.Resting? then s.policies[id] == Outcome(p)
       else
         && s.worker.id == id && StepsToGo(s.worker.pc) > 0
         && p == (if s.worker.pc.CancelByManual? then WithPending(s.policies[id], false) else s.policies[id])
         && (StepsToGo(s.worker.pc) <= 7 ==> s.worker.snap == p)
  }

  predicate SameRequests(s: State, s': State, id: Id) {
    (id in s'.queued <==> id in s.queued) && (id in s'.timers <==> id in s.timers)
  }

  lemma WorkResumes(s: State, c: Choice, id: Id, p: Policy)
    requires Enabled(s, Work(c)) && OnTheWay(s, id, p) && Overridable(p) && c.ok && c.verdict.Pass?
    ensures
      var s' := Step(s, Work(c));
      && OnTheWay(s', id, p) && SameRequests(s, s', id)
      && (s'.worker.Busy? ==> StepsToGo(s'.worker.pc) < StepsToGo(s.worker.pc))
  {
    WorkAdvances(s, c, id, p);
    StaysOnTheWay(s, Step(s, Work(c)), id, p);
  }

  /** The state after one step of the worker on this way. */
  function Advanced(s: State, id: Id, p: Policy): State
    requires s.worker.Busy?
  {
    if s.worker.pc.CancelByManual? then At(s, RefetchByManual).(policies := s.policies[id := p])
    else if s.worker.pc.RefetchByManual? then s.(worker := s.worker.(pc := FailureBranch, snap := p))
    else if s.worker.pc.WriteChecked? then
      s.(policies := s.policies[id := Outcome(p)], worker := Resting, ended := s.ended[id := Normal])
    else At(s, Onward(s.worker.pc))
  }

  lemma StaysOnTheWay(s: State, s': State, id: Id, p: Policy)
    requires s.worker.Busy? && OnTheWay(s, id, p) && s' == Advanced(s, id, p)
    ensures OnTheWay(s', id, p) && SameRequests(s, s', id)
    ensures s'.worker.Busy? ==> StepsToGo(s'.worker.pc) < StepsToGo(s.worker.pc)
  {
  }

  lemma WorkAdvances(s: State, c: Choice, id: Id, p: Policy)
    requires s.worker.Busy? && OnTheWay(s, id, p) && Overridable(p) && c.ok && c.verdict.Pass?
    ensures WorkStep(s, c) == Advanced(s, id, p)
  {
    if s.worker.pc.CancelByManual? { CancelIsWritten(s, c, id, p); }
    else if s.worker.pc.WriteChecked? { ResumeIsWritten(s, c, id, p); }
    else if s.worker.pc.RefetchByManual? { assert WorkStep(s, c) == Apply(s, Effect(None, Reload(FailureBranch))); }
    else { DecideInstead(Seen(s), Searched(s), c, p); }
  }

  lemma CancelIsWritten(s: State, c: Choice, id: Id, p: Policy)
    requires s.worker.Busy? && OnTheWay(s, id, p) && s.worker.pc.CancelByManual? && c.ok
    ensures WorkStep(s, c) == At(s, RefetchByManual).(policies := s.policies[id := p])
  {
    assert Decide(Seen(s), Searched(s), c) == WriteThen(p, Go(RefetchByManual));
    assert !UpdateTriggers(s.policies[id], p);
  }

  lemma ResumeIsWritten(s: State, c: Choice, id: Id, p: Policy)
    requires s.worker.Busy? && OnTheWay(s, id, p) && s.worker.pc.WriteChecked? && Overridable(p)
    requires c.ok && c.verdict.Pass?
    ensures WorkStep(s, c) ==
      s.(policies := s.policies[id := Outcome(p)], worker := Resting, ended := s.ended[id := Normal])
  {
    DecideInstead(Seen(s), Searched(s), c, p);
    assert !UpdateTriggers(p, Outcome(p));
  }

  lemma StepResumes(s: State, l: Label, id: Id, p: Policy)
    requires Enabled(s, l) && Favourable(s, l, id) && OnTheWay(s, id, p) && Overridable(p)
    ensures OnTheWay(Step(s, l), id, p) && SameRequests(s, Step(s, l), id)
  {
    if l.Work? { WorkResumes(s, l.choice, id, p); } else { OutsideKeepsWorker(s, l); }
  }

  lemma {:induction false} RunResumes(s: State, ls: seq<Label>, id: Id, p: Policy)
    requires Runs(s, ls) && FavourableRun(s, ls, id) && OnTheWay(s, id, p) && Overridable(p)
    ensures OnTheWay(Final(s, ls), id, p) && SameRequests(s, Final(s, ls), id)
    decreases |ls|
  {
    if |ls| > 0 {
      StepResumes(s, ls[0], id, p);
      RunResumes(Step(s, ls[0]), ls[1..], id, p);
    }
  }

  /** The worker has found nothing pending for `id`, whose policy asks for `op`. */
  predicate NothingPending(s: State, id: Id, op: string) {
    && s.worker.Busy? && s.worker.id == id && s.worker.pc.FailureBranch? && Asks(s, id, op)
    && s.worker.snap == s.policies[id] && !s.policies[id].status.pendingResume
  }

  /** For every favourable run to the end of the reconcile: if pre-conditions are
      being checked the namespace is resumed even if the command was a Freeze, the
      command is not recorded, and no further reconcile has been asked for. */
  lemma CommandTurnsIntoResume(s: State, ls: seq<Label>, id: Id, op: string)
    requires (AboutToCancel(s, id, op) || NothingPending(s, id, op)) && Overridable(s.policies[id])
    requires Runs(s, ls) && FavourableRun(s, ls, id) && Final(s, ls).worker.Resting?
    ensures
      var t := Final(s, ls);
      && id in t.policies && t.policies[id] == Outcome(s.policies[id])
      && UnhandledOperation(t.policies[id]) && SameRequests(s, t, id)
  {
    var p := s.policies[id];
    assert NothingPending(s, id, op) ==> WithPending(p, false) == p;
    RunResumes(s, ls, id, WithPending(p, false));
  }

  /** Such a run exists from every such state. */
  lemma {:induction false} RunsToEnd(s: State, id: Id, p: Policy) returns (ls: seq<Label>)
    requires OnTheWay(s, id, p) && Overridable(p)
    ensures Runs(s, ls) && FavourableRun(s, ls, id) && Final(s, ls).worker.Resting?
    decreases if s.worker.Busy? then StepsToGo(s.worker.pc) else 0
  {
    if s.worker.Resting? { return []; }
    WorkResumes(s, SURE, id, p);
    var rest := RunsToEnd(Step(s, Work(SURE)), id, p);
    RunCons(s, Work(SURE), rest);
    ls := [Work(SURE)] + rest;
    assert ls[1..] == rest;
  }

  // ------------------------------------------------------ a run from the start

  /** A recovery resume that waits for its pre-conditions, and a Freeze command. */
  const WAITING := Policy(
    "a", 0, false, Spec("ns", Freeze, "op-2", StartupIgnore, 0, 1, 0, true, true, 5, false),
    Status(Resuming, "op-1", true, Some(0), false, None, None, None, "", true))

  const START := Boot(map["a" := WAITING], 0)
  const STARTED := START.(startup := Finished, startupComplete := true)
  const CANCELLING := STARTED.(queued := {}, worker := Busy("a", CancelByManual, WAITING, true))

  /** Startup with nothing to freeze and nothing to flag. */
  lemma StartupIdles(copies: map<Id, Policy>, s: State)
    requires s.policies == copies && s.startup.NotListed? && !s.startupComplete
    requires Select(copies, StartupFreeze) == {} && Select(copies, StartupResume) == {}
    ensures Reachable(s, s.(startup := Finished, startupComplete := true))
  {
    var a, b := s.(startup := Scanning(copies)), s.(startup := Marking);
    ReachableTwo(s, StartupList(true), StartupGroupsDone);
    ReachableTwo(a, StartupScan(None, [], []), StartupFlagged);
    ReachableOn(s, a, b);
    ReachableOne(b, StartupMark);
    ReachableOn(s, b, s.(startup := Finished, startupComplete := true));
  }

  lemma CancelComes()
    ensures Reachable(STARTED, CANCELLING)
  {
    var t := At(CANCELLING, CheckConflict);
    assert STARTED.queued == {"a"};
    assert Step(STARTED, Take("a", true, 0)) == t;
    ReachableOne(STARTED, Take("a", true, 0));
    assert !Conflicted(t.policies, "a", WAITING);
    ReachableMoves(t, [CheckConflict, FreezeBranch, ResumeBranch, CancelByManual]);
    ReachableOn(STARTED, t, CANCELLING);
  }

  /** The last command was a Freeze, it is unhandled, and the namespace has been resumed. */
  predicate EndsResumed(s: State, id: Id) {
    && s.worker.Resting? && id in s.policies && UnhandledOperation(s.policies[id])
    && s.policies[id].spec.action == Freeze && s.policies[id].status.phase == Resumed
  }

  /** From a start state: a Freeze command ends with the namespace resumed and the
      command unhandled. */
  lemma FreezeThatResumes()
    ensures Initial(START)
    ensures exists t :: Reachable(START, t) && EndsResumed(t, "a")
  {
    StartupIdles(START.policies, START);
    CancelComes();
    ReachableOn(START, STARTED, CANCELLING);
    var ls := RunsToEnd(CANCELLING, "a", WithPending(WAITING, false));
    CommandTurnsIntoResume(CANCELLING, ls, "a", "op-2");
    assert Reaches(CANCELLING, ls, Final(CANCELLING, ls));
    ReachableOn(START, CANCELLING, Final(CANCELLING, ls));
  }
}
