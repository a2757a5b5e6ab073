/** Priority order of startup and recovery resumes over whole runs. */
module Ordering {
  import opened Options
  import opened Policies
  import opened Sequences
  import opened Operator
  import opened Wakeups
  import opened Stalls

  predicate Pending(s: State, id: Id) {
    id in s.policies && s.policies[id].status.pendingResume
  }

  function Priority(s: State, id: Id): int
    requires id in s.policies
  {
    EffectivePriority(s.policies[id].spec)
  }

  /** The step flags no policy that was not pending, and changes no priority. */
  predicate Quiet(s: State, l: Label)
    requires Enabled(s, l)
  {
    var s' := Step(s, l);
    forall id <- s'.policies.Keys ::
      && (Pending(s', id) ==> Pending(s, id))
      && (id in s.policies ==> Priority(s', id) == Priority(s, id))
  }

  predicate QuietRun(s: State, ls: seq<Label>)
    requires Runs(s, ls)
    decreases |ls|
  {
    |ls| > 0 ==> Quiet(s, ls[0]) && QuietRun(Step(s, ls[0]), ls[1..])
  }

  /** The step completes a pending resume: the worker's policy was pending, is
      Resumed and no longer pending, and the reconcile is over. */
  predicate Completes(s: State, l: Label)
    requires Enabled(s, l)
  {
    && l.Work? && Pending(s, s.worker.id)
    && var s' := Step(s, l);
       s'.worker.Resting? && !Pending(s', s.worker.id) && s.worker.id in s'.policies
       && s'.policies[s.worker.id].status.phase == Resumed
  }

  /** The priorities of the resumes that a run completes, in the order of completion. */
  function Completed(s: State, ls: seq<Label>): seq<int>
    requires Runs(s, ls)
    decreases |ls|
  {
    if |ls| == 0 then []
    else
      (if Completes(s, ls[0]) then [Priority(s, s.worker.id)] else []) + Completed(Step(s, ls[0]), ls[1..])
  }

  /** The two writes that end a reconcile with the flag cleared and the phase Resumed. */
  lemma TwoWaysToEnd(v: View, q: Search, c: Choice)
    requires v.latest.Some? && v.latest.value.status.pendingResume && !v.pc.ClearFreeze? && !v.pc.ClearResume?
    requires
      var e := Decide(v, q, c);
      e.next.Exit? && e.write.Some? && e.write.value.status.phase == Resumed && !e.write.value.status.pendingResume
    ensures v.pc.WriteResumed? || v.pc.WriteChecked?
  {
  }

  /** The two ways to complete a resume; there is no gate before the second one. */
  lemma TwoWaysToComplete(s: State, c: Choice)
    requires Invariant(s) && Enabled(s, Work(c)) && Completes(s, Work(c))
    ensures s.worker.pc.WriteResumed? || s.worker.pc.WriteChecked?
  {
    var e := Decide(Seen(s), Searched(s), c);
    ApplySeen(s, e);
    assert Lookup(Apply(s, e).policies, s.worker.id) == Some(Step(s, Work(c)).policies[s.worker.id]);
    TwoWaysToEnd(Seen(s), Searched(s), c);
  }

  // --------------------------------------------------------- order in a quiet run

  /** `None` is a floor below every priority. */
  predicate AtLeast(floor: Option<int>, p: int) {
    floor.Some? ==> floor.value <= p
  }

  /** Nothing pending comes before `floor`, and a worker past the gate has no
      pending policy before its own. */
  predicate InOrder(s: State, floor: Option<int>) {
    && (forall id <- s.policies.Keys :: Pending(s, id) ==> AtLeast(floor, Priority(s, id)))
    && (s.worker.Busy? ==> WorkerInOrder(s, s.worker.id, s.worker.pc, s.worker.snap))
  }

  predicate WorkerInOrder(s: State, me: Id, pc: Pc, snap: Policy) {
    && (me in s.policies ==> Priority(s, me) == EffectivePriority(snap.spec))
    && (Pending(s, me) ==> KnowsFlag(pc, snap))
    && (PastGate(pc) ==>
          forall id <- s.policies.Keys ::
            id != me && Pending(s, id) ==> EffectivePriority(snap.spec) <= Priority(s, id))
  }

  /** The reconcile has seen the pending flag of its policy, or is still going to look at it. */
  predicate KnowsFlag(pc: Pc, snap: Policy) {
    (Early(pc) && snap.status.pendingResume) || Gated(pc)
  }

  /** Fewer pending flags and the same priorities keep the order. */
  lemma OrderTransfers(s: State, s': State, floor: Option<int>)
    requires InOrder(s, floor)
    requires forall id <- s'.policies.Keys ::
      && (Pending(s', id) ==> Pending(s, id))
      && (id in s.policies ==> Priority(s', id) == Priority(s, id))
    requires Untouched(s, s')
    ensures InOrder(s', floor)
  {
    forall id <- s'.policies.Keys | Pending(s', id) ensures Pending(s, id) && Priority(s', id) == Priority(s, id) {
    }
  }

  lemma TakeKeepsOrder(s: State, id: Id, ok: bool, wait: nat, floor: Option<int>)
    requires InOrder(s, floor)
    ensures InOrder(TakeStep(s, id, ok, wait), floor)
  {
  }

  /** The flag is seen at the branch for pending resumes, and cleared before that branch is left. */
  lemma DecideKnowsFlag(v: View, q: Search, c: Choice)
    requires v.latest.Some? && v.latest.value.status.pendingResume && KnowsFlag(v.pc, v.snap)
    ensures
      var e := Decide(v, q, c);
      var latest := if e.write.Some? then e.write.value else v.latest.value;
      latest.status.pendingResume ==>
        && (e.next.Go? ==> KnowsFlag(e.next.pc, v.snap))
        && (e.next.Reload? ==> KnowsFlag(e.next.pc, latest))
  {
  }

  lemma WorkKnowsFlag(s: State, c: Choice)
    requires s.worker.Busy? && Pending(s, s.worker.id) && KnowsFlag(s.worker.pc, s.worker.snap)
    ensures
      var s' := WorkStep(s, c);
      s'.worker.Busy? && Pending(s', s.worker.id) ==> KnowsFlag(s'.worker.pc, s'.worker.snap)
  {
    DecideKnowsFlag(Seen(s), Searched(s), c);
  }

  lemma WorkKeepsOrder(s: State, c: Choice, floor: Option<int>)
    requires Enabled(s, Work(c)) && Quiet(s, Work(c)) && InOrder(s, floor)
    ensures InOrder(WorkStep(s, c), floor)
  {
    var v, q := Seen(s), Searched(s);
    var e := Decide(v, q, c);
    var s' := Step(s, Work(c));
    assert s' == Apply(s, e);
    if PastGate(s.worker.pc) { DecidePastGate(v, q, c); } else { DecideAtGate(v, q, c); }
    if Pending(s, s.worker.id) { WorkKnowsFlag(s, c); }
    forall id <- s'.policies.Keys | Pending(s', id) ensures Pending(s, id) && Priority(s', id) == Priority(s, id) {
    }
    if s'.worker.Busy? && PastGate(s'.worker.pc) && !PastGate(s.worker.pc) {
      forall id <- s'.policies.Keys | id != s.worker.id && Pending(s', id)
        ensures EffectivePriority(s.worker.snap.spec) <= Priority(s', id)
      {
        assert Pending(s, id) && !HoldsBack(s.policies[id], s.worker.snap);
      }
    }
  }

  /** Completing a resume raises the floor to its priority. */
  lemma CompletionRaisesFloor(s: State, c: Choice, floor: Option<int>)
    requires Invariant(s) && Enabled(s, Work(c)) && Completes(s, Work(c)) && InOrder(s, floor)
    ensures s.worker.pc.WriteResumed?
    ensures AtLeast(floor, Priority(s, s.worker.id))
    ensures InOrder(WorkStep(s, c), Some(Priority(s, s.worker.id)))
  {
    var id := s.worker.id;
    TwoWaysToComplete(s, c);
    var s' := WorkStep(s, c);
    assert s'.worker.Resting?;
    assert s'.policies == s.policies[id := s'.policies[id]] && !s'.policies[id].status.pendingResume;
  }

  lemma OutsideKeepsOrder(s: State, l: Label, floor: Option<int>)
    requires Enabled(s, l) && Quiet(s, l) && InOrder(s, floor) && !l.Work? && !l.Take?
    ensures InOrder(Step(s, l), floor)
  {
    OutsideFrame(s, l);
    OrderTransfers(s, Step(s, l), floor);
  }

  lemma StepKeepsOrder(s: State, l: Label, floor: Option<int>)
    requires Enabled(s, l) && Quiet(s, l) && InOrder(s, floor)
    ensures InOrder(Step(s, l), floor)
  {
    if l.Work? {
      WorkKeepsOrder(s, l.choice, floor);
    } else if l.Take? {
      TakeKeepsOrder(s, l.id, l.ok, l.wait, floor);
    } else {
      OutsideKeepsOrder(s, l, floor);
    }
  }

  predicate AllAtLeast(floor: Option<int>, ps: seq<int>) {
    forall p <- ps :: AtLeast(floor, p)
  }

  lemma AscendingCons(floor: Option<int>, p: int, ps: seq<int>)
    requires AtLeast(floor, p) && Ascending(ps) && AllAtLeast(Some(p), ps)
    ensures Ascending([p] + ps) && AllAtLeast(floor, [p] + ps)
  {
    forall i, j | 0 <= i < j < |[p] + ps| ensures ([p] + ps)[i] <= ([p] + ps)[j] {
      assert ([p] + ps)[j] == ps[j - 1] && ps[j - 1] in ps;
      assert AtLeast(Some(p), ps[j - 1]);
    }
    forall x <- [p] + ps ensures AtLeast(floor, x) {
      if x in ps { assert AtLeast(Some(p), x); }
    }
  }

  /** The floor after a step. */
  function NextFloor(s: State, l: Label, floor: Option<int>): Option<int>
    requires Enabled(s, l)
  {
    if Completes(s, l) then Some(Priority(s, s.worker.id)) else floor
  }

  lemma StepKeepsFloor(s: State, l: Label, floor: Option<int>)
    requires Invariant(s) && Enabled(s, l) && Quiet(s, l) && InOrder(s, floor)
    ensures InOrder(Step(s, l), NextFloor(s, l, floor))
    ensures Completes(s, l) ==> AtLeast(floor, Priority(s, s.worker.id))
  {
    if Completes(s, l) { CompletionRaisesFloor(s, l.choice, floor); } else { StepKeepsOrder(s, l, floor); }
  }

  lemma {:induction false} CompletedAscend(s: State, ls: seq<Label>, floor: Option<int>)
    requires Invariant(s) && Runs(s, ls) && QuietRun(s, ls) && InOrder(s, floor)
    ensures Ascending(Completed(s, ls)) && AllAtLeast(floor, Completed(s, ls))
    decreases |ls|
  {
    if |ls| > 0 {
      var l := ls[0];
      StepPreserves(s, l);
      StepKeepsFloor(s, l, floor);
      CompletedAscend(Step(s, l), ls[1..], NextFloor(s, l, floor));
      var rest := Completed(Step(s, l), ls[1..]);
      if Completes(s, l) {
        AscendingCons(floor, Priority(s, s.worker.id), rest);
      } else {
        assert [] + rest == rest;
      }
    }
  }

  /** The worker is not past the gate, has not seen an outdated priority, and
      has not overlooked the flag of its policy. */
  predicate Settled(s: State) {
    s.worker.Busy? ==>
      && !PastGate(s.worker.pc)
      && (s.worker.id in s.policies ==> Priority(s, s.worker.id) == EffectivePriority(s.worker.snap.spec))
      && (Pending(s, s.worker.id) ==> KnowsFlag(s.worker.pc, s.worker.snap))
  }

  /** In every run: from any reachable settled state, and for as long as nothing
      new is flagged, the pending resumes are completed in the order of their
      effective priorities, whatever else is cancelled, edited, created, deleted
      or restarted in between. */
  lemma PriorityOrder(s: State, before: seq<Label>, ls: seq<Label>)
    requires Initial(s) && Runs(s, before) && Runs(Final(s, before), ls)
    requires Settled(Final(s, before)) && QuietRun(Final(s, before), ls)
    ensures Ascending(Completed(Final(s, before), ls))
  {
    BootSatisfies(s.policies, s.clock);
    RunPreserves(s, before);
    CompletedAscend(Final(s, before), ls, None);
  }

  // ------------------------------------------------ at any time, in any run

  /** The step edits no priority. */
  predicate KeepsPriorities(s: State, l: Label)
    requires Enabled(s, l)
  {
    l.Edit? ==> EffectivePriority(l.spec) == Priority(s, l.id)
  }

  predicate PrioritiesKept(s: State, ls: seq<Label>)
    requires Runs(s, ls)
    decreases |ls|
  {
    |ls| > 0 ==> KeepsPriorities(s, ls[0]) && PrioritiesKept(Step(s, ls[0]), ls[1..])
  }

  /** No other pending policy is more urgent than `p`, the policy of `me`. */
  predicate MostUrgent(policies: map<Id, Policy>, me: Id, p: Policy) {
    forall id <- policies.Keys :: id != me ==> !HoldsBack(policies[id], p)
  }

  /** Past the gate startup is over, so that nobody but the worker flags policies, and
      nothing pending is more urgent. */
  predicate Guarded(s: State) {
    && (s.startupComplete ==> s.startup.Finished?)
    && (s.worker.Busy? ==>
          && (s.worker.id in s.policies ==> Priority(s, s.worker.id) == EffectivePriority(s.worker.snap.spec))
          && (PastGate(s.worker.pc) ==>
                s.startupComplete && MostUrgent(s.policies, s.worker.id, s.worker.snap)))
  }

  /** What a step of the worker writes has the stored priority. */
  lemma DecideKeepsPriority(v: View, q: Search, c: Choice)
    requires v.latest.Some?
    ensures
      var e := Decide(v, q, c);
      && (e.write.Some? ==> e.write.value.spec == v.latest.value.spec)
      && (e.next.Reload? ==> e.write.None?)
  {
  }

  lemma ApplyGuards(s: State, e: Effect)
    requires s.worker.Busy? && Guarded(s)
    requires s.worker.id in s.policies && e.write.Some? ==> e.write.value.spec == s.policies[s.worker.id].spec
    requires e.next.Reload? ==> e.write.None? && !PastGate(e.next.pc)
    requires e.next.Go? && PastGate(e.next.pc) && !PastGate(s.worker.pc) ==>
      s.startupComplete && MostUrgent(s.policies, s.worker.id, s.worker.snap)
    ensures Guarded(Apply(s, e))
  {
  }

  lemma WorkGuards(s: State, c: Choice)
    requires Invariant(s) && s.worker.Busy? && Guarded(s)
    ensures Guarded(WorkStep(s, c))
  {
    var v, q := Seen(s), Searched(s);
    if s.worker.id in s.policies { DecideKeepsPriority(v, q, c); }
    if PastGate(s.worker.pc) { DecidePastGate(v, q, c); } else { DecideAtGate(v, q, c); }
    ReloadsPlainly(v, q, c);
    ApplyGuards(s, Decide(v, q, c));
  }

  lemma ReloadsPlainly(v: View, q: Search, c: Choice)
    ensures Decide(v, q, c).next.Reload? ==> Decide(v, q, c).write.None?
  {
  }

  lemma StartupGuards(s: State, l: Label)
    requires OfStartup(l) && Enabled(s, l) && Guarded(s)
    ensures Guarded(StartupStep(s, l))
  {
    StartupWrites(s, l);
  }

  /** Users and nodes flag nothing. */
  lemma WorldFlagsNothing(s: State, l: Label, p: Policy, id: Id)
    requires OfWorld(l) && Enabled(s, l) && KeepsPriorities(s, l) && id in WorldStep(s, l).policies
    requires HoldsBack(WorldStep(s, l).policies[id], p)
    ensures id in s.policies && HoldsBack(s.policies[id], p)
  {
  }

  lemma WorldKeepsPriority(s: State, l: Label, id: Id)
    requires OfWorld(l) && Enabled(s, l) && KeepsPriorities(s, l) && s.worker.Busy? && s.worker.id == id
    ensures
      var s' := WorldStep(s, l);
      && s'.worker == s.worker && s'.startup == s.startup && s'.startupComplete == s.startupComplete
      && (id in s'.policies ==> id in s.policies && Priority(s', id) == Priority(s, id))
  {
  }

  lemma WorldGuards(s: State, l: Label)
    requires OfWorld(l) && Enabled(s, l) && Guarded(s) && KeepsPriorities(s, l)
    ensures Guarded(WorldStep(s, l))
  {
    if s.worker.Busy? {
      WorldKeepsPriority(s, l, s.worker.id);
      forall id <- WorldStep(s, l).policies.Keys | HoldsBack(WorldStep(s, l).policies[id], s.worker.snap)
        ensures id in s.policies && HoldsBack(s.policies[id], s.worker.snap)
      {
        WorldFlagsNothing(s, l, s.worker.snap, id);
      }
    }
  }

  lemma StepGuards(s: State, l: Label)
    requires Invariant(s) && Enabled(s, l) && Guarded(s) && KeepsPriorities(s, l)
    ensures Guarded(Step(s, l))
  {
    if l.Work? { WorkGuards(s, l.choice); }
    else if OfStartup(l) { StartupGuards(s, l); }
    else if OfWorld(l) { WorldGuards(s, l); }
  }

  lemma {:induction false} RunGuards(s: State, ls: seq<Label>)
    requires Invariant(s) && Runs(s, ls) && Guarded(s) && PrioritiesKept(s, ls)
    ensures Guarded(Final(s, ls)) && Invariant(Final(s, ls))
    decreases |ls|
  {
    if |ls| > 0 {
      StepPreserves(s, ls[0]);
      StepGuards(s, ls[0]);
      RunGuards(Step(s, ls[0]), ls[1..]);
    }
  }

  /** In every run without priority edits, whatever is flagged on the way: a resume that
      is completed, other than by the branch of the checks, is more urgent than or as
      urgent as everything else that is pending at that moment. */
  lemma MostUrgentFirst(s: State, ls: seq<Label>, l: Label)
    requires Initial(s) && Runs(s, ls) && PrioritiesKept(s, ls)
    requires Enabled(Final(s, ls), l) && Completes(Final(s, ls), l)
    ensures
      var t := Final(s, ls);
      t.worker.pc.WriteChecked? || MostUrgent(t.policies, t.worker.id, t.policies[t.worker.id])
  {
    BootSatisfies(s.policies, s.clock);
    RunGuards(s, ls);
    TwoWaysToComplete(Final(s, ls), l.choice);
  }
}
