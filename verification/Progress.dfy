/** Deadlock freedom and progress of the resume chain: once nothing is in the way
    of the pending policies but each other, every fair round of reconciles
    shrinks the pending set, until it is empty. */
module Progress {
  import opened Options
  import opened Policies
  import opened Operator
  import opened Wakeups
  import opened Ordering

  function PendingSet(s: State): set<Id> {
    set id <- s.policies.Keys | s.policies[id].status.pendingResume
  }

  /** No two policies want the same namespace. */
  predicate NoDuplicates(policies: map<Id, Policy>) {
    forall p, q :: p in policies && q in policies && p != q ==>
      policies[p].spec.targetNamespace != policies[q].spec.targetNamespace
  }

  /** The delay is over and no freeze, failure or manual operation interferes. */
  predicate Due(p: Policy, clock: nat) {
    && !p.status.pendingFreeze && !UnhandledFailure(p) && !UnhandledOperation(p)
    && Elapsed(p.status.resumeStartedAt, p.spec.resumeDelay, clock)
  }

  /** The points on the way of an undisturbed pending resume, by the steps to go. */
  function StepsToGo(pc: Pc): nat {
    match pc
    case CheckConflict => 8
    case FreezeBranch => 7
    case ResumeBranch => 6
    case Gate => 5
    case DelayCheck => 4
    case PreCheck => 3
    case ResumeWorkloads => 2
    case WriteResumed => 1
    case _ => 0
  }

  function Onward(pc: Pc): Pc {
    match pc
    case CheckConflict => FreezeBranch
    case FreezeBranch => ResumeBranch
    case ResumeBranch => Gate
    case Gate => DelayCheck
    case DelayCheck => PreCheck
    case PreCheck => ResumeWorkloads
    case _ => WriteResumed
  }

  /** Startup is over, the pending policies only wait for each other, and a
      reconcile of one of them is on its way with a copy that is up to date. */
  predicate Ready(s: State) {
    && s.startupComplete && NoDuplicates(s.policies)
    && (forall id <- s.policies.Keys :: Pending(s, id) ==> Due(s.policies[id], s.clock))
    && (s.worker.Busy? && Pending(s, s.worker.id) ==>
          StepsToGo(s.worker.pc) > 0 && s.worker.snap == s.policies[s.worker.id])
  }

  /** A step as progress may expect it: the operator is not restarted, nothing new
      is flagged, no duplicate appears, the calls made for a pending policy succeed
      and its pre-conditions pass, and nobody but the worker touches it. */
  predicate Smooth(s: State, l: Label)
    requires Enabled(s, l)
  {
    && !l.Restart? && Quiet(s, l) && NoDuplicates(Step(s, l).policies)
    && (l.Work? && Pending(s, s.worker.id) ==> l.choice.ok && l.choice.verdict.Pass?)
    && (!l.Work? ==> forall id <- PendingSet(s) :: Lookup(Step(s, l).policies, id) == Lookup(s.policies, id))
  }

  predicate SmoothRun(s: State, ls: seq<Label>)
    requires Runs(s, ls)
    decreases |ls|
  {
    |ls| > 0 ==> Smooth(s, ls[0]) && SmoothRun(Step(s, ls[0]), ls[1..])
  }

  /** The policies whose resume a run completes. */
  function CompletedIds(s: State, ls: seq<Label>): set<Id>
    requires Runs(s, ls)
    decreases |ls|
  {
    if |ls| == 0 then {}
    else (if Completes(s, ls[0]) then {s.worker.id} else {}) + CompletedIds(Step(s, ls[0]), ls[1..])
  }

  // ------------------------------------------------------- one step on the way

  function ResumedPolicy(p: Policy): Policy {
    p.(status := p.status.(phase := Resumed, pendingResume := false))
  }

  lemma DecideOnTheWay(v: View, q: Search, c: Choice)
    requires StepsToGo(v.pc) > 0 && v.latest == Some(v.snap) && v.snap.status.pendingResume
    requires v.startupComplete && Due(v.snap, v.clock) && !q.conflicted && c.ok && c.verdict.Pass?
    ensures
      var e := Decide(v, q, c);
      if v.pc.WriteResumed? then e.write == Some(ResumedPolicy(v.snap)) && e.next.Exit?
      else if v.pc.Gate? && q.blocked then e == Quit(After(GATE_WAIT))
      else e == Move(Onward(v.pc))
  {
  }

  /** The reconcile of a pending policy moves on, waits at the gate, or completes. */
  lemma WorkOnTheWay(s: State, c: Choice)
    requires Ready(s) && s.worker.Busy? && Pending(s, s.worker.id) && c.ok && c.verdict.Pass?
    ensures
      var s', id := WorkStep(s, c), s.worker.id;
      && s'.clock == s.clock && s'.startupComplete && s'.queued == s.queued
      && (forall other <- s.timers.Keys :: other in s'.timers)
      && if s.worker.pc.WriteResumed? then
           s'.worker.Resting? && s'.policies == s.policies[id := ResumedPolicy(s.policies[id])]
         else
           && s'.policies == s.policies
           && if s.worker.pc.Gate? && Blocked(s.policies, id, s.policies[id])
              then s'.worker.Resting? && id in s'.timers else s' == At(s, Onward(s.worker.pc))
  {
    var v, q, id := Seen(s), Searched(s), s.worker.id;
    assert !q.conflicted;
    DecideOnTheWay(v, q, c);
    assert !UpdateTriggers(s.policies[id], ResumedPolicy(s.policies[id]));
  }

  lemma ReadyWithout(s: State, s': State, id: Id)
    requires Ready(s) && Pending(s, id) && s'.policies == s.policies[id := ResumedPolicy(s.policies[id])]
    requires s'.clock == s.clock && s'.startupComplete && s'.worker.Resting?
    ensures Ready(s') && PendingSet(s') == PendingSet(s) - {id}
    ensures !Pending(s', id) && id in s'.policies && s'.policies[id].status.phase == Resumed
  {
  }

  lemma ReadyOnward(s: State, s': State)
    requires Ready(s) && s'.policies == s.policies && s'.clock == s.clock && s'.startupComplete
    requires s'.worker.Resting? || (s.worker.Busy? && StepsToGo(s.worker.pc) > 1 &&
                                    s'.worker == s.worker.(pc := Onward(s.worker.pc)))
    ensures Ready(s') && PendingSet(s') == PendingSet(s) && forall id :: Pending(s', id) <==> Pending(s, id)
  {
  }

  /** What a step on the way does to readiness and to the pending set. */
  lemma WorkKeepsReady(s: State, c: Choice)
    requires Ready(s) && Enabled(s, Work(c)) && Pending(s, s.worker.id) && c.ok && c.verdict.Pass?
    ensures
      var s' := Step(s, Work(c));
      Ready(s') && PendingSet(s') == PendingSet(s) - if Completes(s, Work(c)) then {s.worker.id} else {}
  {
    WorkOnTheWay(s, c);
    var s', id := Step(s, Work(c)), s.worker.id;
    if s.worker.pc.WriteResumed? {
      ReadyWithout(s, s', id);
    } else {
      ReadyOnward(s, s');
    }
  }

  /** What the pending policies are waiting for does not change with the rest. */
  predicate SamePending(s: State, s': State) {
    && (forall id <- PendingSet(s) :: Lookup(s'.policies, id) == Lookup(s.policies, id))
    && (forall id <- PendingSet(s') :: id in PendingSet(s))
  }

  lemma ReadyTransfers(s: State, s': State)
    requires Ready(s) && SamePending(s, s')
    requires s'.startupComplete && NoDuplicates(s'.policies) && s'.clock >= s.clock
    requires s'.worker.Busy? && Pending(s', s'.worker.id) ==>
      s'.worker == s.worker || (s'.worker.pc.CheckConflict? && s'.worker.snap == s'.policies[s'.worker.id])
    ensures Ready(s') && PendingSet(s') == PendingSet(s)
  {
    forall id <- s'.policies.Keys | Pending(s', id) ensures Due(s'.policies[id], s'.clock) {
      assert id in PendingSet(s');
    }
    if s'.worker.Busy? && Pending(s', s'.worker.id) { assert s'.worker.id in PendingSet(s'); }
  }

  /** A reconcile of a policy that is not pending changes nothing for those that are. */
  lemma OtherWorkKeepsReady(s: State, c: Choice)
    requires Ready(s) && Enabled(s, Work(c)) && !Pending(s, s.worker.id) && Smooth(s, Work(c))
    ensures Ready(Step(s, Work(c))) && PendingSet(Step(s, Work(c))) == PendingSet(s)
  {
    var s' := Step(s, Work(c));
    var e := Decide(Seen(s), Searched(s), c);
    ApplySeen(s, e);
    ApplyWorker(s, e);
    forall id <- PendingSet(s) ensures Lookup(s'.policies, id) == Lookup(s.policies, id) {
      ApplyFrame(s, e, id);
    }
    forall id <- PendingSet(s') ensures id in PendingSet(s) {
      assert Pending(s', id);
    }
    ReadyTransfers(s, s');
  }

  lemma ApplyWorker(s: State, e: Effect)
    requires s.worker.Busy?
    ensures Apply(s, e).worker.Busy? ==> Apply(s, e).worker.id == s.worker.id
  {
  }

  lemma OutsideKeepsReady(s: State, l: Label)
    requires Ready(s) && Enabled(s, l) && !l.Work? && Smooth(s, l)
    ensures Ready(Step(s, l)) && PendingSet(Step(s, l)) == PendingSet(s)
  {
    var s' := Step(s, l);
    forall id <- PendingSet(s') ensures id in PendingSet(s) {
      assert Pending(s', id);
    }
    if !l.Take? { OutsideKeepsWorker(s, l); }
    ReadyTransfers(s, s');
  }

  lemma StepKeepsReady(s: State, l: Label)
    requires Ready(s) && Enabled(s, l) && Smooth(s, l)
    ensures Ready(Step(s, l))
    ensures PendingSet(Step(s, l)) == PendingSet(s) - if Completes(s, l) then {s.worker.id} else {}
  {
    if !l.Work? { OutsideKeepsReady(s, l); }
    else if Pending(s, s.worker.id) { WorkKeepsReady(s, l.choice); }
    else { OtherWorkKeepsReady(s, l.choice); }
  }

  /** Over any smooth run the policies that are no longer pending are those whose
      resume was completed. */
  lemma {:induction false} RunKeepsReady(s: State, ls: seq<Label>)
    requires Ready(s) && Runs(s, ls) && SmoothRun(s, ls)
    ensures Ready(Final(s, ls)) && PendingSet(Final(s, ls)) == PendingSet(s) - CompletedIds(s, ls)
    decreases |ls|
  {
    if |ls| > 0 {
      StepKeepsReady(s, ls[0]);
      RunKeepsReady(Step(s, ls[0]), ls[1..]);
    }
  }

  // ---------------------------------------------------------- every fair round

  /** No pending policy comes before `id`. */
  predicate First(s: State, id: Id) {
    Pending(s, id) && forall other <- s.policies.Keys :: Pending(s, other) ==> Priority(s, id) <= Priority(s, other)
  }

  /** A pending policy of minimal effective priority is never blocked. */
  lemma FirstNotBlocked(s: State, id: Id)
    requires First(s, id)
    ensures !Blocked(s.policies, id, s.policies[id])
  {
    forall other <- s.policies.Keys | other != id ensures !HoldsBack(s.policies[other], s.policies[id]) {
      if s.policies[other].status.pendingResume { assert Pending(s, other); }
    }
  }

  lemma {:induction false} FirstExists(s: State, ids: set<Id>) returns (first: Id)
    requires ids <= PendingSet(s) && ids != {}
    ensures first in ids && forall id <- ids :: Priority(s, first) <= Priority(s, id)
    decreases |ids|
  {
    var id :| id in ids;
    first := id;
    if ids != {id} {
      var best := FirstExists(s, ids - {id});
      if Priority(s, best) < Priority(s, id) { first := best; }
    }
  }

  lemma FirstStaysFirst(s: State, l: Label, first: Id)
    requires Enabled(s, l) && Quiet(s, l) && (Pending(s, first) ==> First(s, first))
    ensures Pending(Step(s, l), first) ==> First(Step(s, l), first)
  {
    var s' := Step(s, l);
    forall other <- s'.policies.Keys | Pending(s', first) && Pending(s', other)
      ensures Priority(s', first) <= Priority(s', other)
    {
      assert Pending(s, other) && Priority(s', other) == Priority(s, other);
    }
  }

  /** `first` has been resumed or is being resumed. */
  predicate Served(s: State, first: Id) {
    Pending(s, first) ==> First(s, first) && s.worker.Busy? && s.worker.id == first
  }

  lemma StepKeepsServed(s: State, l: Label, first: Id)
    requires Ready(s) && Enabled(s, l) && Smooth(s, l) && Served(s, first)
    ensures Served(Step(s, l), first)
  {
    FirstStaysFirst(s, l, first);
    if Pending(s, first) {
      if l.Work? {
        FirstNotBlocked(s, first);
        WorkOnTheWay(s, l.choice);
      } else {
        OutsideKeepsWorker(s, l);
      }
    }
  }

  lemma {:induction false} RunKeepsServed(s: State, ls: seq<Label>, first: Id)
    requires Ready(s) && Runs(s, ls) && SmoothRun(s, ls) && Served(s, first)
    ensures Served(Final(s, ls), first)
    decreases |ls|
  {
    if |ls| > 0 {
      StepKeepsReady(s, ls[0]);
      StepKeepsServed(s, ls[0], first);
      RunKeepsServed(Step(s, ls[0]), ls[1..], first);
    }
  }

  lemma {:induction false} TakenMeansServed(s: State, ls: seq<Label>, first: Id)
    requires Ready(s) && Runs(s, ls) && SmoothRun(s, ls) && Taken(ls, first)
    requires Pending(s, first) ==> First(s, first)
    ensures Served(Final(s, ls), first)
    decreases |ls|
  {
    var l, s' := ls[0], Step(s, ls[0]);
    StepKeepsReady(s, l);
    FirstStaysFirst(s, l, first);
    if l.Take? && l.id == first && l.ok {
      RunKeepsServed(s', ls[1..], first);
    } else {
      assert ls == [l] + ls[1..];
      TakenMeansServed(s', ls[1..], first);
    }
  }

  /** A smooth run, whatever else happens in it, that takes up every pending policy
      at least once and ends with the worker at rest. */
  predicate FairRound(s: State, ls: seq<Label>) {
    && Runs(s, ls) && SmoothRun(s, ls) && Final(s, ls).worker.Resting?
    && forall id <- PendingSet(s) :: Taken(ls, id)
  }

  /** Every fair round shrinks the pending set, and by completed resumes only. */
  lemma {:induction false} RoundShrinks(s: State, ls: seq<Label>)
    requires Ready(s) && PendingSet(s) != {} && FairRound(s, ls)
    ensures PendingSet(Final(s, ls)) < PendingSet(s)
    ensures PendingSet(Final(s, ls)) == PendingSet(s) - CompletedIds(s, ls)
  {
    var first := FirstExists(s, PendingSet(s));
    RunKeepsReady(s, ls);
    TakenMeansServed(s, ls, first);
    assert first !in PendingSet(Final(s, ls));
  }

  // --------------------------------------------------- rounds one after the other

  predicate FairRounds(s: State, rounds: seq<seq<Label>>)
    decreases |rounds|
  {
    |rounds| > 0 ==> FairRound(s, rounds[0]) && FairRounds(Final(s, rounds[0]), rounds[1..])
  }

  function Join(rounds: seq<seq<Label>>): seq<Label> {
    if |rounds| == 0 then [] else rounds[0] + Join(rounds[1..])
  }

  lemma SmoothCons(s: State, l: Label, ls: seq<Label>)
    requires Enabled(s, l) && Smooth(s, l) && Runs(Step(s, l), ls) && SmoothRun(Step(s, l), ls)
    ensures Runs(s, [l] + ls) && SmoothRun(s, [l] + ls) && Final(s, [l] + ls) == Final(Step(s, l), ls)
  {
    RunCons(s, l, ls);
    assert ([l] + ls)[1..] == ls;
  }

  lemma {:induction false} SmoothConcat(s: State, ls: seq<Label>, more: seq<Label>)
    requires Runs(s, ls) && SmoothRun(s, ls) && Runs(Final(s, ls), more) && SmoothRun(Final(s, ls), more)
    ensures Runs(s, ls + more) && SmoothRun(s, ls + more) && Final(s, ls + more) == Final(Final(s, ls), more)
    decreases |ls|
  {
    if |ls| == 0 {
      assert ls + more == more;
    } else {
      var l, rest := ls[0], ls[1..];
      Uncons(ls, more);
      SmoothConcat(Step(s, l), rest, more);
      SmoothCons(s, l, rest + more);
    }
  }

  lemma {:induction false} RoundsEmpty(s: State, rounds: seq<seq<Label>>)
    requires Ready(s) && FairRounds(s, rounds) && |rounds| >= |PendingSet(s)|
    ensures Runs(s, Join(rounds)) && SmoothRun(s, Join(rounds)) && PendingSet(Final(s, Join(rounds))) == {}
    decreases |rounds|
  {
    if |rounds| > 0 {
      var t := Final(s, rounds[0]);
      RunKeepsReady(s, rounds[0]);
      if PendingSet(s) != {} {
        RoundShrinks(s, rounds[0]);
        SmallerSet(PendingSet(t), PendingSet(s));
      }
      RoundsEmpty(t, rounds[1..]);
      SmoothConcat(s, rounds[0], Join(rounds[1..]));
    }
  }

  lemma SmallerSet(a: set<Id>, b: set<Id>)
    requires a < b
    ensures |a| < |b|
  {
    assert b == a + (b - a);
  }

  /** Every run that consists of at least as many fair rounds as policies are
      pending completes the resume of every one of them. */
  lemma EverybodyResumed(s: State, rounds: seq<seq<Label>>)
    requires Ready(s) && FairRounds(s, rounds) && |rounds| >= |PendingSet(s)|
    ensures Runs(s, Join(rounds)) && PendingSet(Final(s, Join(rounds))) == {}
    ensures PendingSet(s) <= CompletedIds(s, Join(rounds))
  {
    RoundsEmpty(s, rounds);
    RunKeepsReady(s, Join(rounds));
  }

  // ------------------------------------------------- fair rounds are possible

  /** Every pending policy has a request in the queue, a timer or the worker's attention. */
  predicate Attended(s: State) {
    forall id <- PendingSet(s) :: Woken(s, id)
  }

  predicate Calm(s: State) {
    Ready(s) && Attended(s) && s.worker.Resting?
  }

  lemma WorkIsSmooth(s: State)
    requires Ready(s) && s.worker.Busy? && Pending(s, s.worker.id)
    ensures Enabled(s, Work(SURE)) && Smooth(s, Work(SURE))
  {
    WorkOnTheWay(s, SURE);
  }

  /** The reconcile of a pending policy can be brought to its end. */
  lemma {:induction false} Finishes(s: State) returns (ls: seq<Label>)
    requires Ready(s) && Attended(s) && s.worker.Busy? && Pending(s, s.worker.id)
    ensures Runs(s, ls) && SmoothRun(s, ls) && Calm(Final(s, ls))
    ensures PendingSet(s) - {s.worker.id} <= PendingSet(Final(s, ls))
    decreases StepsToGo(s.worker.pc)
  {
    var s' := Step(s, Work(SURE));
    WorkIsSmooth(s);
    WorkOnTheWay(s, SURE);
    WorkKeepsReady(s, SURE);
    assert Attended(s');
    var rest := [];
    if s'.worker.Busy? { rest := Finishes(s'); }
    SmoothCons(s, Work(SURE), rest);
    ls := [Work(SURE)] + rest;
  }

  /** The request of a pending policy comes, by its timer if it has to. */
  lemma RequestComes(s: State, id: Id) returns (ls: seq<Label>)
    requires Calm(s) && id in PendingSet(s)
    ensures Runs(s, ls) && SmoothRun(s, ls) && Calm(Final(s, ls))
    ensures PendingSet(Final(s, ls)) == PendingSet(s) && id in Final(s, ls).queued
  {
    if id in s.queued { return []; }
    assert Woken(s, id);
    var ticks: nat := if s.timers[id] > s.clock then s.timers[id] - s.clock else 0;
    var t := Step(s, Tick(ticks));
    OutsideKeepsReady(s, Tick(ticks));
    OutsideKeepsReady(t, Fire(id));
    SmoothCons(t, Fire(id), []);
    SmoothCons(s, Tick(ticks), [Fire(id)] + []);
    ls := [Tick(ticks)] + ([Fire(id)] + []);
  }

  lemma TakeIsSmooth(s: State, id: Id)
    requires Calm(s) && id in PendingSet(s) && id in s.queued
    ensures
      var take := Take(id, true, 0);
      && Enabled(s, take) && Smooth(s, take)
      && var s' := Step(s, take);
         Ready(s') && Attended(s') && PendingSet(s') == PendingSet(s) && s'.worker.Busy? && s'.worker.id == id
  {
    OutsideKeepsReady(s, Take(id, true, 0));
  }

  lemma Visit(s: State, id: Id) returns (ls: seq<Label>)
    requires Calm(s) && id in PendingSet(s)
    ensures Runs(s, ls) && SmoothRun(s, ls) && Calm(Final(s, ls)) && Taken(ls, id)
    ensures PendingSet(s) - {id} <= PendingSet(Final(s, ls))
  {
    var before := RequestComes(s, id);
    var t, take := Final(s, before), Take(id, true, 0);
    TakeIsSmooth(t, id);
    var after := Finishes(Step(t, take));
    SmoothCons(t, take, after);
    SmoothConcat(s, before, [take] + after);
    ls := before + ([take] + after);
    assert take in ls;
  }

  lemma {:induction false} RoundFor(s: State, todo: set<Id>) returns (ls: seq<Label>)
    requires Calm(s) && todo <= PendingSet(s)
    ensures Runs(s, ls) && SmoothRun(s, ls) && Calm(Final(s, ls)) && forall id <- todo :: Taken(ls, id)
    decreases |todo|
  {
    if todo == {} { return []; }
    var id :| id in todo;
    var now := Visit(s, id);
    var rest := RoundFor(Final(s, now), todo - {id});
    SmoothConcat(s, now, rest);
    ls := now + rest;
    forall other <- todo ensures Taken(ls, other) {
      TakenInPart(now, rest, other);
    }
  }

  lemma TakenInPart(now: seq<Label>, rest: seq<Label>, id: Id)
    requires Taken(now, id) || Taken(rest, id)
    ensures Taken(now + rest, id)
  {
    var l :| (l in now || l in rest) && l.Take? && l.id == id && l.ok;
    assert l in now + rest;
  }

  /** There is no deadlock: a fair round can be run from every calm state. */
  lemma FairRoundExists(s: State) returns (ls: seq<Label>)
    requires Calm(s)
    ensures FairRound(s, ls) && Calm(Final(s, ls))
  {
    ls := RoundFor(s, PendingSet(s));
  }

  /** What the wake-up theorem contributes: a reachable state without duplicates,
      whose pending policies are due, is calm as soon as the worker is free. */
  lemma ReachableIsCalm(s: State, ls: seq<Label>)
    requires Initial(s) && Runs(s, ls) && OneFlagThroughout(s, ls)
    requires
      var t := Final(s, ls);
      && t.worker.Resting? && t.startupComplete && NoDuplicates(t.policies)
      && forall id <- t.policies.Keys :: Pending(t, id) ==>
           Due(t.policies[id], t.clock) && !EndedBy(t, id, OnConflict)
    ensures Calm(Final(s, ls))
  {
    var t := Final(s, ls);
    forall id <- PendingSet(t) ensures Woken(t, id) {
      NoLostWakeup(s, ls, id);
    }
  }
}
