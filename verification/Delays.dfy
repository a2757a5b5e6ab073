/** Whether a delayed freeze or resume is carried out before its time, measured by the
    start that is stored when it is carried out. */
module Delays {
  import opened Options
  import opened Policies
  import opened Operator
  import opened Wakeups
  import opened Ordering
  import opened GateBypass
  import opened Acknowledgements

  datatype Timer = FreezeTimer | ResumeTimer

  function Start(timer: Timer, p: Policy): Option<nat> {
    if timer.FreezeTimer? then p.status.freezeStartedAt else p.status.resumeStartedAt
  }

  function Delay(timer: Timer, spec: Spec): int {
    if timer.FreezeTimer? then spec.freezeDelay else spec.resumeDelay
  }

  /** When the delay is over; a pending flag never lacks its start. */
  function Deadline(timer: Timer, p: Policy): int {
    (if Start(timer, p).Some? then Start(timer, p).value else 0) + Delay(timer, p.spec)
  }

  /** The step carries out a delayed freeze: the worker's policy was waiting for it, is
      Frozen and no longer waiting, and the reconcile is over. */
  predicate Freezes(s: State, l: Label)
    requires Enabled(s, l)
  {
    && l.Work? && s.worker.id in s.policies && s.policies[s.worker.id].status.pendingFreeze
    && var s' := Step(s, l);
       s'.worker.Resting? && s.worker.id in s'.policies
       && !s'.policies[s.worker.id].status.pendingFreeze && s'.policies[s.worker.id].status.phase == Frozen
  }

  /** The step carries out what the timer stands for. */
  predicate Acts(timer: Timer, s: State, l: Label)
    requires Enabled(s, l)
  {
    if timer.FreezeTimer? then Freezes(s, l) else Completes(s, l)
  }

  predicate TooEarly(timer: Timer, s: State, id: Id) {
    id in s.policies && s.clock < Deadline(timer, s.policies[id])
  }

  // --------------------------------------------------- who moves a deadline

  /** Startup starts the timer of `id` anew. */
  predicate Restarts(timer: Timer, s: State, l: Label, id: Id)
    requires Enabled(s, l)
  {
    if timer.ResumeTimer? then Acknowledges(s, l, id)
    else
      l.StartupFreezeOne? && l.id == id && s.startup.copies[id].spec.freezeDelay > 0 && StartupMove(s, l).write.Some?
  }

  predicate EditsDelay(timer: Timer, s: State, l: Label, id: Id)
    requires Enabled(s, l)
  {
    l.Edit? && l.id == id && Delay(timer, l.spec) != Delay(timer, s.policies[id].spec)
  }

  predicate MovesDeadline(timer: Timer, s: State, l: Label, id: Id)
    requires Enabled(s, l)
  {
    Restarts(timer, s, l, id) || EditsDelay(timer, s, l, id)
  }

  /** The deadline that startup or an edit has set last in the run, if any did;
      `before` is the one set before the run. */
  function Moved(timer: Timer, s: State, ls: seq<Label>, id: Id, before: Option<int>): Option<int>
    requires Runs(s, ls)
    decreases |ls|
  {
    if |ls| == 0 then before else Moved(timer, Step(s, ls[0]), ls[1..], id, MovedBy(timer, s, ls[0], id, before))
  }

  function MovedBy(timer: Timer, s: State, l: Label, id: Id, before: Option<int>): Option<int>
    requires Enabled(s, l)
  {
    if MovesDeadline(timer, s, l, id) && id in Step(s, l).policies then Some(Deadline(timer, Step(s, l).policies[id]))
    else before
  }

  // --------------------------------------------------- what a reconcile knows

  predicate SameTimer(timer: Timer, p: Policy, q: Policy) {
    Start(timer, p) == Start(timer, q) && Delay(timer, p.spec) == Delay(timer, q.spec)
  }

  /** The stored deadline is the one set last since the reconcile began, or else the
      one of the copy; a resume that is pending then has not been overlooked. */
  predicate Timed(timer: Timer, latest: Policy, pc: Pc, snap: Policy, moved: Option<int>) {
    if moved.Some? then Deadline(timer, latest) == moved.value
    else
      && SameTimer(timer, latest, snap)
      && (timer.ResumeTimer? && latest.status.pendingResume ==> KnowsFlag(pc, snap))
  }

  predicate TimedFor(timer: Timer, s: State, id: Id, moved: Option<int>) {
    s.worker.Busy? ==>
      s.worker.id == id && (id in s.policies ==> Timed(timer, s.policies[id], s.worker.pc, s.worker.snap, moved))
  }

  /** Until it ends, a reconcile starts no timer, edits nothing and flags nothing. */
  predicate KeepsTimers(v: View, e: Effect)
    requires v.latest.Some?
  {
    && (e.next.Reload? ==> e.write.None?)
    && (!e.next.Exit? && e.write.Some? ==>
          && e.write.value.spec == v.latest.value.spec
          && e.write.value.status.freezeStartedAt == v.latest.value.status.freezeStartedAt
          && e.write.value.status.resumeStartedAt == v.latest.value.status.resumeStartedAt
          && (e.write.value.status.pendingResume ==> v.latest.value.status.pendingResume))
  }

  lemma ResumeKeepsTimers(v: View, q: Search, c: Choice)
    requires v.latest.Some? && ResumePart(v.pc)
    ensures KeepsTimers(v, DecideResume(v, q, c))
  {
  }

  lemma ManualKeepsTimers(v: View, c: Choice)
    requires v.latest.Some? && ManualPart(v.pc)
    ensures KeepsTimers(v, DecideManual(v, c))
  {
  }

  lemma DecideKeepsTimers(v: View, q: Search, c: Choice)
    requires v.latest.Some?
    ensures KeepsTimers(v, Decide(v, q, c))
  {
    if ResumePart(v.pc) { ResumeKeepsTimers(v, q, c); } else if ManualPart(v.pc) { ManualKeepsTimers(v, c); }
  }

  lemma DecideTimed(timer: Timer, v: View, q: Search, c: Choice, moved: Option<int>)
    requires v.latest.Some? && Timed(timer, v.latest.value, v.pc, v.snap, moved)
    ensures
      var e := Decide(v, q, c);
      var latest := if e.write.Some? then e.write.value else v.latest.value;
      && (e.next.Go? ==> Timed(timer, latest, e.next.pc, v.snap, moved))
      && (e.next.Reload? ==> Timed(timer, latest, e.next.pc, latest, moved))
  {
    DecideKeepsTimers(v, q, c);
    if v.latest.value.status.pendingResume && KnowsFlag(v.pc, v.snap) { DecideKnowsFlag(v, q, c); }
  }

  lemma WorkTimed(timer: Timer, s: State, c: Choice, id: Id, moved: Option<int>)
    requires s.worker.Busy? && TimedFor(timer, s, id, moved)
    ensures TimedFor(timer, WorkStep(s, c), id, moved)
  {
    var e := Decide(Seen(s), Searched(s), c);
    ApplySeen(s, e);
    if id in s.policies { DecideTimed(timer, Seen(s), Searched(s), c, moved); }
  }

  /** What startup does to the timers of a policy. */
  lemma StartupTimers(timer: Timer, s: State, l: Label, id: Id)
    requires OfStartup(l) && Enabled(s, l)
    ensures
      var s' := StartupStep(s, l);
      && s'.worker == s.worker && (id in s'.policies <==> id in s.policies)
      && (id in s.policies && !Restarts(timer, s, l, id) ==>
            && SameTimer(timer, s'.policies[id], s.policies[id])
            && (timer.ResumeTimer? ==>
                  s'.policies[id].status.pendingResume == s.policies[id].status.pendingResume))
  {
  }

  lemma WorldTimers(timer: Timer, s: State, l: Label, id: Id)
    requires OfWorld(l) && Enabled(s, l) && s.worker.Busy? && s.worker.id == id
    ensures
      var s' := WorldStep(s, l);
      && s'.worker == s.worker && (id in s'.policies ==> id in s.policies)
      && (id in s'.policies && !EditsDelay(timer, s, l, id) ==>
            && SameTimer(timer, s'.policies[id], s.policies[id])
            && s'.policies[id].status.pendingResume == s.policies[id].status.pendingResume)
  {
  }

  /** A step that does not move the deadline leaves the timer alone. */
  predicate TimerKept(timer: Timer, s: State, s': State, id: Id) {
    id in s'.policies ==>
      && id in s.policies && SameTimer(timer, s'.policies[id], s.policies[id])
      && (timer.ResumeTimer? ==> s'.policies[id].status.pendingResume == s.policies[id].status.pendingResume)
  }

  lemma OutsideTimer(timer: Timer, s: State, l: Label, id: Id)
    requires Enabled(s, l) && !l.Work? && !l.Take? && s.worker.Busy? && s.worker.id == id
    ensures Step(s, l).worker == s.worker || Step(s, l).worker.Resting?
    ensures TimerKept(timer, s, Step(s, l), id) || MovesDeadline(timer, s, l, id)
  {
    if OfStartup(l) { StartupTimers(timer, s, l, id); } else if OfWorld(l) { WorldTimers(timer, s, l, id); }
  }

  lemma TimedTransfers(timer: Timer, s: State, s': State, id: Id, moved: Option<int>, moved': Option<int>)
    requires TimedFor(timer, s, id, moved) && (s'.worker == s.worker || s'.worker.Resting?)
    requires
      || (TimerKept(timer, s, s', id) && moved' == moved)
      || (id in s'.policies ==> moved' == Some(Deadline(timer, s'.policies[id])))
    ensures TimedFor(timer, s', id, moved')
  {
  }

  lemma StepTimed(timer: Timer, s: State, l: Label, id: Id, moved: Option<int>)
    requires Enabled(s, l) && !l.Take? && TimedFor(timer, s, id, moved)
    ensures TimedFor(timer, Step(s, l), id, MovedBy(timer, s, l, id, moved))
  {
    if l.Work? {
      WorkTimed(timer, s, l.choice, id, moved);
    } else if s.worker.Busy? {
      OutsideTimer(timer, s, l, id);
      TimedTransfers(timer, s, Step(s, l), id, moved, MovedBy(timer, s, l, id, moved));
    } else {
      OutsideFrame(s, l);
    }
  }

  lemma {:induction false} RunTimed(timer: Timer, s: State, ls: seq<Label>, id: Id, moved: Option<int>)
    requires Runs(s, ls) && NoneTaken(ls) && TimedFor(timer, s, id, moved)
    ensures TimedFor(timer, Final(s, ls), id, Moved(timer, s, ls, id, moved))
    decreases |ls|
  {
    if |ls| > 0 {
      StepTimed(timer, s, ls[0], id, moved);
      RunTimed(timer, Step(s, ls[0]), ls[1..], id, MovedBy(timer, s, ls[0], id, moved));
    }
  }

  /** The one write that carries out a delayed freeze. */
  lemma OneWayToFreeze(s: State, c: Choice)
    requires Invariant(s) && Enabled(s, Work(c)) && Freezes(s, Work(c))
    ensures s.worker.pc.WriteFrozen?
  {
    var e := Decide(Seen(s), Searched(s), c);
    ApplySeen(s, e);
    assert Lookup(Apply(s, e).policies, s.worker.id) == Some(Step(s, Work(c)).policies[s.worker.id]);
    OneWriteFreezes(Seen(s), Searched(s), c);
  }

  lemma OneWriteFreezes(v: View, q: Search, c: Choice)
    requires v.latest.Some? && v.latest.value.status.pendingFreeze && !v.pc.ClearFreeze?
    requires
      var e := Decide(v, q, c);
      e.next.Exit? && e.write.Some? && e.write.value.status.phase == Frozen && !e.write.value.status.pendingFreeze
    ensures v.pc.WriteFrozen?
  {
  }

  /** In every run, a reconcile that carries out a delayed freeze or completes a resume,
      by whichever branch, does so before the stored start plus the delay if and only
      if startup or an edit has set a deadline since the reconcile began and the last
      one set is not over. */
  lemma TooEarlyIff(timer: Timer, s: State, take: Label, ls: seq<Label>, t: State, l: Label)
    requires Reached(s) && take.Take? && Enabled(s, take) && NoneTaken(ls) && Reaches(Step(s, take), ls, t)
    requires Enabled(t, l) && Acts(timer, t, l)
    ensures
      var moved := Moved(timer, Step(s, take), ls, take.id, None);
      TooEarly(timer, t, take.id) <==> moved.Some? && t.clock < moved.value
  {
    RunTimed(timer, Step(s, take), ls, take.id, None);
    ReachedInvariant(s, take, ls, t);
    ActsInTime(timer, t, l.choice, take.id, Moved(timer, Step(s, take), ls, take.id, None));
  }

  lemma ActsInTime(timer: Timer, t: State, c: Choice, id: Id, moved: Option<int>)
    requires Invariant(t) && Enabled(t, Work(c)) && Acts(timer, t, Work(c)) && TimedFor(timer, t, id, moved)
    ensures TooEarly(timer, t, id) <==> moved.Some? && t.clock < moved.value
  {
    if timer.FreezeTimer? { OneWayToFreeze(t, c); } else { TwoWaysToComplete(t, c); }
  }

  predicate EditedDuring(timer: Timer, s: State, ls: seq<Label>, id: Id)
    requires Runs(s, ls)
    decreases |ls|
  {
    |ls| > 0 && (EditsDelay(timer, s, ls[0], id) || EditedDuring(timer, Step(s, ls[0]), ls[1..], id))
  }

  lemma FinishedStays(s: State, l: Label)
    requires Enabled(s, l) && s.startup.Finished? && !l.Restart?
    ensures !OfStartup(l) && Step(s, l).startup.Finished?
  {
    if OfWorld(l) { WorldStaysFinished(s, l); }
  }

  lemma WorldStaysFinished(s: State, l: Label)
    requires OfWorld(l) && Enabled(s, l)
    ensures WorldStep(s, l).startup == s.startup
  {
  }

  lemma {:induction false} NothingMoved(timer: Timer, s: State, ls: seq<Label>, id: Id)
    requires Runs(s, ls) && NoneTaken(ls) && s.startup.Finished? && !EditedDuring(timer, s, ls, id)
    requires Final(s, ls).worker.Busy?
    ensures Moved(timer, s, ls, id, None) == None
    decreases |ls|
  {
    if |ls| > 0 {
      if ls[0].Restart? { RestsOn(Step(s, ls[0]), ls[1..]); }
      FinishedStays(s, ls[0]);
      NothingMoved(timer, Step(s, ls[0]), ls[1..], id);
    }
  }

  /** A reconcile that begins after startup, and during which the delay is not edited,
      is never too early. */
  lemma OnTimeAfterStartup(timer: Timer, s: State, take: Label, ls: seq<Label>, t: State, l: Label)
    requires Reached(s) && take.Take? && Enabled(s, take) && NoneTaken(ls) && Reaches(Step(s, take), ls, t)
    requires s.startup.Finished? && !EditedDuring(timer, Step(s, take), ls, take.id)
    requires Enabled(t, l) && Acts(timer, t, l)
    ensures !TooEarly(timer, t, take.id)
  {
    TooEarlyIff(timer, s, take, ls, t, l);
    NothingMoved(timer, Step(s, take), ls, take.id);
  }

  // ------------------------------------------------------- a freeze too early

  /** A delayed freeze left over from an earlier process, long due. */
  const HURRIED := Policy(
    "a", 0, false, Spec("ns", Freeze, "op-1", StartupFreeze, 0, 1, 60, false, false, 5, false),
    Status(Idle, "op-1", false, None, true, Some(0), None, None, "", false))

  const HURRY_0 := Boot(map["a" := HURRIED], 100)
  const HURRY_1 := HURRY_0.(queued := {}, worker := Busy("a", WriteFrozen, HURRIED, false))
  const HURRY_2 := HURRY_1.(
    startup := FreezingGroups(map["a" := HURRIED], {}), queued := {"a"},
    policies := map["a" := StartupFrozen(HURRIED, HURRIED, 100)])

  lemma HurryTake()
    ensures Reachable(HURRY_0, HURRY_1)
  {
    var t := At(HURRY_1, CheckConflict);
    assert HURRY_0.queued == {"a"};
    assert Step(HURRY_0, Take("a", true, 0)) == t;
    ReachableOne(HURRY_0, Take("a", true, 0));
    assert !Conflicted(t.policies, "a", HURRIED);
    ReachableMoves(t, [CheckConflict, FreezeBranch, WriteFrozen]);
    ReachableOn(HURRY_0, t, HURRY_1);
  }

  lemma HurryStartup()
    ensures Reachable(HURRY_1, HURRY_2)
  {
    var l, m := StartupList(true), StartupFreezeOne("a", true, 100);
    var u := Step(HURRY_1, l);
    assert u.startup.freezes == {"a"} && u.startup.freezes - {"a"} == {};
    assert UpdateTriggers(HURRIED, StartupFrozen(HURRIED, HURRIED, 100));
    assert Step(u, m).policies == HURRY_2.policies && Step(u, m).queued == {"a"};
    ReachableTwo(HURRY_1, l, m);
  }

  lemma WriteFrozenFreezes(s: State)
    requires s.worker.Busy? && s.worker.pc.WriteFrozen? && s.worker.id in s.policies
    requires s.policies[s.worker.id].status.pendingFreeze
    ensures Enabled(s, Work(SURE)) && Freezes(s, Work(SURE))
  {
    var e := DecideFreeze(Seen(s), Searched(s), SURE);
    assert e == Decide(Seen(s), Searched(s), SURE);
    EndsIn(s, e);
  }

  /** From a start state: a freeze that startup has just delayed by 60 is carried out
      at once, by a reconcile that saw the old start. */
  lemma EarlyFreezeReachable()
    ensures Initial(HURRY_0) && Reachable(HURRY_0, HURRY_2)
    ensures Enabled(HURRY_2, Work(SURE)) && Acts(FreezeTimer, HURRY_2, Work(SURE))
    ensures TooEarly(FreezeTimer, HURRY_2, "a")
  {
    HurryTake();
    HurryStartup();
    ReachableOn(HURRY_0, HURRY_1, HURRY_2);
    WriteFrozenFreezes(HURRY_2);
  }

  // ------------------------------------------------------- a resume too early

  /** A delayed resume left over from an earlier process, long due. */
  const RUSHED := Policy(
    "a", 0, false, Spec("ns", Freeze, "op-1", StartupResume, 60, 1, 0, false, false, 5, false),
    Status(Frozen, "op-1", true, Some(0), false, None, None, None, "", false))

  const RUSH_COPIES := map["a" := RUSHED]

  const RUSH_0 := Boot(RUSH_COPIES, 100)
  const RUSH_1 := RUSH_0.(queued := {}, worker := Busy("a", ResumeBranch, RUSHED, false))
  const RUSH_2 := RUSH_1.(startup := Flagging(RUSH_COPIES, ["a"]))
  const RUSH_3 := RUSH_2.(
    startup := Flagging(RUSH_COPIES, []), queued := {"a"}, policies := map["a" := StartupPending(RUSHED, 100)])
  const RUSH_4 := RUSH_3.(startup := Finished, startupComplete := true)
  const RUSH_5 := At(RUSH_4, WriteResumed)

  lemma RushTake()
    ensures Reachable(RUSH_0, RUSH_1)
  {
    var t := At(RUSH_1, CheckConflict);
    assert RUSH_0.queued == {"a"};
    assert Step(RUSH_0, Take("a", true, 0)) == t;
    ReachableOne(RUSH_0, Take("a", true, 0));
    assert !Conflicted(t.policies, "a", RUSHED);
    ReachableMoves(t, [CheckConflict, FreezeBranch, ResumeBranch]);
    ReachableOn(RUSH_0, t, RUSH_1);
  }

  lemma RushScan()
    ensures Reachable(RUSH_1, RUSH_2)
  {
    assert Select(RUSH_COPIES, StartupFreeze) == {} && Select(RUSH_COPIES, StartupResume) == {"a"};
    var u := RUSH_1.(startup := Scanning(RUSH_COPIES));
    ReachableTwo(RUSH_1, StartupList(true), StartupGroupsDone);
    ReachableOne(u, StartupScan(None, [], ["a"]));
    ReachableOn(RUSH_1, u, RUSH_2);
  }

  lemma RushFlag()
    ensures Reachable(RUSH_2, RUSH_3)
  {
    var l, p := StartupFlagOne(true, 100), StartupPending(RUSHED, 100);
    assert RUSH_2.startup.flags[1..] == [];
    assert StartupMove(RUSH_2, l) == StartupEffect(Flagging(RUSH_COPIES, []), "a", Some(p));
    assert UpdateTriggers(RUSHED, p);
    assert Step(RUSH_2, l) == RUSH_3;
    ReachableOne(RUSH_2, l);
  }

  lemma RushOn()
    ensures Reachable(RUSH_3, RUSH_5)
  {
    ReachableTwo(RUSH_3, StartupFlagged, StartupMark);
    RushGate();
    ReachableOn(RUSH_3, RUSH_4, RUSH_5);
  }

  lemma RushGate()
    ensures Reachable(RUSH_4, RUSH_5)
  {
    assert !Blocked(RUSH_4.policies, "a", RUSHED);
    ReachableMoves(RUSH_4, [ResumeBranch, Gate, DelayCheck, PreCheck, ResumeWorkloads, WriteResumed]);
  }

  lemma RushReaches()
    ensures Reachable(RUSH_0, RUSH_5)
  {
    RushTake();
    RushScan();
    ReachableOn(RUSH_0, RUSH_1, RUSH_2);
    RushFlag();
    ReachableOn(RUSH_0, RUSH_2, RUSH_3);
    RushOn();
    ReachableOn(RUSH_0, RUSH_3, RUSH_5);
  }

  lemma WriteResumedCompletes(s: State)
    requires s.worker.Busy? && s.worker.pc.WriteResumed? && Pending(s, s.worker.id)
    ensures Enabled(s, Work(SURE)) && Completes(s, Work(SURE))
  {
    var e := DecideResume(Seen(s), Searched(s), SURE);
    assert e == Decide(Seen(s), Searched(s), SURE);
    EndsIn(s, e);
  }

  /** From a start state: a resume that startup has just delayed by 60 is completed at
      once through the gate, by a reconcile that saw the old start. */
  lemma EarlyResumeReachable()
    ensures Initial(RUSH_0) && Reachable(RUSH_0, RUSH_5)
    ensures Enabled(RUSH_5, Work(SURE)) && Acts(ResumeTimer, RUSH_5, Work(SURE))
    ensures TooEarly(ResumeTimer, RUSH_5, "a")
  {
    RushReaches();
    WriteResumedCompletes(RUSH_5);
  }

  /** The run around the gate is too early as well. */
  lemma EarlyBypassReachable()
    ensures Initial(BYPASS_0) && Reachable(BYPASS_0, BYPASS_4)
    ensures Enabled(BYPASS_4, Work(SURE)) && Acts(ResumeTimer, BYPASS_4, Work(SURE))
    ensures TooEarly(ResumeTimer, BYPASS_4, "a")
  {
    BypassReachable();
  }
}
