/** Startup acknowledges the operation ids it finds, so that they do not cancel
    the resumes it flags.  Whether that works depends on when the reconcile that
    cancels began. */
module Acknowledgements {
  import opened Options
  import opened Policies
  import opened Operator
  import opened Operations

  predicate UpToCancel(pc: Pc) {
    pc.CancelByFailure? || pc.CancelByManual? || pc.ResumeBranch? || FreezePart(pc)
  }

  predicate CopyCurrent(v: View) {
    && (v.latest.Some? && UpToCancel(v.pc) ==> v.latest.value.status.lastHandled == v.snap.status.lastHandled)
    && (v.pc.CancelByManual? ==> UnhandledOperation(v.snap))
  }

  /** Once startup is over nobody but the worker records ids, so a reconcile that
      began after startup sees the record as it is. */
  predicate RecordsCurrent(s: State) {
    && (s.startupComplete ==> s.startup.Finished?)
    && (s.worker.Busy? && s.worker.sinceStartup ==> s.startupComplete && CopyCurrent(Seen(s)))
  }

  predicate EffectCurrent(v: View, e: Effect) {
    && (e.next.Go? ==>
          CopyCurrent(v.(pc := e.next.pc, latest := if e.write.Some? && v.latest.Some? then e.write else v.latest)))
    && (e.next.Reload? ==> e.write.None? && v.latest.Some? && !e.next.pc.CancelByManual?)
  }

  lemma EarlyKeepsCurrent(v: View, q: Search, c: Choice)
    requires CopyCurrent(v) && FreezePart(v.pc)
    ensures EffectCurrent(v, DecideFreeze(v, q, c))
  {
  }

  lemma ResumeKeepsCurrent(v: View, q: Search, c: Choice)
    requires CopyCurrent(v) && ResumePart(v.pc)
    ensures EffectCurrent(v, DecideResume(v, q, c))
  {
  }

  lemma LateKeepsCurrent(v: View, q: Search, c: Choice)
    requires CopyCurrent(v) && !FreezePart(v.pc) && !ResumePart(v.pc)
    ensures EffectCurrent(v, Decide(v, q, c))
  {
  }

  lemma ApplyKeepsCurrent(s: State, e: Effect)
    requires s.worker.Busy? && RecordsCurrent(s)
    requires s.worker.sinceStartup ==> EffectCurrent(Seen(s), e)
    ensures RecordsCurrent(Apply(s, e))
  {
  }

  lemma WorkKeepsCurrent(s: State, c: Choice)
    requires s.worker.Busy? && RecordsCurrent(s)
    ensures RecordsCurrent(WorkStep(s, c))
  {
    var v, q := Seen(s), Searched(s);
    if s.worker.sinceStartup {
      if FreezePart(v.pc) { EarlyKeepsCurrent(v, q, c); }
      else if ResumePart(v.pc) { ResumeKeepsCurrent(v, q, c); }
      else { LateKeepsCurrent(v, q, c); }
    }
    ApplyKeepsCurrent(s, Decide(v, q, c));
  }

  lemma StartupKeepsCurrent(s: State, l: Label)
    requires OfStartup(l) && Enabled(s, l) && RecordsCurrent(s)
    ensures RecordsCurrent(StartupStep(s, l))
  {
  }

  lemma WorldKeepsCurrent(s: State, l: Label)
    requires OfWorld(l) && Enabled(s, l) && RecordsCurrent(s)
    ensures RecordsCurrent(WorldStep(s, l))
  {
  }

  lemma StepKeepsCurrent(s: State, l: Label)
    requires Enabled(s, l) && RecordsCurrent(s)
    ensures RecordsCurrent(Step(s, l))
  {
    if OfStartup(l) { StartupKeepsCurrent(s, l); }
    else if OfWorld(l) { WorldKeepsCurrent(s, l); }
    else if l.Work? { WorkKeepsCurrent(s, l.choice); }
  }

  lemma {:induction false} RunKeepsCurrent(s: State, ls: seq<Label>)
    requires Runs(s, ls) && RecordsCurrent(s)
    ensures RecordsCurrent(Final(s, ls))
    decreases |ls|
  {
    if |ls| > 0 {
      StepKeepsCurrent(s, ls[0]);
      RunKeepsCurrent(Step(s, ls[0]), ls[1..]);
    }
  }

  /** A reconcile that began after startup cancels a pending resume for a manual
      operation only if that operation is unhandled in the store, or the id has
      been replaced since the reconcile began. */
  lemma CancelIsGenuine(s: State, ls: seq<Label>)
    requires Initial(s) && Runs(s, ls)
    requires
      var t := Final(s, ls);
      t.worker.Busy? && t.worker.pc.CancelByManual? && t.worker.sinceStartup && t.worker.id in t.policies
    ensures
      var t := Final(s, ls);
      var latest := t.policies[t.worker.id];
      UnhandledOperation(latest) || latest.spec.operationId != t.worker.snap.spec.operationId
  {
    RunKeepsCurrent(s, ls);
  }

  // ------------------------------------------- exactly when a cancel is stale

  /** Startup writes the policy and records the id that it asks for. */
  predicate Acknowledges(s: State, l: Label, id: Id)
    requires Enabled(s, l)
  {
    OfStartup(l) && !l.StartupFreezeOne? && StartupMove(s, l).id == id && StartupMove(s, l).write.Some?
  }

  predicate AcknowledgedDuring(s: State, ls: seq<Label>, id: Id)
    requires Runs(s, ls)
    decreases |ls|
  {
    |ls| > 0 && (Acknowledges(s, ls[0], id) || AcknowledgedDuring(Step(s, ls[0]), ls[1..], id))
  }

  /** The store shows the record of the copy, or `op` if startup has written it. */
  predicate Records(latest: Policy, snap: Policy, op: string, acked: bool) {
    && snap.spec.operationId == op
    && (acked ==> latest.status.lastHandled == op)
    && (!acked ==> latest.status.lastHandled == snap.status.lastHandled)
  }

  /** Up to the point where it may cancel, the reconcile of `id` knows all but what startup has acknowledged. */
  predicate Tracks(s: State, id: Id, op: string, acked: bool) {
    && Asks(s, id, op)
    && (s.worker.Busy? ==> s.worker.id == id)
    && (s.worker.Busy? && UpToCancel(s.worker.pc) ==>
          && Records(s.policies[id], s.worker.snap, op, acked)
          && (s.worker.pc.CancelByManual? ==> UnhandledOperation(s.worker.snap)))
  }

  lemma DecideUpToCancel(v: View, q: Search, c: Choice)
    requires v.latest.Some?
    ensures
      var e := Decide(v, q, c);
      && (e.next.Reload? ==> e.write.None?)
      && (!UpToCancel(v.pc) ==> (e.next.Go? || e.next.Reload? ==> !UpToCancel(e.next.pc)))
      && (UpToCancel(v.pc) && e.next.Go? ==>
            && (e.write.Some? ==> e.write.value.status.lastHandled == v.latest.value.status.lastHandled)
            && (e.next.pc.CancelByManual? ==> UnhandledOperation(v.snap)))
      && (e.next.Reload? ==> !e.next.pc.CancelByManual?)
  {
  }

  lemma WorkTracks(s: State, c: Choice, id: Id, op: string, acked: bool)
    requires s.worker.Busy? && Tracks(s, id, op, acked) && Asks(WorkStep(s, c), id, op)
    ensures Tracks(WorkStep(s, c), id, op, acked)
  {
    DecideUpToCancel(Seen(s), Searched(s), c);
  }

  lemma StartupTracks(s: State, l: Label, id: Id, op: string, acked: bool)
    requires op != "" && OfStartup(l) && Enabled(s, l) && Tracks(s, id, op, acked)
    ensures Tracks(StartupStep(s, l), id, op, acked || Acknowledges(s, l, id))
  {
    StartupWrites(s, l);
    StartupRecords(s, l, id);
  }

  lemma StartupRecords(s: State, l: Label, id: Id)
    requires OfStartup(l) && Enabled(s, l) && id in s.policies && s.policies[id].spec.operationId != ""
    ensures
      var p, s' := s.policies[id], StartupStep(s, l);
      && id in s'.policies && s'.policies[id].spec == p.spec && s'.worker == s.worker
      && s'.policies[id].status.lastHandled ==
           (if Acknowledges(s, l, id) then p.spec.operationId else p.status.lastHandled)
  {
  }

  lemma WorldTracks(s: State, l: Label, id: Id, op: string, acked: bool)
    requires OfWorld(l) && Enabled(s, l) && Tracks(s, id, op, acked) && Asks(WorldStep(s, l), id, op)
    ensures Tracks(WorldStep(s, l), id, op, acked)
  {
  }

  lemma StepTracks(s: State, l: Label, id: Id, op: string, acked: bool)
    requires op != "" && Enabled(s, l) && !l.Take? && Tracks(s, id, op, acked) && Asks(Step(s, l), id, op)
    ensures Tracks(Step(s, l), id, op, acked || Acknowledges(s, l, id))
  {
    if OfStartup(l) { StartupTracks(s, l, id, op, acked); }
    else if OfWorld(l) { WorldTracks(s, l, id, op, acked); }
    else if l.Work? { WorkTracks(s, l.choice, id, op, acked); }
  }

  lemma {:induction false} RunTracks(s: State, ls: seq<Label>, id: Id, op: string, acked: bool)
    requires op != "" && Runs(s, ls) && NoneTaken(ls) && AsksThroughout(s, ls, id, op) && Tracks(s, id, op, acked)
    ensures Tracks(Final(s, ls), id, op, acked || AcknowledgedDuring(s, ls, id))
    decreases |ls|
  {
    if |ls| > 0 {
      StepTracks(s, ls[0], id, op, acked);
      RunTracks(Step(s, ls[0]), ls[1..], id, op, acked || Acknowledges(s, ls[0], id));
    }
  }

  /** A reconcile of a policy that keeps asking for `op`, from any state and through
      any run: when it cancels a pending resume, the id is recorded in the store
      already if and only if startup acknowledged it after the reconcile began. */
  lemma CancelIsStaleIff(s: State, take: Label, ls: seq<Label>, id: Id, op: string)
    requires op != "" && take.Take? && take.ok && take.id == id && Enabled(s, take)
    requires Runs(Step(s, take), ls) && NoneTaken(ls) && AsksThroughout(Step(s, take), ls, id, op)
    requires
      var t := Final(Step(s, take), ls);
      t.worker.Busy? && t.worker.pc.CancelByManual?
    ensures
      var u := Step(s, take);
      var t := Final(u, ls);
      id in t.policies && (!UnhandledOperation(t.policies[id]) <==> AcknowledgedDuring(u, ls, id))
  {
    RunTracks(Step(s, take), ls, id, op, false);
  }

  // ------------------------------- a reconcile that began before startup ended

  /** A resume flag left over from an earlier process, and an id that process did not get to. */
  const LEFTOVER := Policy(
    "a", 0, false, Spec("ns", Freeze, "op-2", StartupResume, 0, 1, 0, false, false, 5, false),
    Status(Frozen, "op-1", true, Some(0), false, None, None, None, "", false))

  /** The same policy after startup acknowledged the id and flagged the resume. */
  const ACKNOWLEDGED := StartupPending(LEFTOVER, 0)

  const RACE_0 := Boot(map["a" := LEFTOVER], 0)
  const RACE_1 := RACE_0.(queued := {}, worker := Busy("a", FreezeBranch, LEFTOVER, false))
  const RACE_2 := RACE_1.(startup := Scanning(map["a" := LEFTOVER]))
  const RACE_SCANNED := RACE_2.(startup := Flagging(map["a" := LEFTOVER], ["a"]))
  const RACE_3 := RACE_2.(startup := Flagging(map["a" := LEFTOVER], []), policies := map["a" := ACKNOWLEDGED])
  const RACE_4 := RACE_3.(startup := Finished, startupComplete := true)
  const RACE_5 := RACE_4.(worker := Busy("a", CancelByManual, LEFTOVER, false))

  lemma RaceTake()
    ensures Reachable(RACE_0, RACE_1)
  {
    assert RACE_0.queued == {"a"};
    var t := Step(RACE_0, Take("a", true, 0));
    assert t == RACE_1.(worker := Busy("a", CheckConflict, LEFTOVER, false));
    assert !Conflicted(t.policies, "a", LEFTOVER);
    assert Step(t, Work(SURE)) == RACE_1;
    ReachableTwo(RACE_0, Take("a", true, 0), Work(SURE));
  }

  lemma RaceList()
    ensures Reachable(RACE_1, RACE_2)
  {
    assert Select(RACE_1.policies, StartupFreeze) == {};
    ReachableTwo(RACE_1, StartupList(true), StartupGroupsDone);
  }

  lemma RacePlan()
    ensures ScanPlan(map["a" := LEFTOVER], None, [], ["a"])
  {
    assert Select(map["a" := LEFTOVER], StartupResume) == {"a"};
  }

  lemma RaceScan()
    ensures Reachable(RACE_2, RACE_SCANNED)
  {
    var l := StartupScan(None, [], ["a"]);
    RacePlan();
    assert Step(RACE_2, l) == RACE_SCANNED;
    ReachableOne(RACE_2, l);
  }

  lemma RaceFlag()
    ensures Reachable(RACE_SCANNED, RACE_3)
  {
    var l := StartupFlagOne(true, 0);
    var t := Step(RACE_SCANNED, l);
    assert t.policies == map["a" := ACKNOWLEDGED] && t.startup == Flagging(map["a" := LEFTOVER], []);
    assert !UpdateTriggers(LEFTOVER, ACKNOWLEDGED);
    ReachableOne(RACE_SCANNED, l);
  }

  lemma RaceMark()
    ensures Reachable(RACE_3, RACE_4)
  {
    ReachableTwo(RACE_3, StartupFlagged, StartupMark);
  }

  lemma RaceCancel()
    ensures Reachable(RACE_4, RACE_5)
  {
    assert Step(Step(RACE_4, Work(SURE)), Work(SURE)) == RACE_5;
    ReachableTwo(RACE_4, Work(SURE), Work(SURE));
  }

  lemma RaceEnds()
    ensures RACE_5.worker.pc.CancelByManual? && !UnhandledOperation(RACE_5.policies["a"])
    ensures RACE_5.policies["a"].spec == RACE_5.worker.snap.spec
    ensures !Step(RACE_5, Work(SURE)).policies["a"].status.pendingResume
  {
    var e := DecideResume(Seen(RACE_5), Searched(RACE_5), SURE);
    assert e == WriteThen(WithPending(ACKNOWLEDGED, false), Go(RefetchByManual));
    assert Step(RACE_5, Work(SURE)) == Apply(RACE_5, e);
  }

  /** A reconcile that read the policy before startup flagged it, and looks at the
      startup bit after, cancels the resume for an id that startup acknowledged. */
  lemma StaleCancelReachable()
    ensures Initial(RACE_0) && Reachable(RACE_0, RACE_5)
    ensures RACE_5.worker.pc.CancelByManual? && !UnhandledOperation(RACE_5.policies["a"])
    ensures RACE_5.policies["a"].spec == RACE_5.worker.snap.spec
    ensures !Step(RACE_5, Work(SURE)).policies["a"].status.pendingResume
  {
    RaceReaches();
    RaceEnds();
  }

  lemma RaceReaches()
    ensures Reachable(RACE_0, RACE_5)
  {
    RaceTake();
    RaceList();
    ReachableOn(RACE_0, RACE_1, RACE_2);
    RaceScan();
    ReachableOn(RACE_0, RACE_2, RACE_SCANNED);
    RaceFlag();
    ReachableOn(RACE_0, RACE_SCANNED, RACE_3);
    RaceMark();
    ReachableOn(RACE_0, RACE_3, RACE_4);
    RaceCancel();
    ReachableOn(RACE_0, RACE_4, RACE_5);
  }
}
