/** Operation ids: a manual operation is carried out at most once, and an id is
    only recorded as handled by a reconcile that read it. */
module Operations {
  import opened Options
  import opened Policies
  import opened Operator

  /** The step carries the manual operation `op` of `id` past its "Processing" write. */
  predicate Passes(s: State, l: Label, id: Id, op: string) {
    && l.Work? && l.choice.ok && s.worker.Busy? && s.worker.pc.Processing?
    && s.worker.id == id && id in s.policies && s.worker.snap.spec.operationId == op
  }

  function CountPasses(s: State, ls: seq<Label>, id: Id, op: string): nat
    requires Runs(s, ls)
    decreases |ls|
  {
    if |ls| == 0 then 0
    else (if Passes(s, ls[0], id, op) then 1 else 0) + CountPasses(Step(s, ls[0]), ls[1..], id, op)
  }

  /** The policy exists and asks for `op` in every state of the run. */
  predicate Asks(s: State, id: Id, op: string) {
    id in s.policies && s.policies[id].spec.operationId == op
  }

  predicate AsksThroughout(s: State, ls: seq<Label>, id: Id, op: string)
    requires Runs(s, ls)
    decreases |ls|
  {
    Asks(s, id, op) && (|ls| > 0 ==> AsksThroughout(Step(s, ls[0]), ls[1..], id, op))
  }

  /** `op` is recorded, and a reconcile in progress knows it or is the one that carries it out. */
  predicate Recorded(s: State, id: Id, op: string) {
    && Asks(s, id, op)
    && s.policies[id].status.lastHandled == op
    && (s.worker.Busy? && s.worker.id == id ==> CopyRecords(s.worker.pc, s.worker.snap, op))
  }

  predicate CopyRecords(pc: Pc, snap: Policy, op: string) {
    && snap.spec.operationId == op
    && (pc.Manual? || (snap.status.lastHandled == op && !pc.Processing? && !pc.CancelByManual? &&
                       (pc.NamespaceCheck? || pc.CheckingBranch? ==> snap.status.checking)))
  }

  predicate ViewRecords(v: View, op: string) {
    && v.latest.Some? && v.latest.value.spec.operationId == op && v.latest.value.status.lastHandled == op
    && CopyRecords(v.pc, v.snap, op)
  }

  predicate EffectRecords(v: View, e: Effect, op: string)
    requires v.latest.Some?
  {
    var latest := if e.write.Some? then e.write.value else v.latest.value;
    && latest.spec.operationId == op && latest.status.lastHandled == op
    && (e.next.Go? ==> CopyRecords(e.next.pc, v.snap, op))
    && (e.next.Reload? ==> CopyRecords(e.next.pc, latest, op))
  }

  lemma FreezeKeepsRecord(v: View, q: Search, c: Choice, op: string)
    requires op != "" && ViewRecords(v, op) && FreezePart(v.pc)
    ensures EffectRecords(v, DecideFreeze(v, q, c), op)
  {
  }

  lemma ResumeKeepsRecord(v: View, q: Search, c: Choice, op: string)
    requires op != "" && ViewRecords(v, op) && ResumePart(v.pc)
    ensures EffectRecords(v, DecideResume(v, q, c), op)
  {
  }

  lemma FailureKeepsRecord(v: View, c: Choice, op: string)
    requires op != "" && ViewRecords(v, op) && FailurePart(v.pc)
    ensures EffectRecords(v, DecideFailure(v, c), op)
  {
  }

  lemma ManualKeepsRecord(v: View, c: Choice, op: string)
    requires op != "" && ViewRecords(v, op) && ManualPart(v.pc)
    ensures EffectRecords(v, DecideManual(v, c), op)
  {
  }

  lemma DecideKeepsRecord(v: View, q: Search, c: Choice, op: string)
    requires op != "" && ViewRecords(v, op)
    ensures EffectRecords(v, Decide(v, q, c), op)
  {
    if FreezePart(v.pc) { FreezeKeepsRecord(v, q, c, op); }
    else if ResumePart(v.pc) { ResumeKeepsRecord(v, q, c, op); }
    else if FailurePart(v.pc) { FailureKeepsRecord(v, c, op); }
    else { ManualKeepsRecord(v, c, op); }
  }

  lemma ApplyKeepsRecord(s: State, e: Effect, id: Id, op: string)
    requires s.worker.Busy? && Recorded(s, id, op)
    requires s.worker.id == id ==> EffectRecords(Seen(s), e, op)
    ensures Recorded(Apply(s, e), id, op)
  {
  }

  lemma WorkKeepsRecord(s: State, c: Choice, id: Id, op: string)
    requires op != "" && s.worker.Busy? && Recorded(s, id, op)
    ensures Recorded(WorkStep(s, c), id, op)
  {
    var v, q := Seen(s), Searched(s);
    if s.worker.id == id { DecideKeepsRecord(v, q, c, op); }
    ApplyKeepsRecord(s, Decide(v, q, c), id, op);
  }

  /** A write by anybody else that leaves the id recorded. */
  lemma PutKeepsRecord(s: State, other: Id, p: Policy, id: Id, op: string)
    requires Recorded(s, id, op) && other in s.policies
    requires other == id ==> p.spec.operationId == op && p.status.lastHandled == op
    ensures Recorded(Put(s, other, p), id, op)
  {
  }

  lemma StartupKeepsRecord(s: State, l: Label, id: Id, op: string)
    requires OfStartup(l) && Enabled(s, l) && Recorded(s, id, op)
    ensures Recorded(StartupStep(s, l), id, op)
  {
    StartupWrites(s, l);
    var e := StartupMove(s, l);
    var s1 := s.(startup := e.startup, startupComplete := s.startupComplete || e.startup.Finished?);
    if e.write.Some? { PutKeepsRecord(s1, e.id, e.write.value, id, op); }
  }

  lemma WorldKeepsRecord(s: State, l: Label, id: Id, op: string)
    requires op != "" && OfWorld(l) && Enabled(s, l) && Recorded(s, id, op) && Asks(WorldStep(s, l), id, op)
    ensures Recorded(WorldStep(s, l), id, op)
  {
  }

  lemma StepKeepsRecord(s: State, l: Label, id: Id, op: string)
    requires op != "" && Enabled(s, l) && Recorded(s, id, op) && Asks(Step(s, l), id, op)
    ensures Recorded(Step(s, l), id, op)
  {
    if OfStartup(l) { StartupKeepsRecord(s, l, id, op); }
    else if OfWorld(l) { WorldKeepsRecord(s, l, id, op); }
    else if l.Work? { WorkKeepsRecord(s, l.choice, id, op); }
  }

  lemma {:induction false} RunKeepsRecord(s: State, ls: seq<Label>, id: Id, op: string)
    requires op != "" && Runs(s, ls) && AsksThroughout(s, ls, id, op) && Recorded(s, id, op)
    ensures Recorded(Final(s, ls), id, op)
    decreases |ls|
  {
    if |ls| > 0 {
      StepKeepsRecord(s, ls[0], id, op);
      RunKeepsRecord(Step(s, ls[0]), ls[1..], id, op);
    }
  }

  /** Startup's flag acknowledges the id it finds: unless a reconcile of the policy
      is already under way, that id never cancels the resume, in any continuation. */
  lemma FlagNotCancelled(s: State, l: Label, ls: seq<Label>, id: Id, op: string)
    requires op != "" && Enabled(s, l) && Asks(s, id, op) && (s.worker.Busy? ==> s.worker.id != id)
    requires OfStartup(l) && StartupMove(s, l).id == id && StartupMove(s, l).write.Some? && !l.StartupFreezeOne?
    requires Runs(Step(s, l), ls) && AsksThroughout(Step(s, l), ls, id, op)
    ensures
      var t := Final(Step(s, l), ls);
      t.worker.Busy? && t.worker.id == id ==> !t.worker.pc.CancelByManual?
  {
    assert Recorded(Step(s, l), id, op);
    RunKeepsRecord(Step(s, l), ls, id, op);
  }

  lemma {:induction false} NoMorePasses(s: State, ls: seq<Label>, id: Id, op: string)
    requires op != "" && Runs(s, ls) && AsksThroughout(s, ls, id, op) && Recorded(s, id, op)
    ensures CountPasses(s, ls, id, op) == 0
    decreases |ls|
  {
    if |ls| > 0 {
      StepKeepsRecord(s, ls[0], id, op);
      NoMorePasses(Step(s, ls[0]), ls[1..], id, op);
    }
  }

  lemma PassRecords(s: State, l: Label, id: Id, op: string)
    requires Enabled(s, l) && Passes(s, l, id, op) && Asks(s, id, op)
    ensures Recorded(Step(s, l), id, op)
  {
  }

  /** From any state whatever, while a non-empty operation id stays in the spec,
      the operation is carried past its "Processing" write at most once, whatever
      fails, restarts, is cancelled or re-flagged in between. */
  lemma {:induction false} AtMostOnce(s: State, ls: seq<Label>, id: Id, op: string)
    requires op != "" && Runs(s, ls) && AsksThroughout(s, ls, id, op)
    ensures CountPasses(s, ls, id, op) <= 1
    decreases |ls|
  {
    if |ls| > 0 {
      if Passes(s, ls[0], id, op) {
        PassRecords(s, ls[0], id, op);
        NoMorePasses(Step(s, ls[0]), ls[1..], id, op);
      } else {
        AtMostOnce(Step(s, ls[0]), ls[1..], id, op);
      }
    }
  }

  // ---------------------------------- an id that arrives during a reconcile

  /** `op` is asked for and not recorded; a reconcile in progress is carrying out another id. */
  predicate StillNew(s: State, id: Id, op: string) {
    && Asks(s, id, op) && s.policies[id].status.lastHandled != op
    && s.startup.Finished?
    && (s.worker.Busy? ==>
          s.worker.id == id && (s.worker.pc.Processing? || s.worker.pc.Manual?) && s.worker.snap.spec.operationId != op)
  }

  predicate SameReconcile(ls: seq<Label>) {
    forall l <- ls :: !l.Take? && !l.Restart?
  }

  /** The manual branch records no id but the one its copy asks for. */
  lemma ManualRecordsOwn(v: View, c: Choice)
    requires v.latest.Some? && (v.pc.Processing? || v.pc.Manual?)
    ensures
      var e := DecideManual(v, c);
      && (e.next.Exit? || e.next == Go(Manual))
      && (e.write.Some? ==>
            && e.write.value.spec == v.latest.value.spec
            && e.write.value.status.lastHandled in {v.latest.value.status.lastHandled, v.snap.spec.operationId})
  {
  }

  lemma ApplyKeepsNew(s: State, e: Effect, id: Id, op: string)
    requires s.worker.Busy? && StillNew(s, id, op)
    requires e.next.Exit? || e.next == Go(Manual)
    requires e.write.Some? ==>
      e.write.value.spec == s.policies[id].spec && e.write.value.status.lastHandled != op
    ensures StillNew(Apply(s, e), id, op)
  {
  }

  lemma WorkKeepsNew(s: State, c: Choice, id: Id, op: string)
    requires s.worker.Busy? && StillNew(s, id, op)
    ensures StillNew(WorkStep(s, c), id, op)
  {
    var e := DecideManual(Seen(s), c);
    ManualRecordsOwn(Seen(s), c);
    ApplyKeepsNew(s, e, id, op);
    assert Decide(Seen(s), Searched(s), c) == e;
  }

  lemma WorldKeepsNew(s: State, l: Label, id: Id, op: string)
    requires OfWorld(l) && Enabled(s, l) && StillNew(s, id, op) && Asks(WorldStep(s, l), id, op)
    ensures StillNew(WorldStep(s, l), id, op)
  {
  }

  lemma StepKeepsNew(s: State, l: Label, id: Id, op: string)
    requires Enabled(s, l) && !l.Take? && !l.Restart? && StillNew(s, id, op) && Asks(Step(s, l), id, op)
    ensures StillNew(Step(s, l), id, op)
  {
    if l.Work? { WorkKeepsNew(s, l.choice, id, op); } else if OfWorld(l) { WorldKeepsNew(s, l, id, op); }
  }

  /** An id that arrives while a manual reconcile is carrying out another one is
      still unhandled when that reconcile ends. */
  lemma {:induction false} NewIdNotSwallowed(s: State, ls: seq<Label>, id: Id, op: string)
    requires Runs(s, ls) && AsksThroughout(s, ls, id, op) && SameReconcile(ls) && StillNew(s, id, op)
    ensures StillNew(Final(s, ls), id, op)
    decreases |ls|
  {
    if |ls| > 0 {
      StepKeepsNew(s, ls[0], id, op);
      NewIdNotSwallowed(Step(s, ls[0]), ls[1..], id, op);
    }
  }

  /** A missing target namespace uses up the operation: the failure is recorded
      together with the id, and the policy skips it from then on. */
  lemma MissingNamespaceUsesUpId(s: State, c: Choice)
    requires s.worker.Busy? && s.worker.pc.NamespaceCheck? && c.ok && c.verdict.Wait?
    requires Asks(s, s.worker.id, s.worker.snap.spec.operationId) && s.worker.snap.spec.operationId != ""
    ensures
      var s', id := WorkStep(s, c), s.worker.id;
      && s'.worker.Resting? && id in s'.policies && s'.policies[id].status.phase == Failed
      && (!s'.policies[id].status.checking ==> ShouldSkip(s'.policies[id]))
  {
    var v := Seen(s);
    var p := Record(v.latest.value, v.snap, Failed);
    assert Decide(v, Searched(s), c) == Effect(Some(p), Exit(Done, Normal));
  }
}
