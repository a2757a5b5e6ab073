/** Several policies for one namespace: the oldest keeps it. */
module Conflicts {
  import opened Options
  import opened Policies
  import opened Operator

  // ------------------------------------------------ the order of seniority

  lemma {:induction false} PrecedesTotal(a: string, b: string)
    ensures a == b || Precedes(a, b) || Precedes(b, a)
    decreases |a|
  {
    if |a| > 0 && |b| > 0 && a[0] == b[0] {
      PrecedesTotal(a[1..], b[1..]);
      assert a == [a[0]] + a[1..] && b == [b[0]] + b[1..];
    } else if |a| > 0 && |b| > 0 {
      assert a[0] < b[0] || b[0] < a[0] by { CharsCompare(a[0], b[0]); }
    }
  }

  lemma CharsCompare(x: char, y: char)
    ensures x == y || x < y || y < x
  {
    assert (x as int) as char == x && (y as int) as char == y;
    assert x as int == y as int ==> x == y;
  }

  /** The names agree up to a point where the first one ends or has the smaller character. */
  predicate SplitsAt(a: string, b: string, k: int) {
    0 <= k <= |a| && k < |b| && a[..k] == b[..k] && (k == |a| || a[k] < b[k])
  }

  lemma SplitHead(a: string, b: string, k: int)
    requires SplitsAt(a, b, k)
    ensures k == 0 || (|a| > 0 && |b| > 0 && a[0] == b[0])
  {
    if k > 0 { assert a[..k][0] == b[..k][0]; }
  }

  lemma {:induction false} PrecedesIff(a: string, b: string)
    ensures Precedes(a, b) <==> exists k :: SplitsAt(a, b, k)
    decreases |a|
  {
    if |a| == 0 || |b| == 0 || a[0] != b[0] {
      forall k | SplitsAt(a, b, k) ensures k == 0 {
        SplitHead(a, b, k);
      }
      if Precedes(a, b) { assert SplitsAt(a, b, 0); }
    } else {
      PrecedesIff(a[1..], b[1..]);
      forall k | SplitsAt(a[1..], b[1..], k) ensures SplitsAt(a, b, k + 1) {
        assert a[..k + 1] == [a[0]] + a[1..][..k] && b[..k + 1] == [b[0]] + b[1..][..k];
      }
      forall k | SplitsAt(a, b, k) ensures k > 0 && SplitsAt(a[1..], b[1..], k - 1) {
        if k > 0 {
          assert a[1..][..k - 1] == a[..k][1..] && b[1..][..k - 1] == b[..k][1..];
        }
      }
    }
  }

  lemma {:induction false} PrecedesAsymmetric(a: string, b: string)
    requires Precedes(a, b)
    ensures !Precedes(b, a)
    decreases |a|
  {
    if |a| > 0 && a[0] == b[0] { PrecedesAsymmetric(a[1..], b[1..]); }
  }

  lemma {:induction false} PrecedesTransitive(a: string, b: string, c: string)
    requires Precedes(a, b) && Precedes(b, c)
    ensures Precedes(a, c)
    decreases |a|
  {
    if |a| > 0 && a[0] == b[0] && b[0] == c[0] { PrecedesTransitive(a[1..], b[1..], c[1..]); }
  }

  predicate Distinguishable(p: Policy, q: Policy) {
    p.createdAt != q.createdAt || p.name != q.name
  }

  lemma SeniorityIsStrict(p: Policy, q: Policy)
    ensures !(Younger(p, q) && Younger(q, p))
    ensures Distinguishable(p, q) ==> Younger(p, q) || Younger(q, p)
    ensures Younger(p, q) ==> p.createdAt >= q.createdAt
  {
    if Precedes(p.name, q.name) { PrecedesAsymmetric(p.name, q.name); }
    PrecedesTotal(p.name, q.name);
  }

  lemma SeniorityTransitive(p: Policy, q: Policy, r: Policy)
    requires Younger(p, q) && Younger(q, r)
    ensures Younger(p, r)
  {
    if p.createdAt == q.createdAt == r.createdAt { PrecedesTransitive(r.name, q.name, p.name); }
  }

  predicate Oldest(policies: map<Id, Policy>, ids: set<Id>, oldest: Id)
    requires ids <= policies.Keys
  {
    oldest in ids && forall id <- ids :: id != oldest ==> Younger(policies[id], policies[oldest])
  }

  /** Any non-empty set of distinguishable policies has an oldest one. */
  lemma {:induction false} SurvivorExists(policies: map<Id, Policy>, ids: set<Id>) returns (oldest: Id)
    requires ids <= policies.Keys && ids != {}
    requires forall p, q :: p in ids && q in ids && p != q ==> Distinguishable(policies[p], policies[q])
    ensures Oldest(policies, ids, oldest)
    decreases |ids|
  {
    var id :| id in ids;
    var rest := ids - {id};
    if rest == {} {
      assert ids == {id};
      return id;
    }
    var best := SurvivorExists(policies, rest);
    SeniorityIsStrict(policies[id], policies[best]);
    if Younger(policies[id], policies[best]) {
      return best;
    }
    forall other <- ids | other != id ensures Younger(policies[other], policies[id]) {
      if other != best { SeniorityTransitive(policies[other], policies[best], policies[id]); }
    }
    return id;
  }

  // --------------------------------------------------------- over whole runs

  /** `owner` is a live, not failed policy for the namespace of `rival`, and older. */
  predicate Owns(s: State, owner: Id, rival: Id) {
    && owner != rival && owner in s.policies && rival in s.policies
    && Ousts(s.policies[owner], s.policies[rival])
  }

  predicate OwnsThroughout(s: State, ls: seq<Label>, owner: Id, rival: Id)
    requires Runs(s, ls)
    decreases |ls|
  {
    Owns(s, owner, rival) && (|ls| > 0 ==> OwnsThroughout(Step(s, ls[0]), ls[1..], owner, rival))
  }

  /** The worker does nothing for the rival but find the conflict and report it. */
  predicate KeptOut(s: State, owner: Id, rival: Id) {
    && Owns(s, owner, rival)
    && (s.worker.Busy? && s.worker.id == rival ==>
          && (s.worker.pc.CheckConflict? || s.worker.pc.WriteConflict?)
          && SameContender(s.worker.snap, s.policies[rival]))
  }

  predicate SameContender(p: Policy, q: Policy) {
    p.spec.targetNamespace == q.spec.targetNamespace && p.createdAt == q.createdAt && p.name == q.name
  }

  lemma RivalSeesConflict(s: State, owner: Id, rival: Id)
    requires KeptOut(s, owner, rival) && s.worker.Busy? && s.worker.id == rival
    ensures Searched(s).conflicted
  {
    assert Ousts(s.policies[owner], s.worker.snap);
  }

  lemma WorkKeepsOut(s: State, c: Choice, owner: Id, rival: Id)
    requires s.worker.Busy? && KeptOut(s, owner, rival)
    requires Owns(WorkStep(s, c), owner, rival)
    ensures KeptOut(WorkStep(s, c), owner, rival)
  {
    if s.worker.id == rival {
      RivalSeesConflict(s, owner, rival);
      assert WorkStep(s, c) == Apply(s, DecideFreeze(Seen(s), Searched(s), c));
    }
  }

  lemma OthersKeepOut(s: State, s': State, owner: Id, rival: Id)
    requires KeptOut(s, owner, rival) && Owns(s', owner, rival) && Untouched(s, s')
    requires s'.policies[rival].spec.targetNamespace == s.policies[rival].spec.targetNamespace
    ensures KeptOut(s', owner, rival)
  {
  }

  /** One step changes the namespace of one policy at most. */
  lemma NamespacesMoveApart(s: State, l: Label, owner: Id, rival: Id)
    requires Enabled(s, l) && !l.Work? && !l.Take? && Owns(s, owner, rival) && Owns(Step(s, l), owner, rival)
    ensures Step(s, l).policies[rival].spec.targetNamespace == s.policies[rival].spec.targetNamespace
  {
    if OfStartup(l) { StartupKeepsSpecs(s, l, rival); }
  }

  lemma StartupKeepsSpecs(s: State, l: Label, id: Id)
    requires OfStartup(l) && Enabled(s, l) && id in s.policies
    ensures id in StartupStep(s, l).policies && StartupStep(s, l).policies[id].spec == s.policies[id].spec
  {
    StartupWrites(s, l);
  }

  lemma StepKeepsOut(s: State, l: Label, owner: Id, rival: Id)
    requires Enabled(s, l) && KeptOut(s, owner, rival) && Owns(Step(s, l), owner, rival)
    ensures KeptOut(Step(s, l), owner, rival)
  {
    if l.Work? {
      WorkKeepsOut(s, l.choice, owner, rival);
    } else if !l.Take? {
      OutsideFrame(s, l);
      NamespacesMoveApart(s, l, owner, rival);
      OthersKeepOut(s, Step(s, l), owner, rival);
    }
  }

  /** While an older policy owns the namespace and has not failed, the operator
      never acts for a younger one: each of its reconciles stops at the conflict. */
  lemma {:induction false} YoungerKeptOut(s: State, ls: seq<Label>, owner: Id, rival: Id)
    requires Runs(s, ls) && OwnsThroughout(s, ls, owner, rival) && KeptOut(s, owner, rival)
    ensures KeptOut(Final(s, ls), owner, rival)
    decreases |ls|
  {
    if |ls| > 0 {
      StepKeepsOut(s, ls[0], owner, rival);
      YoungerKeptOut(Step(s, ls[0]), ls[1..], owner, rival);
    }
  }

  // ------------------------------------------------------ the younger ones fail

  predicate IsFailed(s: State, id: Id) {
    id in s.policies && s.policies[id].status.phase == Failed
  }

  /** A reconcile of `id` reports the conflict. */
  predicate Reports(s: State, l: Label, id: Id) {
    && l.Work? && l.choice.ok && s.worker.Busy? && s.worker.id == id && s.worker.pc.WriteConflict?
    && id in s.policies
  }

  /** Startup writes a new phase for `id`: a delayed or immediate freeze, or a resume flag. */
  predicate Overwrites(s: State, l: Label, id: Id)
    requires Enabled(s, l)
  {
    (l.StartupFreezeOne? || l.StartupFlagOne?) && StartupMove(s, l).id == id && StartupMove(s, l).write.Some?
  }

  /** The rival's own reconciles change its phase by a report only. */
  lemma WorkPhase(s: State, c: Choice, owner: Id, rival: Id)
    requires s.worker.Busy? && KeptOut(s, owner, rival)
    ensures IsFailed(WorkStep(s, c), rival) <==> IsFailed(s, rival) || Reports(s, Work(c), rival)
  {
    if s.worker.id == rival { assert WorkStep(s, c) == Apply(s, DecideFreeze(Seen(s), Searched(s), c)); }
  }

  lemma WorldPhase(s: State, l: Label, id: Id)
    requires OfWorld(l) && Enabled(s, l) && id in s.policies && id in WorldStep(s, l).policies
    ensures IsFailed(WorldStep(s, l), id) <==> IsFailed(s, id)
  {
  }

  lemma StartupPhase(s: State, l: Label, id: Id)
    requires OfStartup(l) && Enabled(s, l) && id in s.policies
    ensures IsFailed(StartupStep(s, l), id) <==> IsFailed(s, id) && !Overwrites(s, l, id)
  {
  }

  /** One step: a report makes the rival Failed, a write of startup undoes it, and
      nothing else changes whether it is Failed. */
  lemma StepPhase(s: State, l: Label, owner: Id, rival: Id)
    requires Enabled(s, l) && KeptOut(s, owner, rival) && rival in Step(s, l).policies
    ensures IsFailed(Step(s, l), rival) <==> (IsFailed(s, rival) || Reports(s, l, rival)) && !Overwrites(s, l, rival)
  {
    if OfStartup(l) {
      StartupPhase(s, l, rival);
      return;
    }
    assert !Overwrites(s, l, rival);
    if l.Work? { WorkPhase(s, l.choice, owner, rival); }
    else if OfWorld(l) { WorldPhase(s, l, rival); }
    else { QueuePhase(s, l, rival); }
  }

  lemma QueuePhase(s: State, l: Label, id: Id)
    requires Enabled(s, l) && (l.Take? || l.Fire? || l.Restart?)
    ensures IsFailed(Step(s, l), id) <==> IsFailed(s, id)
  {
  }

  predicate ReportedDuring(s: State, ls: seq<Label>, id: Id)
    requires Runs(s, ls)
    decreases |ls|
  {
    |ls| > 0 && (Reports(s, ls[0], id) || ReportedDuring(Step(s, ls[0]), ls[1..], id))
  }

  predicate OverwrittenDuring(s: State, ls: seq<Label>, id: Id)
    requires Runs(s, ls)
    decreases |ls|
  {
    |ls| > 0 && (Overwrites(s, ls[0], id) || OverwrittenDuring(Step(s, ls[0]), ls[1..], id))
  }

  /** Startup overwrites the phase of `id` and no report follows. */
  predicate Undone(s: State, ls: seq<Label>, id: Id)
    requires Runs(s, ls)
    decreases |ls|
  {
    && |ls| > 0
    && ((Overwrites(s, ls[0], id) && !ReportedDuring(Step(s, ls[0]), ls[1..], id)) ||
        Undone(Step(s, ls[0]), ls[1..], id))
  }

  predicate FailedThroughout(s: State, ls: seq<Label>, id: Id)
    requires Runs(s, ls)
    decreases |ls|
  {
    IsFailed(s, id) && (|ls| > 0 ==> FailedThroughout(Step(s, ls[0]), ls[1..], id))
  }

  /** In every run in which an older policy owns the namespace, through startup and
      restarts: a younger policy that is Failed stays Failed all the time if and only
      if startup does not overwrite its phase. */
  lemma {:induction false} YoungerStaysFailed(s: State, ls: seq<Label>, owner: Id, rival: Id)
    requires Runs(s, ls) && OwnsThroughout(s, ls, owner, rival) && KeptOut(s, owner, rival) && IsFailed(s, rival)
    ensures FailedThroughout(s, ls, rival) <==> !OverwrittenDuring(s, ls, rival)
    decreases |ls|
  {
    if |ls| > 0 {
      var s' := Step(s, ls[0]);
      StepKeepsOut(s, ls[0], owner, rival);
      StepPhase(s, ls[0], owner, rival);
      if IsFailed(s', rival) { YoungerStaysFailed(s', ls[1..], owner, rival); }
    }
  }

  /** And at the end of any such run it is Failed if and only if it was or has been
      reported, and the last word is not startup's. */
  lemma {:induction false} YoungerFailedIff(s: State, ls: seq<Label>, owner: Id, rival: Id)
    requires Runs(s, ls) && OwnsThroughout(s, ls, owner, rival) && KeptOut(s, owner, rival)
    ensures IsFailed(Final(s, ls), rival) <==>
      (IsFailed(s, rival) || ReportedDuring(s, ls, rival)) && !Undone(s, ls, rival)
    decreases |ls|
  {
    if |ls| > 0 {
      var s' := Step(s, ls[0]);
      StepKeepsOut(s, ls[0], owner, rival);
      StepPhase(s, ls[0], owner, rival);
      YoungerFailedIff(s', ls[1..], owner, rival);
    }
  }

  // ------------------------------------------------- a reconcile reports it

  /** No call that the worker makes for `id` fails, and no restart interrupts a reconcile of it. */
  predicate CallsSucceed(s: State, ls: seq<Label>, id: Id)
    requires Runs(s, ls)
    decreases |ls|
  {
    |ls| > 0 ==>
      && (s.worker.Busy? && s.worker.id == id ==> !ls[0].Restart? && (ls[0].Work? ==> ls[0].choice.ok))
      && CallsSucceed(Step(s, ls[0]), ls[1..], id)
  }

  lemma WorkTowardsReport(s: State, c: Choice, owner: Id, rival: Id)
    requires s.worker.Busy? && s.worker.id == rival && KeptOut(s, owner, rival) && c.ok
    ensures Reports(s, Work(c), rival) || (WorkStep(s, c).worker.Busy? && WorkStep(s, c).worker.id == rival)
  {
    RivalSeesConflict(s, owner, rival);
    assert WorkStep(s, c) == Apply(s, DecideFreeze(Seen(s), Searched(s), c));
  }

  lemma {:induction false} BusyReports(s: State, ls: seq<Label>, owner: Id, rival: Id)
    requires Runs(s, ls) && OwnsThroughout(s, ls, owner, rival) && KeptOut(s, owner, rival)
    requires CallsSucceed(s, ls, rival) && s.worker.Busy? && s.worker.id == rival
    ensures Final(s, ls).worker.Resting? ==> ReportedDuring(s, ls, rival)
    decreases |ls|
  {
    if |ls| > 0 && !Reports(s, ls[0], rival) {
      StepKeepsOut(s, ls[0], owner, rival);
      if ls[0].Work? { WorkTowardsReport(s, ls[0].choice, owner, rival); } else { OutsideKeepsWorker(s, ls[0]); }
      BusyReports(Step(s, ls[0]), ls[1..], owner, rival);
    }
  }

  lemma {:induction false} TakenReports(s: State, ls: seq<Label>, owner: Id, rival: Id)
    requires Runs(s, ls) && OwnsThroughout(s, ls, owner, rival) && KeptOut(s, owner, rival)
    requires CallsSucceed(s, ls, rival) && Taken(ls, rival)
    ensures Final(s, ls).worker.Resting? ==> ReportedDuring(s, ls, rival)
    decreases |ls|
  {
    var l, s' := ls[0], Step(s, ls[0]);
    StepKeepsOut(s, l, owner, rival);
    if l.Take? && l.id == rival && l.ok {
      BusyReports(s', ls[1..], owner, rival);
    } else {
      assert ls == [l] + ls[1..];
      TakenReports(s', ls[1..], owner, rival);
    }
  }

  /** In every run in which the younger policy is taken up and its calls succeed, during
      startup or after, it is Failed when the worker rests if and only if startup has
      not overwritten its phase after the last report. */
  lemma YoungerFails(s: State, ls: seq<Label>, owner: Id, rival: Id)
    requires Runs(s, ls) && OwnsThroughout(s, ls, owner, rival) && KeptOut(s, owner, rival)
    requires CallsSucceed(s, ls, rival) && Taken(ls, rival) && Final(s, ls).worker.Resting?
    ensures IsFailed(Final(s, ls), rival) <==> !Undone(s, ls, rival)
  {
    TakenReports(s, ls, owner, rival);
    YoungerFailedIff(s, ls, owner, rival);
  }

  // --------------------------------------------- a run that undoes a failure

  const ELDER := Policy(
    "a", 0, false, Spec("ns", Resume, "op-1", StartupIgnore, 0, 1, 0, false, false, 5, false),
    Status(Resumed, "op-1", false, None, false, None, None, None, "", false))

  /** A duplicate that an earlier process has failed. */
  const DUPLICATE := Policy(
    "b", 1, false, Spec("ns", Resume, "op-1", StartupResume, 0, 1, 0, false, false, 5, false),
    Status(Failed, "op-1", false, None, false, None, None, None, "", false))

  const CONTENDERS := map["a" := ELDER, "b" := DUPLICATE]

  const UNDO_0 := Boot(CONTENDERS, 1)
  const UNDO_1 := UNDO_0.(startup := Flagging(CONTENDERS, ["b"]))
  const UNDO_2 := Step(UNDO_1, StartupFlagOne(true, 1))

  lemma UndoScan()
    ensures Reachable(UNDO_0, UNDO_1)
  {
    assert Select(CONTENDERS, StartupFreeze) == {} && Select(CONTENDERS, StartupResume) == {"b"};
    var u := UNDO_0.(startup := Scanning(CONTENDERS));
    ReachableTwo(UNDO_0, StartupList(true), StartupGroupsDone);
    ReachableOne(u, StartupScan(None, [], ["b"]));
    ReachableOn(UNDO_0, u, UNDO_1);
  }

  /** From a start state: startup makes a failed duplicate look alive again, while the
      older policy owns the namespace. */
  lemma FailureUndone()
    ensures Initial(UNDO_0) && KeptOut(UNDO_0, "a", "b") && IsFailed(UNDO_0, "b")
    ensures Reachable(UNDO_0, UNDO_2) && Owns(UNDO_2, "a", "b") && !IsFailed(UNDO_2, "b")
  {
    UndoScan();
    ReachableOne(UNDO_1, StartupFlagOne(true, 1));
    ReachableOn(UNDO_0, UNDO_1, UNDO_2);
  }

  // ------------------------------------------------------------- the oldest

  /** Everybody else who wants the namespace is younger. */
  predicate Senior(s: State, owner: Id, namespace: string) {
    && owner in s.policies && s.policies[owner].spec.targetNamespace == namespace
    && forall id <- s.policies.Keys ::
         id != owner && s.policies[id].spec.targetNamespace == namespace ==> Younger(s.policies[id], s.policies[owner])
  }

  predicate SeniorThroughout(s: State, ls: seq<Label>, owner: Id, namespace: string)
    requires Runs(s, ls)
    decreases |ls|
  {
    Senior(s, owner, namespace) && (|ls| > 0 ==> SeniorThroughout(Step(s, ls[0]), ls[1..], owner, namespace))
  }

  predicate NeverOusted(s: State, owner: Id, namespace: string) {
    && Senior(s, owner, namespace)
    && (s.worker.Busy? && s.worker.id == owner ==>
          && !s.worker.pc.WriteConflict?
          && (s.worker.pc.CheckConflict? ==> SameContender(s.worker.snap, s.policies[owner])))
  }

  lemma WorkNeverOusts(s: State, c: Choice, owner: Id, namespace: string)
    requires s.worker.Busy? && NeverOusted(s, owner, namespace) && Senior(WorkStep(s, c), owner, namespace)
    ensures NeverOusted(WorkStep(s, c), owner, namespace)
  {
    if s.worker.id == owner {
      var e := Decide(Seen(s), Searched(s), c);
      if s.worker.pc.CheckConflict? {
        forall id <- s.policies.Keys | id != owner ensures !Ousts(s.policies[id], s.worker.snap) {
          SeniorityIsStrict(s.policies[id], s.worker.snap);
        }
        assert !Searched(s).conflicted;
      }
      OnlyCheckFindsConflict(Seen(s), Searched(s), c);
    }
  }

  lemma OnlyCheckFindsConflict(v: View, q: Search, c: Choice)
    ensures
      var next := Decide(v, q, c).next;
      && (next.Go? && next.pc.WriteConflict? ==> v.pc.CheckConflict? && q.conflicted)
      && (next.Go? ==> !next.pc.CheckConflict?)
      && (next.Reload? ==> !next.pc.WriteConflict? && !next.pc.CheckConflict?)
  {
  }

  lemma StepNeverOusts(s: State, l: Label, owner: Id, namespace: string)
    requires Enabled(s, l) && NeverOusted(s, owner, namespace) && Senior(Step(s, l), owner, namespace)
    ensures NeverOusted(Step(s, l), owner, namespace)
  {
    if l.Work? { WorkNeverOusts(s, l.choice, owner, namespace); }
    else if !l.Take? { OutsideFrame(s, l); }
  }

  /** The oldest policy of a namespace is never failed for a conflict. */
  lemma {:induction false} OldestNeverOusted(s: State, ls: seq<Label>, owner: Id, namespace: string)
    requires Runs(s, ls) && SeniorThroughout(s, ls, owner, namespace) && NeverOusted(s, owner, namespace)
    ensures NeverOusted(Final(s, ls), owner, namespace)
    decreases |ls|
  {
    if |ls| > 0 {
      StepNeverOusts(s, ls[0], owner, namespace);
      OldestNeverOusted(Step(s, ls[0]), ls[1..], owner, namespace);
    }
  }
}
