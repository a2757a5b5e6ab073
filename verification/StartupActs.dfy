/** What startup does to each policy of its list, said of the stored policy before and
    after one of its steps, and in every run from the list to the completion mark. */
module StartupActs {
  import opened Options
  import opened Policies
  import opened Operator

  /** A resume flag, the flag that comes with a node failure, or a startup freeze. */
  datatype Act = FlagAct | RecoverAct(node: string) | FreezeAct(delayed: bool)

  /** The step does this to the policy, and nothing else to it. */
  predicate Does(act: Act, s: State, l: Label, id: Id)
    requires Enabled(s, l)
  {
    && id in s.policies && id in Step(s, l).policies
    && var before, after := s.policies[id], Step(s, l).policies[id];
       var handled := if before.spec.operationId != "" then before.spec.operationId else before.status.lastHandled;
       match act
       case FlagAct =>
         && l.StartupFlagOne?
         && after == before.(status := before.status.(
              pendingResume := true, resumeStartedAt := Some(l.now), phase := Idle, lastHandled := handled))
       case RecoverAct(node) =>
         && l.StartupHandleOne?
         && after == before.(status := before.status.(
              pendingResume := true, resumeStartedAt := Some(l.handledAt), lastHandled := handled,
              failedNode := node, failureDetectedAt := Some(l.now), failureHandledAt := Some(l.handledAt)))
       case FreezeAct(delayed) =>
         && l.StartupFreezeOne? && l.id == id
         && after ==
              if delayed then
                before.(status := before.status.(pendingFreeze := true, freezeStartedAt := Some(l.now), phase := Idle))
              else before.(status := before.status.(phase := Frozen))
  }

  predicate DoneIn(act: Act, s: State, ls: seq<Label>, id: Id)
    requires Runs(s, ls)
    decreases |ls|
  {
    |ls| > 0 && (Does(act, s, ls[0], id) || DoneIn(act, Step(s, ls[0]), ls[1..], id))
  }

  /** No step of startup changes the policy. */
  predicate LeftAlone(s: State, ls: seq<Label>, id: Id)
    requires Runs(s, ls)
    decreases |ls|
  {
    |ls| > 0 ==>
      && (OfStartup(ls[0]) ==> Lookup(Step(s, ls[0]).policies, id) == Lookup(s.policies, id))
      && LeftAlone(Step(s, ls[0]), ls[1..], id)
  }

  /** The process goes on, the policy stays, startup's calls succeed, and the node scan
      finds this failed node or none. */
  predicate Succeeds(l: Label, id: Id, failed: Option<string>) {
    && !l.Restart? && !(l.Remove? && l.id == id)
    && (l.StartupFreezeOne? ==> l.ok) && (l.StartupHandleOne? ==> l.ok) && (l.StartupFlagOne? ==> l.ok)
    && (l.StartupScan? ==> l.failed == failed)
  }

  /** The failure of this node is marked handled in the copy already. */
  predicate HandledBefore(p: Policy, node: string) {
    && p.status.failedNode == node && p.status.failureHandledAt.Some?
    && (p.status.failureDetectedAt.Some? ==>
          p.status.failureHandledAt.value > p.status.failureDetectedAt.value)
  }

  /** The pre-scan takes care of this policy because of a failed node. */
  predicate ByScan(p: Policy, failed: Option<string>) {
    failed.Some? && p.spec.handleNodeFailure
  }

  /** What startup is to do with a policy of its list. */
  predicate Due(act: Act, p: Policy, failed: Option<string>) {
    match act
    case FlagAct => p.spec.startupPolicy == StartupResume && p.status.phase != Resumed && !ByScan(p, failed)
    case RecoverAct(node) =>
      p.spec.startupPolicy == StartupResume && ByScan(p, failed) && failed == Some(node) && !HandledBefore(p, node)
    case FreezeAct(delayed) => p.spec.startupPolicy == StartupFreeze && delayed == (p.spec.freezeDelay > 0)
  }

  /** As far as startup has got, this is still ahead. */
  predicate Ahead(act: Act, s: State, id: Id, failed: Option<string>) {
    && id in s.policies
    && match s.startup
       case FreezingGroups(copies, freezes) =>
         id in copies && Due(act, copies[id], failed) && (act.FreezeAct? ==> id in freezes)
       case Scanning(copies) => id in copies && Due(act, copies[id], failed) && !act.FreezeAct?
       case HandlingFailure(copies, node, failures, flags) =>
         && id in copies && Due(act, copies[id], failed) && failed == Some(node)
         && !act.FreezeAct? && (act.FlagAct? ==> id in flags) && (act.RecoverAct? ==> id in failures)
       case Flagging(copies, flags) => act.FlagAct? && id in copies && Due(act, copies[id], failed) && id in flags
       case _ => false
  }

  lemma OthersKeepStartup(s: State, l: Label)
    requires Enabled(s, l) && !OfStartup(l) && !l.Restart?
    ensures Step(s, l).startup == s.startup
  {
    if l.Work? { ApplyKeeps(s, Decide(Seen(s), Searched(s), l.choice)); }
  }

  lemma ApplyKeeps(s: State, e: Effect)
    requires s.worker.Busy?
    ensures Apply(s, e).startup == s.startup && Apply(s, e).policies.Keys == s.policies.Keys
  {
  }

  lemma PolicyStays(s: State, l: Label, id: Id)
    requires Enabled(s, l) && id in s.policies && !(l.Remove? && l.id == id)
    ensures id in Step(s, l).policies
  {
    if l.Work? { ApplyKeeps(s, Decide(Seen(s), Searched(s), l.choice)); }
  }

  lemma ListedByScan(s: State, l: Label, act: Act, id: Id, failed: Option<string>)
    requires Enabled(s, l) && l.StartupScan? && l.failed == failed && Ahead(act, s, id, failed)
    ensures Ahead(act, Step(s, l), id, failed)
  {
    var copies := s.startup.copies;
    assert id in Select(copies, StartupResume);
  }

  lemma StartupStepAhead(s: State, l: Label, act: Act, id: Id, failed: Option<string>)
    requires OfStartup(l) && Enabled(s, l) && Succeeds(l, id, failed) && Ahead(act, s, id, failed)
    ensures Does(act, s, l, id) || Ahead(act, Step(s, l), id, failed)
  {
    match l
    case StartupScan(_, _, _) => ListedByScan(s, l, act, id, failed);
    case StartupHandleOne(_, _, _) => HandleOne(s, l, act, id, failed);
    case StartupFlagOne(_, _) => FlagOne(s, l, act, id, failed);
    case _ =>
  }

  lemma HandleOne(s: State, l: Label, act: Act, id: Id, failed: Option<string>)
    requires l.StartupHandleOne? && Enabled(s, l) && Succeeds(l, id, failed) && Ahead(act, s, id, failed)
    ensures Does(act, s, l, id) || Ahead(act, Step(s, l), id, failed)
  {
    var failures := s.startup.failures;
    assert forall other <- failures :: other == failures[0] || other in failures[1..];
  }

  lemma FlagOne(s: State, l: Label, act: Act, id: Id, failed: Option<string>)
    requires l.StartupFlagOne? && Enabled(s, l) && Succeeds(l, id, failed) && Ahead(act, s, id, failed)
    ensures Does(act, s, l, id) || Ahead(act, Step(s, l), id, failed)
  {
    var flags := s.startup.flags;
    assert forall other <- flags :: other == flags[0] || other in flags[1..];
  }

  lemma StepAhead(s: State, l: Label, act: Act, id: Id, failed: Option<string>)
    requires Enabled(s, l) && Succeeds(l, id, failed) && Ahead(act, s, id, failed)
    ensures Does(act, s, l, id) || Ahead(act, Step(s, l), id, failed)
  {
    if OfStartup(l) {
      StartupStepAhead(s, l, act, id, failed);
    } else {
      OthersKeepStartup(s, l);
      PolicyStays(s, l, id);
    }
  }

  lemma {:induction false} RunDoes(s: State, ls: seq<Label>, act: Act, id: Id, failed: Option<string>)
    requires Runs(s, ls) && (forall l <- ls :: Succeeds(l, id, failed)) && Ahead(act, s, id, failed)
    ensures DoneIn(act, s, ls, id) || Ahead(act, Final(s, ls), id, failed)
    decreases |ls|
  {
    if |ls| > 0 && !Does(act, s, ls[0], id) {
      StepAhead(s, ls[0], act, id, failed);
      RunDoes(Step(s, ls[0]), ls[1..], act, id, failed);
    }
  }

  /** From the list on, `ls` leads to the completion mark. */
  predicate WholeStartup(s: State, ls: seq<Label>, id: Id, failed: Option<string>) {
    && s.startup.NotListed? && Runs(Step(s, StartupList(true)), ls)
    && (forall l <- ls :: Succeeds(l, id, failed)) && Final(Step(s, StartupList(true)), ls).startup.Finished?
  }

  /** Every listed policy that resumes at startup, is not Resumed and is not taken care of
      by the pre-scan is flagged: pending from now on, Idle, its operation recorded. */
  lemma StartupFlags(s: State, ls: seq<Label>, id: Id, failed: Option<string>)
    requires WholeStartup(s, ls, id, failed) && id in s.policies
    requires
      var p := s.policies[id];
      && p.spec.startupPolicy == StartupResume && p.status.phase != Resumed
      && (failed.None? || !p.spec.handleNodeFailure)
    ensures DoneIn(FlagAct, Step(s, StartupList(true)), ls, id)
  {
    RunDoes(Step(s, StartupList(true)), ls, FlagAct, id, failed);
  }

  /** With a failed node, every listed policy that resumes at startup and handles node
      failures is flagged with the failure noted and handled, unless the failure of this
      node has been handled since it was detected. */
  lemma StartupRecovers(s: State, ls: seq<Label>, id: Id, node: string)
    requires WholeStartup(s, ls, id, Some(node)) && id in s.policies
    requires
      var p := s.policies[id];
      && p.spec.startupPolicy == StartupResume && p.spec.handleNodeFailure
      && !(p.status.failedNode == node && p.status.failureHandledAt.Some? &&
           (p.status.failureDetectedAt.Some? ==>
              p.status.failureHandledAt.value > p.status.failureDetectedAt.value))
    ensures DoneIn(RecoverAct(node), Step(s, StartupList(true)), ls, id)
  {
    RunDoes(Step(s, StartupList(true)), ls, RecoverAct(node), id, Some(node));
  }

  /** Every listed policy that freezes at startup is Frozen, or pending with its start
      time if it has a delay. */
  lemma StartupFreezes(s: State, ls: seq<Label>, id: Id, failed: Option<string>)
    requires WholeStartup(s, ls, id, failed) && id in s.policies
    requires s.policies[id].spec.startupPolicy == StartupFreeze
    ensures DoneIn(FreezeAct(s.policies[id].spec.freezeDelay > 0), Step(s, StartupList(true)), ls, id)
  {
    var u := Step(s, StartupList(true));
    assert id in u.startup.freezes;
    RunDoes(u, ls, FreezeAct(s.policies[id].spec.freezeDelay > 0), id, failed);
  }

  // ------------------------------------------------------------- and to no other

  /** Startup has nothing to do with this policy. */
  predicate Exempt(p: Policy, failed: Option<string>) {
    || p.spec.startupPolicy == StartupIgnore
    || (p.spec.startupPolicy == StartupResume &&
        if ByScan(p, failed) then HandledBefore(p, failed.value) else p.status.phase == Resumed)
  }

  predicate Resumes(p: Policy) {
    p.spec.startupPolicy == StartupResume
  }

  predicate Spared(s: State, id: Id, failed: Option<string>) {
    match s.startup
    case NotListed => false
    case FreezingGroups(copies, freezes) => (id in copies ==> Exempt(copies[id], failed)) && id !in freezes
    case Scanning(copies) => id in copies ==> Exempt(copies[id], failed)
    case HandlingFailure(copies, node, failures, flags) =>
      && failed == Some(node) && (id in copies ==> Exempt(copies[id], failed))
      && (id in failures ==> id in copies && Resumes(copies[id]) && ByScan(copies[id], failed))
      && (id in flags ==> id in copies && Resumes(copies[id]) && !ByScan(copies[id], failed))
    case Flagging(copies, flags) =>
      && (id in copies ==> Exempt(copies[id], failed))
      && (id in flags ==> id in copies && Resumes(copies[id]) && !ByScan(copies[id], failed))
    case _ => true
  }

  lemma ScanSpares(s: State, l: Label, id: Id, failed: Option<string>)
    requires l.StartupScan? && Enabled(s, l) && l.failed == failed && Spared(s, id, failed)
    ensures Spared(Step(s, l), id, failed)
  {
    var copies := s.startup.copies;
    if id in l.flags || id in l.failures { assert id in Select(copies, StartupResume); }
  }

  lemma StartupSpares(s: State, l: Label, id: Id, failed: Option<string>)
    requires OfStartup(l) && Enabled(s, l) && (l.StartupScan? ==> l.failed == failed) && Spared(s, id, failed)
    ensures Spared(Step(s, l), id, failed) && Lookup(Step(s, l).policies, id) == Lookup(s.policies, id)
  {
    if l.StartupScan? { ScanSpares(s, l, id, failed); }
    else if l.StartupFlagOne? || l.StartupHandleOne? { OneSpares(s, l, id, failed); }
  }

  lemma OneSpares(s: State, l: Label, id: Id, failed: Option<string>)
    requires (l.StartupFlagOne? || l.StartupHandleOne?) && Enabled(s, l) && Spared(s, id, failed)
    ensures Spared(Step(s, l), id, failed) && Lookup(Step(s, l).policies, id) == Lookup(s.policies, id)
  {
    if l.StartupFlagOne? { assert forall other <- s.startup.flags[1..] :: other in s.startup.flags; }
    else { assert forall other <- s.startup.failures[1..] :: other in s.startup.failures; }
  }

  lemma {:induction false} RunSpares(s: State, ls: seq<Label>, id: Id, failed: Option<string>)
    requires Runs(s, ls) && Spared(s, id, failed)
    requires forall l <- ls :: !l.Restart? && (l.StartupScan? ==> l.failed == failed)
    ensures LeftAlone(s, ls, id)
    decreases |ls|
  {
    if |ls| > 0 {
      if OfStartup(ls[0]) { StartupSpares(s, ls[0], id, failed); } else { OthersKeepStartup(s, ls[0]); }
      RunSpares(Step(s, ls[0]), ls[1..], id, failed);
    }
  }

  /** Startup changes no other policy: not those that ignore startup or came later, not
      Resumed ones, and not those whose failure has been handled. */
  lemma StartupLeavesAlone(s: State, ls: seq<Label>, id: Id, failed: Option<string>)
    requires s.startup.NotListed? && Runs(Step(s, StartupList(true)), ls)
    requires forall l <- ls :: !l.Restart? && (l.StartupScan? ==> l.failed == failed)
    requires id in s.policies ==> Exempt(s.policies[id], failed)
    ensures LeftAlone(Step(s, StartupList(true)), ls, id)
  {
    RunSpares(Step(s, StartupList(true)), ls, id, failed);
  }

  /** The flags left to write are in the order of effective priority. */
  predicate InOrder(s: State) {
    && (s.startup.HandlingFailure? || s.startup.Flagging? ==> Ordered(s.startup.copies, s.startup.flags))
  }

  predicate Ordered(copies: map<Id, Policy>, flags: seq<Id>) {
    forall i, j :: 0 <= i < j < |flags| && flags[i] in copies && flags[j] in copies ==>
      (if copies[flags[i]].spec.resumePriority == 0 then 100 else copies[flags[i]].spec.resumePriority) <=
      (if copies[flags[j]].spec.resumePriority == 0 then 100 else copies[flags[j]].spec.resumePriority)
  }

  lemma {:induction false} RunFlagsInOrder(s: State, ls: seq<Label>)
    requires Runs(s, ls) && InOrder(s)
    ensures InOrder(Final(s, ls))
    decreases |ls|
  {
    if |ls| > 0 {
      if OfStartup(ls[0]) { StartupFlagsInOrder(s, ls[0]); }
      else if !ls[0].Restart? { OthersKeepStartup(s, ls[0]); }
      RunFlagsInOrder(Step(s, ls[0]), ls[1..]);
    }
  }

  lemma StartupFlagsInOrder(s: State, l: Label)
    requires OfStartup(l) && Enabled(s, l) && InOrder(s)
    ensures InOrder(Step(s, l))
  {
    assert StartupStep(s, l).startup == StartupMove(s, l).startup;
  }

  /** In every run the policy that startup flags next is no less urgent than any that it
      flags afterwards, by the priorities in its list, 0 counting as 100. */
  lemma FlagsInPriorityOrder(s: State, ls: seq<Label>, i: nat)
    requires Initial(s) && Runs(s, ls) && Final(s, ls).startup.Flagging? && 0 < i < |Final(s, ls).startup.flags|
    ensures
      var Flagging(copies, flags) := Final(s, ls).startup;
      flags[0] in copies && flags[i] in copies ==>
        (if copies[flags[0]].spec.resumePriority == 0 then 100 else copies[flags[0]].spec.resumePriority) <=
        (if copies[flags[i]].spec.resumePriority == 0 then 100 else copies[flags[i]].spec.resumePriority)
  {
    RunFlagsInOrder(s, ls);
  }
}
