/** The throttled resume: a loop over the workloads in batches, with pauses while a
    node is not ready, and a look for a manual override before every workload. */
module ThrottledResume {
  import opened Options
  import opened Decimal
  import Policies
  import Workloads
  import opened NodeFailure
  import opened Namespaces
  import opened Throttling

  /** What the outside answers at the k-th interaction: the time it takes, whether
      the context is cancelled, the policy fetched (if the fetch succeeds), the
      state of the checks, and whether the calls that resume a workload succeed. */
  datatype Answer = Answer(
    lag: nat, cancelled: bool, latest: Option<Policies.Policy>, probe: Signal -> Probe, resumes: bool)

  /** Any history whatever. */
  type World = nat -> Answer

  datatype Outcome = Success | Aborted | Cancelled | SignalsUnavailable | NodesTimeout | ResumeFailed | SlicePanic

  /** checkManualOverride on the fetched policy; `mine` is the copy the resume began with. */
  method CheckManualOverride(latest: Policies.Policy, mine: Policies.Policy, startup: bool) returns (shouldAbort: bool)
    ensures shouldAbort == Policies.Overridden(latest, mine, startup)
    ensures shouldAbort <==>
      || (&& latest.spec.operationId !in {"", latest.status.lastHandled, mine.spec.operationId}
          && (startup ==> latest.status.lastHandled != ""))
      || (!startup && latest.spec.action == Policies.Freeze)
  {
    var isManualPending := latest.spec.operationId != "" && latest.status.lastHandled != latest.spec.operationId;
    if startup && latest.status.lastHandled == "" { isManualPending := false; }
    shouldAbort := false;
    if isManualPending {
      if startup {
        if latest.spec.operationId != mine.spec.operationId { shouldAbort := true; }
      } else if latest.spec.operationId != mine.spec.operationId {
        shouldAbort := true;
      }
    }
    if !startup && latest.spec.action == Policies.Freeze && !shouldAbort { shouldAbort := true; }
  }

  /** The check at this answer ends the resume; a failed fetch does not. */
  predicate Aborts(a: Answer, mine: Policies.Policy, startup: bool) {
    a.latest.Some? && Policies.Overridden(a.latest.value, mine, startup)
  }

  // ------------------------------------------------------ waiting for the nodes

  function WaitInterval(c: Config): int {
    if c.checks.Some? && c.checks.value.nodeReady.Some? && c.checks.value.nodeReady.value.waitInterval > 0
    then c.checks.value.nodeReady.value.waitInterval else 20
  }

  function MaxWait(c: Config): int {
    if c.checks.Some? && c.checks.value.nodeReady.Some? && c.checks.value.nodeReady.value.maxWaitTime > 0
    then c.checks.value.nodeReady.value.maxWaitTime else 1800
  }

  /** Every 20 seconds for half an hour, unless the check says otherwise. */
  lemma NodeWaitDefaults(c: Config)
    ensures c.checks.None? || c.checks.value.nodeReady.None? ==> WaitInterval(c) == 20 && MaxWait(c) == 1800
    ensures c.checks.Some? && c.checks.value.nodeReady.Some? ==>
      var check := c.checks.value.nodeReady.value;
      && (check.waitInterval <= 0 ==> WaitInterval(c) == 20) && (check.maxWaitTime <= 0 ==> MaxWait(c) == 1800)
      && (check.waitInterval > 0 ==> WaitInterval(c) == check.waitInterval)
      && (check.maxWaitTime > 0 ==> MaxWait(c) == check.maxWaitTime)
  {
  }

  function Later(a: int, b: int): int { if a < b then b else a }

  /** Some enabled check fails at this answer. */
  ghost predicate ProbesFail(c: Config, a: Answer) {
    exists s :: Enabled(c, s) && a.probe(s).ProbeFails?
  }

  /** A node is not ready at this answer. */
  predicate NotReady(c: Config, a: Answer) {
    Enabled(c, NodeNotReady) && a.probe(NodeNotReady).Raised?
  }

  /** The signals are those of this answer; none, if a check fails and may. */
  ghost predicate Answered(c: Config, a: Answer, signals: set<Signal>) {
    if ProbesFail(c, a) then signals == {}
    else forall s :: s in signals <==> Enabled(c, s) && a.probe(s).Raised?
  }

  /** At this answer there is nothing to do but go on waiting. */
  ghost predicate StillDown(c: Config, a: Answer) {
    !a.cancelled && !ProbesFail(c, a) && NotReady(c, a)
  }

  /** This answer ends the wait: the nodes are ready, or a check fails and may. */
  ghost predicate Clears(c: Config, a: Answer) {
    !a.cancelled && if ProbesFail(c, a) then c.fallback else !NotReady(c, a)
  }

  /** The wait that read the answers from..to had to be given up: it was cancelled, a
      check failed and may not, or the nodes were down all the time and the limit has passed. */
  ghost predicate GaveUp(c: Config, world: World, from: nat, to: nat, elapsed: int) {
    || (from < to && world(to - 1).cancelled)
    || (from < to && ProbesFail(c, world(to - 1)) && !c.fallback)
    || ((forall j :: from <= j < to ==> StillDown(c, world(j))) && elapsed >= MaxWait(c) * SECOND)
  }

  /** waitForSignalClear: the n-th tick comes no earlier than n intervals after the
      ticker was made.  The time limit counts from `start`. */
  method WaitForClear(c: Config, world: World, k: nat, clock: int, start: int)
    returns (cleared: bool, k': nat, clock': int)
    ensures k <= k' && clock <= clock'
    ensures forall j :: k <= j < k' - 1 ==> StillDown(c, world(j))
    ensures cleared ==> k < k' && Clears(c, world(k' - 1))
    ensures !cleared ==> GaveUp(c, world, k, k', clock' - start)
    ensures cleared ==> clock - start < MaxWait(c) * SECOND && clock + WaitInterval(c) * SECOND <= clock'
  {
    k', clock' := k, clock;
    var interval := WaitInterval(c) * SECOND;
    var elapsed := clock - start;
    var due := clock + interval;
    while elapsed < MaxWait(c) * SECOND
      invariant k <= k' && clock <= clock' && elapsed == clock' - start
      invariant clock + interval <= due <= clock' + interval
      invariant k < k' ==> clock - start < MaxWait(c) * SECOND
      invariant forall j :: k <= j < k' ==> StillDown(c, world(j))
      decreases start + MaxWait(c) * SECOND + interval - due
    {
      var a := world(k');
      k' := k' + 1;
      if a.cancelled { return false, k', clock'; }
      clock' := Later(clock', due) + a.lag;
      due := due + interval;
      var collected := Collect(c, a.probe);
      if collected.Unavailable? { return c.fallback, k', clock'; }
      if NodeNotReady !in collected.signals { return true, k', clock'; }
      elapsed := clock' - start;
    }
    return false, k', clock';
  }

  // ------------------------------------------------------------- one batch

  /** The interactions at which workloads were checked for an override and resumed. */
  datatype Trace = Trace(checkedAt: seq<nat>, resumedAt: seq<nat>)

  /** n workloads have been resumed before interaction k, each after a check of its
      own that did not abort. */
  predicate Ordered(t: Trace, world: World, mine: Policies.Policy, startup: bool, n: nat, k: nat) {
    && |t.checkedAt| == |t.resumedAt| == n
    && (forall i :: 0 <= i < n ==> t.checkedAt[i] < t.resumedAt[i] < k && !Aborts(world(t.checkedAt[i]), mine, startup))
    && (forall i, j :: 0 <= i < j < n ==> t.resumedAt[i] < t.checkedAt[j])
  }

  /** A check that does not abort, and the resume that follows it. */
  lemma OrderedNext(t: Trace, world: World, mine: Policies.Policy, startup: bool, n: nat, k: nat)
    requires Ordered(t, world, mine, startup, n, k) && !Aborts(world(k), mine, startup)
    ensures Ordered(Trace(t.checkedAt + [k], t.resumedAt + [k + 1]), world, mine, startup, n + 1, k + 2)
    ensures Ordered(t, world, mine, startup, n, k + 2)
  {
  }

  lemma OrderedLater(t: Trace, world: World, mine: Policies.Policy, startup: bool, n: nat, k: nat, k': nat)
    requires Ordered(t, world, mine, startup, n, k) && k <= k'
    ensures Ordered(t, world, mine, startup, n, k')
  {
  }

  /** One workload: look for an override, then resume it with its listed copy. */
  method ResumeNextOne(ns: Namespace, uid: Uid, listed: Store, world: World, mine: Policies.Policy, startup: bool,
                       k: nat, clock: int)
    returns (stopped: Option<Outcome>, k': nat, clock': int)
    requires uid in listed
    modifies ns
    ensures k < k' <= k + 2 && clock <= clock'
    ensures stopped.None? ==> k' == k + 2 && !Aborts(world(k), mine, startup)
    ensures stopped.None? ==> Succeeds(listed[uid], true, uid in old(ns.workloads))
    ensures ns.workloads == if stopped.None? && uid in old(ns.workloads)
      then old(ns.workloads)[uid := ResumedWith(listed[uid], old(ns.workloads)[uid])] else old(ns.workloads)
    ensures stopped.Some? ==>
      match stopped.value
      case Aborted => k' == k + 1 && Aborts(world(k), mine, startup)
      case ResumeFailed => k' == k + 2 && Fails(world(k + 1), listed, uid, uid in old(ns.workloads))
      case _ => false
  {
    var a := world(k);
    k', clock' := k + 1, clock + a.lag;
    if a.latest.Some? {
      var abort := CheckManualOverride(a.latest.value, mine, startup);
      if abort { return Some(Aborted), k', clock'; }
    }
    var b := world(k');
    k', clock' := k' + 1, clock' + b.lag;
    var success := ns.ResumeOne(uid, listed[uid], b.resumes);
    return if success then None else Some(ResumeFailed), k', clock';
  }

  /** One batch: every workload is checked for, resumed and logged. */
  method ResumeBatch(ns: Namespace, batch: seq<Uid>, listed: Store, world: World, mine: Policies.Policy, startup: bool,
                     k: nat, clock: int, trace: Trace, ghost before: Store, ghost done: seq<Uid>)
    returns (stopped: Option<Outcome>, log: seq<Uid>, k': nat, clock': int, trace': Trace)
    requires (forall uid <- batch :: uid in listed) && ResumedLog(before, ns.workloads, done, listed)
    requires Ordered(trace, world, mine, startup, |done|, k)
    modifies ns
    ensures k <= k' && clock <= clock' && log <= batch
    ensures ResumedLog(before, ns.workloads, done + log, listed)
    ensures Ordered(trace', world, mine, startup, |done + log|, k')
    ensures stopped.None? ==> log == batch
    ensures stopped.Some? ==> |log| < |batch| && (stopped.value.Aborted? || stopped.value.ResumeFailed?)
    ensures stopped == Some(Aborted) ==> k < k' && Aborts(world(k' - 1), mine, startup)
    ensures stopped == Some(ResumeFailed) ==>
      k < k' && Fails(world(k' - 1), listed, batch[|log|], batch[|log|] in before)
  {
    stopped, log, k', clock', trace' := None, [], k, clock, trace;
    ghost var all := done;
    for i := 0 to |batch|
      invariant stopped.None? && log == batch[..i] && all == done + log && k <= k' && clock <= clock'
      invariant ResumedLog(before, ns.workloads, all, listed)
      invariant Ordered(trace', world, mine, startup, |all|, k')
    {
      var uid, check := batch[i], k';
      ghost var now := ns.workloads;
      stopped, k', clock' := ResumeNextOne(ns, uid, listed, world, mine, startup, k', clock');
      if stopped.Some? {
        OrderedLater(trace', world, mine, startup, |all|, check, k');
        return;
      }
      ResumeNext(before, now, all, listed, uid);
      OrderedNext(trace', world, mine, startup, |all|, check);
      trace' := Trace(trace'.checkedAt + [check], trace'.resumedAt + [check + 1]);
      log, all := log + [uid], all + [uid];
    }
  }

  /** The resume of the workload fails at this answer. */
  predicate Fails(a: Answer, listed: Store, uid: Uid, present: bool) {
    uid in listed && !Succeeds(listed[uid], a.resumes, present)
  }

  // ------------------------------------------------------------- the whole loop

  /** Counters kept along the way. */
  datatype Meter = Meter(batches: nat, pauses: nat, slept: nat)

  function PerBatch(c: Config): int { 6 * Interval(c) * SECOND }

  /** Up to the last batch every batch was full; no wait follows the last one. */
  predicate BatchesMetered(m: Meter, c: Config, n: nat, total: nat) {
    if n < total then m.batches * Lowest(c) <= n && m.slept <= m.batches * PerBatch(c)
    else m.batches > 0 && (m.batches - 1) * Lowest(c) < total && m.slept <= (m.batches - 1) * PerBatch(c)
  }

  /** All pauses together share one time limit. */
  predicate PausesMetered(m: Meter, c: Config, clock: int, start: int) {
    && m.pauses * (WaitInterval(c) * SECOND) <= clock - start
    && (m.pauses > 0 ==> (m.pauses - 1) * (WaitInterval(c) * SECOND) < MaxWait(c) * SECOND)
  }

  lemma BatchCounted(m: Meter, c: Config, n: nat, size: int, total: nat, slept: int)
    requires n < total && BatchesMetered(m, c, n, total) && InRange(c, size)
    requires 0 <= slept <= PerBatch(c)
    ensures n + size >= total ==> BatchesMetered(m.(batches := m.batches + 1), c, total, total)
    ensures n + size < total ==>
      BatchesMetered(m.(batches := m.batches + 1, slept := m.slept + slept), c, n + size, total)
  {
    assert (m.batches + 1) * Lowest(c) == m.batches * Lowest(c) + Lowest(c);
    assert (m.batches + 1) * PerBatch(c) == m.batches * PerBatch(c) + PerBatch(c);
  }

  lemma PauseCounted(m: Meter, c: Config, clock: int, clock': int, start: int)
    requires PausesMetered(m, c, clock, start)
    requires clock - start < MaxWait(c) * SECOND && clock + WaitInterval(c) * SECOND <= clock'
    ensures PausesMetered(m.(pauses := m.pauses + 1), c, clock', start)
  {
    var w := WaitInterval(c) * SECOND;
    assert (m.pauses + 1) * w == m.pauses * w + w;
  }

  lemma PausesBounded(p: int, w: int, limit: int)
    requires (p - 1) * (w * SECOND) < limit * SECOND
    ensures (p - 1) * w < limit
  {
    assert (p - 1) * (w * SECOND) == ((p - 1) * w) * SECOND;
  }

  /** The end of the next batch in 32-bit arithmetic; no value when the slice that
      is taken then panics. */
  function BatchEnd(n: nat, size: int, total: nat): Option<nat> {
    var end := ToInt32(n + size);
    if end > total then Some(total) else if end < n then None else Some(end)
  }

  /** The slice panics exactly when the sum does not fit 32 bits. */
  lemma BatchEndIff(n: nat, size: int, total: nat)
    requires n < total <= INT32_MAX && 1 <= size <= INT32_MAX
    ensures BatchEnd(n, size, total).None? <==> n + size > INT32_MAX
    ensures n + size <= INT32_MAX ==> BatchEnd(n, size, total) == Some(Least(total, n + size))
  {
    if n + size <= INT32_MAX { Int32Exact(n + size); }
  }

  /** The signals are those of answer k, which was neither cancelled nor unavailable
      for good, and the override looked for before it was not there. */
  ghost predicate Collected(c: Config, world: World, mine: Policies.Policy, startup: bool, k: nat,
                            signals: set<Signal>) {
    && k > 0 && !Aborts(world(k - 1), mine, startup) && !world(k).cancelled
    && (ProbesFail(c, world(k)) ==> c.fallback) && Answered(c, world(k), signals)
  }

  /** The beginning of every round: look for an override, then collect the signals. */
  method Observe(c: Config, world: World, mine: Policies.Policy, startup: bool, k: nat, clock: int)
    returns (stopped: Option<Outcome>, signals: set<Signal>, k': nat, clock': int)
    ensures k < k' && clock <= clock' && Possible(c, signals)
    ensures stopped.None? ==> k' == k + 2 && Collected(c, world, mine, startup, k + 1, signals)
    ensures stopped.Some? ==>
      match stopped.value
      case Aborted => Aborts(world(k), mine, startup)
      case Cancelled => k' == k + 2 && world(k + 1).cancelled
      case SignalsUnavailable => k' == k + 2 && ProbesFail(c, world(k + 1)) && !c.fallback
      case _ => false
  {
    var a := world(k);
    k', clock' := k + 1, clock + a.lag;
    if a.latest.Some? {
      var abort := CheckManualOverride(a.latest.value, mine, startup);
      if abort { return Some(Aborted), {}, k', clock'; }
    }
    var b := world(k');
    k', clock' := k' + 1, clock' + b.lag;
    var collected := Collect(c, b.probe);
    if collected.Unavailable? {
      if b.cancelled { return Some(Cancelled), {}, k', clock'; }
      if !c.fallback { return Some(SignalsUnavailable), {}, k', clock'; }
      return None, {}, k', clock';
    }
    if b.cancelled { return Some(Cancelled), {}, k', clock'; }
    return None, collected.signals, k', clock';
  }

  /** How many workloads the batches of the given rounds cover; no value when the
      last of them panics. */
  function Covered(c: Config, rounds: seq<set<Signal>>, total: nat): Option<nat>
    requires forall signals <- rounds :: Possible(c, signals)
  {
    if |rounds| == 0 then Some(0)
    else
      var before := Covered(c, rounds[..|rounds| - 1], total);
      if before.None? then None else BatchEnd(before.value, SizeAfter(c, rounds), total)
  }

  lemma NextRound(c: Config, rounds: seq<set<Signal>>, signals: set<Signal>, n: nat, total: nat)
    requires (forall r <- rounds :: Possible(c, r)) && Possible(c, signals) && Covered(c, rounds, total) == Some(n)
    ensures forall r <- rounds + [signals] :: Possible(c, r)
    ensures SizeAfter(c, rounds + [signals]) == BatchSize(signals, c, SizeAfter(c, rounds))
    ensures Covered(c, rounds + [signals], total) == BatchEnd(n, SizeAfter(c, rounds + [signals]), total)
  {
    assert (rounds + [signals])[..|rounds|] == rounds;
  }

  /** What a throttled resume is called with. */
  datatype Job = Job(
    uids: seq<Uid>, listed: Store, config: Config, world: World, mine: Policies.Policy, startup: bool)

  predicate JobAdmitted(job: Job) {
    Admitted(job.config) && |job.uids| <= INT32_MAX && forall uid <- job.uids :: uid in job.listed
  }

  /** The variables of the loop.  `log` names the workloads resumed so far, `rounds`
      holds the signals of each batch and `observed` the interactions at which they
      were collected. */
  datatype Loop = Loop(
    n: nat, size: int, at: nat, clock: int, log: seq<Uid>, trace: Trace, meter: Meter, rounds: seq<set<Signal>>,
    observed: seq<nat>)

  /** The signals of the rounds are the world's answers, one after the other, from the
      first round on unless there was a pause, and there is a pause only if a node was
      not ready. */
  ghost predicate Observed(job: Job, l: Loop) {
    && |l.observed| == |l.rounds|
    && (forall i :: 0 <= i < |l.rounds| ==>
          && l.observed[i] < l.at && NodeNotReady !in l.rounds[i]
          && Collected(job.config, job.world, job.mine, job.startup, l.observed[i], l.rounds[i]))
    && (forall i, j :: 0 <= i < j < |l.observed| ==> l.observed[i] < l.observed[j])
    && (|l.rounds| > 0 && l.meter.pauses == 0 ==> l.observed[0] == 1)
    && (l.meter.pauses > 0 ==> exists j :: 0 <= j < l.at && NotReady(job.config, job.world(j)))
  }

  /** The waits after the batches of the given rounds. */
  function TotalWait(c: Config, rounds: seq<set<Signal>>): int {
    if |rounds| == 0 then 0
    else TotalWait(c, rounds[..|rounds| - 1]) + WaitDuration(rounds[|rounds| - 1], Interval(c))
  }

  /** The loop has slept after every batch but the one that was the last. */
  predicate WaitsMetered(job: Job, l: Loop) {
    && (l.n < |job.uids| ==> l.meter.slept == TotalWait(job.config, l.rounds))
    && (l.n == |job.uids| > 0 ==>
          |l.rounds| > 0 && l.meter.slept == TotalWait(job.config, l.rounds[..|l.rounds| - 1]))
  }

  /** The loop has not done anything yet, and the next answer is number `at`. */
  predicate AtFirst(l: Loop, at: nat) {
    l.rounds == [] && l.meter.pauses == 0 ==> l.at == at
  }

  /** A round begins with the answers l.at and l.at + 1. */
  lemma ObservedNext(job: Job, l: Loop, l': Loop, signals: set<Signal>)
    requires Observed(job, l) && AtFirst(l, 0) && NodeNotReady !in signals
    requires Collected(job.config, job.world, job.mine, job.startup, l.at + 1, signals)
    requires l'.rounds == l.rounds + [signals] && l'.observed == l.observed + [l.at + 1] && l'.at >= l.at + 2
    requires l'.meter.pauses == l.meter.pauses
    ensures Observed(job, l')
  {
  }

  lemma ObservedLater(job: Job, l: Loop, l': Loop)
    requires Observed(job, l) && l'.rounds == l.rounds && l'.observed == l.observed && l'.at >= l.at
    requires l'.meter.pauses == l.meter.pauses ||
      (l'.meter.pauses > l.meter.pauses && exists j :: 0 <= j < l'.at && NotReady(job.config, job.world(j)))
    ensures Observed(job, l')
  {
  }

  /** What holds of the loop's variables wherever it stops: the log is a prefix of
      the list, every resume has been checked for, and the pauses are few. */
  predicate Logged(job: Job, l: Loop) {
    && l.log <= job.uids
    && Ordered(l.trace, job.world, job.mine, job.startup, |l.log|, l.at)
    && (forall signals <- l.rounds :: Possible(job.config, signals))
    && (l.meter.pauses > 0 ==> (l.meter.pauses - 1) * WaitInterval(job.config) < MaxWait(job.config))
  }

  /** What holds at the head of the loop. */
  predicate Going(job: Job, l: Loop, start: int) {
    && Logged(job, l) && l.n == |l.log| && InRange(job.config, l.size)
    && (|job.uids| > 0 ==> BatchesMetered(l.meter, job.config, l.n, |job.uids|))
    && PausesMetered(l.meter, job.config, l.clock, start) && WaitsMetered(job, l)
    && l.size == SizeAfter(job.config, l.rounds) && Covered(job.config, l.rounds, |job.uids|) == Some(l.n)
  }

  /** Why the loop ends before its time. */
  ghost predicate EndsBy(job: Job, l: Loop, outcome: Outcome, before: Store, start: int) {
    && Logged(job, l) && |l.log| < |job.uids|
    && (outcome.SlicePanic? <==> Covered(job.config, l.rounds, |job.uids|).None?)
    && match outcome
       case Success => false
       case Aborted => exists j :: 0 <= j < l.at && Aborts(job.world(j), job.mine, job.startup)
       case ResumeFailed =>
         var uid := job.uids[|l.log|];
         exists j :: 0 <= j < l.at && Fails(job.world(j), job.listed, uid, uid in before)
       case SlicePanic => |job.uids| - 1 + Highest(job.config) > INT32_MAX
       case Cancelled => exists j :: 0 <= j < l.at && job.world(j).cancelled
       case SignalsUnavailable =>
         !job.config.fallback && exists j :: 0 <= j < l.at && ProbesFail(job.config, job.world(j))
       case NodesTimeout =>
         exists j :: 0 <= j < l.at && NotReady(job.config, job.world(j)) &&
           GaveUp(job.config, job.world, j + 1, l.at, l.clock - start)
  }

  /** Time passes. */
  lemma GoesOn(job: Job, l: Loop, start: int, at: nat, clock: int)
    requires Going(job, l, start) && l.at <= at && l.clock <= clock
    ensures Going(job, l.(at := at, clock := clock), start)
  {
  }

  /** What is logged for a batch continues the log. */
  lemma LogContinues(uids: seq<Uid>, n: nat, end: nat, part: seq<Uid>)
    requires n <= end <= |uids| && part <= uids[n..end]
    ensures uids[..n] + part == uids[..n + |part|]
    ensures |part| < end - n ==> uids[n..end][|part|] == uids[n + |part|]
  {
  }

  /** The beginning of the next batch: its size and its end. */
  method Cut(job: Job, l: Loop, signals: set<Signal>, at: nat, start: int, ghost before: Store)
    returns (end: Option<nat>, l': Loop)
    requires JobAdmitted(job) && Going(job, l, start) && l.n < |job.uids| && Possible(job.config, signals)
    ensures l' == l.(size := l'.size, rounds := l.rounds + [signals], observed := l.observed + [at])
    ensures InRange(job.config, l'.size)
    ensures (forall r <- l'.rounds :: Possible(job.config, r)) && l'.size == SizeAfter(job.config, l'.rounds)
    ensures Covered(job.config, l'.rounds, |job.uids|) == end
    ensures end.None? ==> EndsBy(job, l', SlicePanic, before, start)
    ensures end.Some? ==> l.n < end.value == Least(|job.uids|, l.n + l'.size)
  {
    var c, total := job.config, |job.uids|;
    l' := l.(size := BatchSize(signals, c, l.size), rounds := l.rounds + [signals], observed := l.observed + [at]);
    NextRound(c, l.rounds, signals, l.n, total);
    BatchSizeInRange(signals, c, l.size);
    BatchEndIff(l.n, l'.size, total);
    end := BatchEnd(l.n, l'.size, total);
  }

  /** A full batch, and the wait after it unless it was the last one. */
  function AfterBatch(job: Job, l: Loop, end: nat, clock: int, wait: int): Loop
    requires 0 <= wait
  {
    var meter := l.meter.(batches := l.meter.batches + 1);
    if end < |job.uids| then l.(n := end, clock := clock + wait, meter := meter.(slept := meter.slept + wait))
    else l.(n := end, clock := clock, meter := meter)
  }

  lemma BatchDone(job: Job, l: Loop, l': Loop, start: int, end: nat, clock: int, signals: set<Signal>)
    requires JobAdmitted(job) && Going(job, l, start) && l.n < |job.uids| && end == Least(|job.uids|, l.n + l'.size)
    requires Logged(job, l') && |l'.log| == end && InRange(job.config, l'.size) && l'.meter == l.meter
    requires l.clock <= clock
    requires l'.rounds == l.rounds + [signals] && l'.size == SizeAfter(job.config, l'.rounds)
    requires Covered(job.config, l'.rounds, |job.uids|) == Some(end)
    ensures
      var wait := WaitDuration(signals, Interval(job.config));
      0 <= wait && Going(job, AfterBatch(job, l', end, clock, wait), start)
  {
    var wait := WaitDuration(signals, Interval(job.config));
    WaitBounds(signals, Interval(job.config));
    BatchCounted(l.meter, job.config, l.n, l'.size, |job.uids|, wait);
    assert l'.rounds[..|l'.rounds| - 1] == l.rounds;
  }

  /** The loop's variables after a batch, or the part of it that was resumed. */
  lemma BatchLogged(job: Job, l: Loop, l': Loop, end: nat, part: seq<Uid>, at: nat, trace: Trace)
    requires Logged(job, l) && l.n == |l.log| <= end <= |job.uids| && part <= job.uids[l.n..end]
    requires l'.meter == l.meter && forall signals <- l'.rounds :: Possible(job.config, signals)
    requires Ordered(trace, job.world, job.mine, job.startup, |l.log + part|, at)
    ensures Logged(job, l'.(at := at, log := l.log + part, trace := trace))
    ensures |l.log + part| == l.n + |part|
    ensures |part| < end - l.n ==> job.uids[l.n..end][|part|] == job.uids[|l.log + part|]
  {
    LogContinues(job.uids, l.n, end, part);
  }

  /** The next batch and the wait after it. */
  method NextBatch(ns: Namespace, job: Job, l: Loop, signals: set<Signal>, probed: nat, start: int,
                   ghost before: Store)
    returns (stopped: Option<Outcome>, l': Loop)
    requires JobAdmitted(job) && Going(job, l, start) && l.n < |job.uids| && Possible(job.config, signals)
    requires ResumedLog(before, ns.workloads, l.log, job.listed)
    modifies ns
    ensures ResumedLog(before, ns.workloads, l'.log, job.listed)
    ensures stopped.None? ==> Going(job, l', start) && l'.n > l.n
    ensures stopped.Some? ==> EndsBy(job, l', stopped.value, before, start)
    ensures l'.rounds == l.rounds + [signals] && l'.observed == l.observed + [probed] && l'.at >= l.at
    ensures l'.meter.pauses == l.meter.pauses
  {
    var end;
    end, l' := Cut(job, l, signals, probed, start, before);
    if end.None? { return Some(SlicePanic), l'; }
    var part, at, clock, trace;
    stopped, part, at, clock, trace :=
      ResumeBatch(ns, job.uids[l.n..end.value], job.listed, job.world, job.mine, job.startup,
                  l.at, l.clock, l.trace, before, l.log);
    BatchLogged(job, l, l', end.value, part, at, trace);
    l' := l'.(at := at, log := l.log + part, trace := trace);
    if stopped.Some? { return; }
    BatchDone(job, l, l', start, end.value, clock, signals);
    l' := AfterBatch(job, l', end.value, clock, WaitDuration(signals, Interval(job.config)));
  }

  /** Waiting for the nodes. */
  method Pause(job: Job, l: Loop, start: int, ghost before: Store) returns (cleared: bool, l': Loop)
    requires JobAdmitted(job) && Going(job, l, start) && l.n < |job.uids|
    requires l.at > 0 && NotReady(job.config, job.world(l.at - 1))
    ensures cleared ==> l.at < l'.at && Clears(job.config, job.world(l'.at - 1))
    ensures l'.log == l.log && l'.n == l.n && l'.rounds == l.rounds && l'.observed == l.observed && l'.at >= l.at
    ensures l'.meter.pauses == if cleared then l.meter.pauses + 1 else l.meter.pauses
    ensures cleared ==> Going(job, l', start) && l.clock < start + MaxWait(job.config) * SECOND && l.clock < l'.clock
    ensures !cleared ==> EndsBy(job, l', NodesTimeout, before, start)
  {
    var c := job.config;
    var at, clock;
    cleared, at, clock := WaitForClear(c, job.world, l.at, l.clock, start);
    l' := l.(at := at, clock := clock);
    if !cleared { return; }
    PauseCounted(l.meter, c, l.clock, clock, start);
    PausesBounded(l.meter.pauses + 1, WaitInterval(c), MaxWait(c));
    l' := l'.(meter := l.meter.(pauses := l.meter.pauses + 1));
  }

  /** The first two answers of a round. */
  method Look(job: Job, l: Loop, start: int, ghost before: Store)
    returns (stopped: Option<Outcome>, signals: set<Signal>, l': Loop)
    requires JobAdmitted(job) && Going(job, l, start) && l.n < |job.uids|
    ensures l' == l.(at := l'.at, clock := l'.clock) && l.at < l'.at && l.clock <= l'.clock
    ensures Possible(job.config, signals) && Going(job, l', start)
    ensures stopped.Some? ==> EndsBy(job, l', stopped.value, before, start)
    ensures stopped.None? ==>
      && l'.at == l.at + 2
      && Collected(job.config, job.world, job.mine, job.startup, l.at + 1, signals)
      && (NodeNotReady in signals ==> NotReady(job.config, job.world(l.at + 1)))
  {
    var at, clock;
    stopped, signals, at, clock := Observe(job.config, job.world, job.mine, job.startup, l.at, l.clock);
    GoesOn(job, l, start, at, clock);
    l' := l.(at := at, clock := clock);
    assert stopped == Some(Aborted) ==> Aborts(job.world(l.at), job.mine, job.startup);
  }

  /** One round of the loop: a pause or a batch. */
  method Round(ns: Namespace, job: Job, l: Loop, start: int, ghost before: Store)
    returns (stopped: Option<Outcome>, l': Loop)
    requires JobAdmitted(job) && Going(job, l, start) && l.n < |job.uids|
    requires Observed(job, l) && AtFirst(l, 0)
    requires ResumedLog(before, ns.workloads, l.log, job.listed)
    modifies ns
    ensures ResumedLog(before, ns.workloads, l'.log, job.listed)
    ensures stopped.Some? ==> EndsBy(job, l', stopped.value, before, start)
    ensures stopped.None? ==> Going(job, l', start) && AtFirst(l', 0)
    ensures Observed(job, l')
    ensures stopped.None? ==>
      l'.n > l.n || (l'.n == l.n && l.clock < start + MaxWait(job.config) * SECOND && l.clock < l'.clock)
  {
    var signals;
    stopped, signals, l' := Look(job, l, start, before);
    ObservedLater(job, l, l');
    if stopped.Some? { return; }
    if NodeNotReady in signals {
      var cleared;
      cleared, l' := Pause(job, l', start, before);
      ObservedLater(job, l, l');
      if !cleared { stopped := Some(NodesTimeout); }
    } else {
      stopped, l' := NextBatch(ns, job, l', signals, l.at + 1, start, before);
      ObservedNext(job, l, l', signals);
    }
  }

  /** All workloads have been resumed. */
  predicate Finished(job: Job, l: Loop) {
    && Logged(job, l) && l.log == job.uids
    && Covered(job.config, l.rounds, |job.uids|) == Some(|job.uids|)
    && (|job.uids| > 0 ==>
          && |l.rounds| > 0 && l.meter.slept == TotalWait(job.config, l.rounds[..|l.rounds| - 1])
          && l.meter.batches > 0 && (l.meter.batches - 1) * Lowest(job.config) < |job.uids|
          && l.meter.slept <= (l.meter.batches - 1) * PerBatch(job.config))
  }

  /** resumeWithAdaptiveThrottling, for every history of the world. */
  method ResumeThrottled(ns: Namespace, job: Job, now: int) returns (outcome: Outcome, l: Loop)
    requires JobAdmitted(job)
    modifies ns
    ensures ResumedLog(old(ns.workloads), ns.workloads, l.log, job.listed)
    ensures if outcome.Success? then Finished(job, l) else EndsBy(job, l, outcome, old(ns.workloads), now)
    ensures Observed(job, l)
  {
    l := Loop(0, Initial(job.config), 0, now, [], Trace([], []), Meter(0, 0, 0), [], []);
    while l.n < |job.uids|
      invariant Going(job, l, now) && Observed(job, l) && AtFirst(l, 0)
      invariant ResumedLog(old(ns.workloads), ns.workloads, l.log, job.listed)
      decreases |job.uids| - l.n, Later(0, now + MaxWait(job.config) * SECOND - l.clock)
    {
      var stopped;
      stopped, l := Round(ns, job, l, now, old(ns.workloads));
      if stopped.Some? { return stopped.value, l; }
    }
    return Success, l;
  }

  // ------------------------------------------------------------- consequences

  /** Once an override is in the store and the checks can read it, at most one more
      workload is resumed. */
  lemma BoundedOverrun(t: Trace, world: World, mine: Policies.Policy, startup: bool, n: nat, k: nat, committed: nat)
    requires Ordered(t, world, mine, startup, n, k)
    requires forall j :: committed <= j < k ==> Aborts(world(j), mine, startup)
    ensures forall i :: 0 <= i < n - 1 ==> t.resumedAt[i] < committed
  {
    forall i | 0 <= i < n - 1 ensures t.resumedAt[i] < committed {
      var next := t.checkedAt[i + 1];
      assert t.resumedAt[i] < next < k && !Aborts(world(next), mine, startup);
    }
  }

  // ---------------------------------------------------------- a loop that panics

  /** A batch that panics is the last one. */
  lemma {:induction false} PanicStays(c: Config, rounds: seq<set<Signal>>, n: nat, total: nat)
    requires (forall r <- rounds :: Possible(c, r)) && n <= |rounds| && Covered(c, rounds[..n], total).None?
    ensures Covered(c, rounds, total).None?
    decreases |rounds|
  {
    if n == |rounds| {
      assert rounds[..n] == rounds;
    } else {
      var init := rounds[..|rounds| - 1];
      assert init[..n] == rounds[..n];
      PanicStays(c, init, n, total);
    }
  }

  const HUGE_MINIMUM :=
    Config(1, INT32_MAX, 0, Some(Checks(None, Some(Slowdown(true, 50)), None, None, None)), true)

  /** The first batch covers one of two workloads, then NodePressure slows down to the
      huge minimum. */
  lemma PressurePanics()
    ensures Admitted(HUGE_MINIMUM) && Possible(HUGE_MINIMUM, {}) && Possible(HUGE_MINIMUM, {NodePressure})
    ensures Covered(HUGE_MINIMUM, [{}], 2) == Some(1)
    ensures Covered(HUGE_MINIMUM, [{}, {NodePressure}], 2).None?
  {
    var c := HUGE_MINIMUM;
    BatchEndIff(0, 1, 2);
    var none: seq<set<Signal>> := [];
    assert Covered(c, none, 2) == Some(0) && SizeAfter(c, none) == 1;
    NextRound(c, none, {}, 0, 2);
    assert none + [{}] == [{}];
    NextRound(c, [{}], {NodePressure}, 1, 2);
    assert [{}] + [{NodePressure}] == [{}, {NodePressure}];
    PercentExact(1, 50);
    BatchEndIff(1, INT32_MAX, 2);
  }

  /** Nothing goes wrong, and from the third answer on there is pressure on a node. */
  const PRESSURE: World := k =>
    Answer(0, false, None, (s: Signal) => if s.NodePressure? && k >= 2 then Raised else Quiet, true)

  const PLAIN := Workloads.Workload(Some(1), None, map[])

  function PressureJob(mine: Policies.Policy): Job {
    Job(["x", "y"], map["x" := PLAIN, "y" := PLAIN], HUGE_MINIMUM, PRESSURE, mine, false)
  }

  lemma PressureSignals(k: nat, signals: set<Signal>)
    requires Answered(HUGE_MINIMUM, PRESSURE(k), signals)
    ensures signals == if k >= 2 then {NodePressure} else {}
  {
    assert !ProbesFail(HUGE_MINIMUM, PRESSURE(k));
  }

  /** With this history the contract of the throttled resume leaves the panic only. */
  lemma NothingButPanic(mine: Policies.Policy, outcome: Outcome, l: Loop, before: Store, start: int)
    requires
      var job := PressureJob(mine);
      Observed(job, l) && if outcome.Success? then Finished(job, l) else EndsBy(job, l, outcome, before, start)
    ensures outcome.SlicePanic?
  {
    if outcome.Success? { NotBothCovered(mine, l); }
  }

  lemma FirstSignals(mine: Policies.Policy, l: Loop)
    requires Observed(PressureJob(mine), l) && |l.rounds| > 0
    ensures l.rounds[0] == {} && (|l.rounds| > 1 ==> l.rounds[1] == {NodePressure})
  {
    assert l.meter.pauses == 0;
    PressureSignals(1, l.rounds[0]);
    if |l.rounds| > 1 { PressureSignals(l.observed[1], l.rounds[1]); }
  }

  lemma NotBothCovered(mine: Policies.Policy, l: Loop)
    requires Observed(PressureJob(mine), l)
    requires forall r <- l.rounds :: Possible(HUGE_MINIMUM, r)
    ensures Covered(HUGE_MINIMUM, l.rounds, 2) != Some(2)
  {
    PressurePanics();
    if |l.rounds| > 0 {
      FirstSignals(mine, l);
      if |l.rounds| == 1 {
        assert l.rounds == [{}];
      } else {
        assert l.rounds[..2] == [{}, {NodePressure}];
        PanicStays(HUGE_MINIMUM, l.rounds, 2, 2);
      }
    }
  }

  /** An admitted configuration and a history of the world that drive the loop into
      the panic. */
  method HugeMinimumPanics(ns: Namespace, mine: Policies.Policy, now: int) returns (outcome: Outcome)
    modifies ns
    ensures Admitted(HUGE_MINIMUM) && outcome.SlicePanic?
  {
    var l;
    PressurePanics();
    outcome, l := ResumeThrottled(ns, PressureJob(mine), now);
    NothingButPanic(mine, outcome, l, old(ns.workloads), now);
  }
}
