/** One reconcile from its first step to its last, with everybody else at work beside
    it but leaving its policy alone: what every such run comes to follows from what
    the single decisions come to. */
module Reconciles {
  import opened Options
  import opened Policies
  import opened Operator
  import opened Wakeups

  function Timer(s: State, id: Id): Option<nat> {
    if id in s.timers then Some(s.timers[id]) else None
  }

  /** Calls succeed and checks pass.  Nobody else touches the policy, its timer, the
      startup bit, or what the two searches find; and no other reconcile follows. */
  predicate Undisturbed(s: State, l: Label, id: Id)
    requires Enabled(s, l)
  {
    if l.Work? then l.choice.ok && l.choice.verdict.Pass?
    else
      && !l.Take? && !l.Restart? && Lookup(Step(s, l).policies, id) == Lookup(s.policies, id)
      && Timer(Step(s, l), id) == Timer(s, id) && Step(s, l).startupComplete == s.startupComplete
      && (s.worker.Busy? ==>
            && Conflicted(Step(s, l).policies, id, s.worker.snap) == Conflicted(s.policies, id, s.worker.snap)
            && Blocked(Step(s, l).policies, id, s.worker.snap) == Blocked(s.policies, id, s.worker.snap))
  }

  predicate UndisturbedRun(s: State, ls: seq<Label>, id: Id)
    requires Runs(s, ls)
    decreases |ls|
  {
    |ls| > 0 ==> Undisturbed(s, ls[0], id) && UndisturbedRun(Step(s, ls[0]), ls[1..], id)
  }

  /** Copies of one policy that differ in the status only. */
  predicate SameIdentity(p: Policy, q: Policy) {
    p.name == q.name && p.createdAt == q.createdAt && p.deleting == q.deleting && p.spec == q.spec
  }

  /** The timer after the request was handed back at time `at`. */
  function Asked(timer: Option<nat>, r: Result, at: nat): Option<nat> {
    match r
    case Done => timer
    case Retry(wait) => Sooner(timer, at + wait)
    case After(delay) => if delay > 0 then Sooner(timer, at + delay) else timer
  }

  function Sooner(timer: Option<nat>, due: nat): Option<nat> {
    if timer.Some? && timer.value <= due then timer else Some(due)
  }

  // ------------------------------------------------- what is assumed and shown

  /** What holds between two decisions, and of the policy when the request is handed back. */
  type Between = (View, Search) -> bool
  type AtEnd = (Policy, Result, nat) -> bool

  /** A decision leads on within `between`, or ends as `atEnd` says. */
  ghost predicate LeadsOn(between: Between, atEnd: AtEnd, v: View, q: Search, e: Effect) {
    && v.latest.Some? && SameIdentity(v.latest.value, v.snap)
    && var latest := if e.write.Some? then e.write.value else v.latest.value;
       SameIdentity(latest, v.snap) &&
       match e.next
       case Go(pc) => between(v.(pc := pc, latest := Some(latest)), q)
       case Reload(pc) => between(v.(pc := pc, latest := Some(latest), snap := latest), q)
       case Exit(r, _) => atEnd(latest, r, v.clock)
  }

  ghost predicate Closed(between: Between, atEnd: AtEnd) {
    && (forall v: View, q: Search, c: Choice :: between(v, q) && c.ok && c.verdict.Pass? && c.now <= v.clock ==>
          LeadsOn(between, atEnd, v, q, Decide(v, q, c)))
    && (forall v: View, q: Search, clock: nat :: between(v, q) && v.clock <= clock ==> between(v.(clock := clock), q))
  }

  /** The reconcile of `id` is between two decisions, or it has ended: at some time `at`
      with some answer to the queue. */
  ghost predicate Underway(s: State, id: Id, between: Between, atEnd: AtEnd, timer: Option<nat>) {
    && id in s.policies
    && if s.worker.Busy? then
         s.worker.id == id && between(Seen(s), Searched(s)) && Timer(s, id) == timer
       else
         exists r: Result, at: nat ::
           at <= s.clock && atEnd(s.policies[id], r, at) && Timer(s, id) == Asked(timer, r, at)
  }

  lemma ApplySearch(s: State, e: Effect)
    requires s.worker.Busy? && s.worker.id in s.policies && SameIdentity(s.policies[s.worker.id], s.worker.snap)
    requires e.write.Some? ==> SameIdentity(e.write.value, s.worker.snap)
    ensures Apply(s, e).worker.Busy? ==> Searched(Apply(s, e)) == Searched(s)
  {
    var s', id := Apply(s, e), s.worker.id;
    AdvanceFrame(AfterWrite(s, e), e.next);
    if s'.worker.Busy? {
      forall other <- s.policies.Keys | other != id
        ensures other in s'.policies && s'.policies[other] == s.policies[other]
      {
      }
    }
  }

  lemma ApplyTimer(s: State, e: Effect)
    requires s.worker.Busy?
    ensures
      var s', id := Apply(s, e), s.worker.id;
      Timer(s', id) == if e.next.Exit? then Asked(Timer(s, id), e.next.result, s.clock) else Timer(s, id)
  {
  }

  lemma ApplyView(s: State, e: Effect)
    requires s.worker.Busy? && s.worker.id in s.policies
    ensures
      var v, s', id := Seen(s), Apply(s, e), s.worker.id;
      var latest := if e.write.Some? then e.write.value else v.latest.value;
      && id in s'.policies && s'.policies[id] == latest && s'.clock == s.clock
      && match e.next
         case Go(pc) => s'.worker.Busy? && s'.worker.id == id && Seen(s') == v.(pc := pc, latest := Some(latest))
         case Reload(pc) =>
           s'.worker.Busy? && s'.worker.id == id && Seen(s') == v.(pc := pc, latest := Some(latest), snap := latest)
         case Exit(_, _) => s'.worker.Resting?
  {
    ApplySeen(s, e);
  }

  lemma WorkUnderway(s: State, c: Choice, id: Id, between: Between, atEnd: AtEnd, timer: Option<nat>)
    requires Closed(between, atEnd) && Enabled(s, Work(c)) && c.ok && c.verdict.Pass?
    requires Underway(s, id, between, atEnd, timer)
    ensures Underway(Step(s, Work(c)), id, between, atEnd, timer)
  {
    var v, q := Seen(s), Searched(s);
    var e := Decide(v, q, c);
    assert LeadsOn(between, atEnd, v, q, e);
    ApplyView(s, e);
    ApplySearch(s, e);
    ApplyTimer(s, e);
    var s' := Apply(s, e);
    if e.next.Exit? {
      assert atEnd(s'.policies[id], e.next.result, s.clock);
    }
  }

  lemma OutsideUnderway(s: State, l: Label, id: Id, between: Between, atEnd: AtEnd, timer: Option<nat>)
    requires Closed(between, atEnd) && Enabled(s, l) && !l.Work? && Undisturbed(s, l, id)
    requires Underway(s, id, between, atEnd, timer)
    ensures Underway(Step(s, l), id, between, atEnd, timer)
  {
    OutsideKeepsWorker(s, l);
    var s' := Step(s, l);
    assert Lookup(s'.policies, id) == Lookup(s.policies, id);
    if s.worker.Busy? {
      assert Seen(s') == Seen(s).(clock := s'.clock) && Searched(s') == Searched(s);
    } else {
      var r: Result, at: nat :|
        at <= s.clock && atEnd(s.policies[id], r, at) && Timer(s, id) == Asked(timer, r, at);
      assert atEnd(s'.policies[id], r, at);
    }
  }

  lemma {:induction false} RunUnderway(s: State, ls: seq<Label>, id: Id, between: Between, atEnd: AtEnd,
                                       timer: Option<nat>)
    requires Closed(between, atEnd) && Runs(s, ls) && UndisturbedRun(s, ls, id)
    requires Underway(s, id, between, atEnd, timer)
    ensures Underway(Final(s, ls), id, between, atEnd, timer)
    decreases |ls|
  {
    if |ls| > 0 {
      if ls[0].Work? { WorkUnderway(s, ls[0].choice, id, between, atEnd, timer); }
      else { OutsideUnderway(s, ls[0], id, between, atEnd, timer); }
      RunUnderway(Step(s, ls[0]), ls[1..], id, between, atEnd, timer);
    }
  }

  /** A whole reconcile: from the moment it is taken up to the moment the worker rests. */
  predicate WholeReconcile(s: State, ls: seq<Label>, id: Id) {
    TakenUp(s, id) && Runs(s, ls) && UndisturbedRun(s, ls, id) && Final(s, ls).worker.Resting?
  }

  /** How it ended. */
  lemma EndOfReconcile(s: State, ls: seq<Label>, id: Id, between: Between, atEnd: AtEnd)
    returns (r: Result, at: nat)
    requires Closed(between, atEnd) && WholeReconcile(s, ls, id) && between(Seen(s), Searched(s))
    ensures
      var t := Final(s, ls);
      && id in t.policies && at <= t.clock && atEnd(t.policies[id], r, at)
      && Timer(t, id) == Asked(Timer(s, id), r, at)
  {
    RunUnderway(s, ls, id, between, atEnd, Timer(s, id));
    var t := Final(s, ls);
    r, at :| at <= t.clock && atEnd(t.policies[id], r, at) && Timer(t, id) == Asked(Timer(s, id), r, at);
  }
}
