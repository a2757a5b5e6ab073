/** Adaptive throttling: how large the next batch is and how long to wait after it. */
module Throttling {
  import opened Options
  import opened Decimal

  /** Durations are counted in nanoseconds. */
  const SECOND := 1_000_000_000

  datatype Signal = NodeNotReady | NodePressure | PendingPods | NodeUsage | ContainerRestarts

  /** A check with its slowdown percentage; zero stands for the default. */
  datatype Slowdown = Slowdown(enabled: bool, percent: int)

  datatype ReadyCheck = ReadyCheck(enabled: bool, waitInterval: int, maxWaitTime: int)

  datatype Checks = Checks(
    nodeReady: Option<ReadyCheck>,
    pressure: Option<Slowdown>,
    usage: Option<Slowdown>,
    restarts: Option<Slowdown>,
    pending: Option<Slowdown>)

  datatype Config = Config(
    initialBatchSize: int, minBatchSize: int, batchInterval: int, checks: Option<Checks>, fallback: bool)

  /** The schema's bounds; zero is what an absent field decodes to. */
  predicate Admitted(c: Config) {
    && 0 <= c.initialBatchSize <= 20
    && 0 <= c.minBatchSize <= INT32_MAX
    && 0 <= c.batchInterval <= 60
    && (c.checks.Some? ==>
          && PercentAdmitted(c.checks.value.pressure) && PercentAdmitted(c.checks.value.usage)
          && PercentAdmitted(c.checks.value.restarts) && PercentAdmitted(c.checks.value.pending))
  }

  predicate PercentAdmitted(s: Option<Slowdown>) {
    s.Some? ==> s.value.percent == 0 || 10 <= s.value.percent <= 100
  }

  function OrDefault(n: int, default: int): int {
    if n == 0 then default else n
  }

  function Initial(c: Config): int { OrDefault(c.initialBatchSize, 3) }

  function Minimum(c: Config): int { OrDefault(c.minBatchSize, 1) }

  function Interval(c: Config): int { OrDefault(c.batchInterval, 5) }

  function Least(a: int, b: int): int { if a < b then a else b }

  function Lowest(c: Config): int { Least(Initial(c), Minimum(c)) }

  function Highest(c: Config): int { if Initial(c) < Minimum(c) then Minimum(c) else Initial(c) }

  // ---------------------------------------------------------------- signals

  predicate Enabled(c: Config, s: Signal) {
    && c.checks.Some?
    && match s
       case NodeNotReady => c.checks.value.nodeReady.Some? && c.checks.value.nodeReady.value.enabled
       case NodePressure => On(c.checks.value.pressure)
       case PendingPods => On(c.checks.value.pending)
       case NodeUsage => On(c.checks.value.usage)
       case ContainerRestarts => On(c.checks.value.restarts)
  }

  predicate On(s: Option<Slowdown>) {
    s.Some? && s.value.enabled
  }

  datatype Probe = Raised | Quiet | ProbeFails

  datatype Collected = Signals(signals: set<Signal>) | Unavailable

  const CHECK_ORDER: seq<Signal> := [NodeNotReady, NodePressure, PendingPods, NodeUsage, ContainerRestarts]

  /** collectSignals: the enabled checks one after the other; the first failure ends it. */
  method Collect(c: Config, probe: Signal -> Probe) returns (r: Collected)
    ensures r.Signals? ==> forall s :: s in r.signals <==> Enabled(c, s) && probe(s).Raised?
    ensures r.Unavailable? <==> exists s :: Enabled(c, s) && probe(s).ProbeFails?
  {
    var signals := {};
    for i := 0 to |CHECK_ORDER|
      invariant forall s :: s in signals <==> s in CHECK_ORDER[..i] && Enabled(c, s) && probe(s).Raised?
      invariant forall s <- CHECK_ORDER[..i] :: Enabled(c, s) ==> !probe(s).ProbeFails?
    {
      var s := CHECK_ORDER[i];
      if Enabled(c, s) {
        match probe(s)
        case ProbeFails => return Unavailable;
        case Raised => signals := signals + {s};
        case Quiet =>
      }
    }
    assert forall s: Signal :: s in CHECK_ORDER by {
      forall s: Signal ensures s in CHECK_ORDER {
        match s
        case NodeNotReady => assert CHECK_ORDER[0] == s;
        case NodePressure => assert CHECK_ORDER[1] == s;
        case PendingPods => assert CHECK_ORDER[2] == s;
        case NodeUsage => assert CHECK_ORDER[3] == s;
        case ContainerRestarts => assert CHECK_ORDER[4] == s;
      }
    }
    assert CHECK_ORDER[..|CHECK_ORDER|] == CHECK_ORDER;
    return Signals(signals);
  }

  /** Signals of enabled checks only, so that no configuration is missing when one is read. */
  predicate Possible(c: Config, signals: set<Signal>) {
    forall s <- signals :: Enabled(c, s)
  }

  // -------------------------------------------------------------- batch size

  /** Division of 32-bit integers rounds toward zero. */
  function Percent(base: int, percent: int): int {
    var product := ToInt32(base * percent);
    if product >= 0 then product / 100 else -((-product) / 100)
  }

  function Slowed(base: int, percent: int, minimum: int): int {
    var size := Percent(base, percent);
    if size < minimum then minimum else size
  }

  /** calculateBatchSize. */
  function BatchSize(signals: set<Signal>, c: Config, current: int): int
    requires Possible(c, signals)
  {
    if NodePressure in signals then Slowed(Initial(c), OrDefault(c.checks.value.pressure.value.percent, 50), Minimum(c))
    else if NodeUsage in signals then Slowed(Initial(c), OrDefault(c.checks.value.usage.value.percent, 60), Minimum(c))
    else if ContainerRestarts in signals then
      Slowed(Initial(c), OrDefault(c.checks.value.restarts.value.percent, 50), Minimum(c))
    else if PendingPods in signals then
      Slowed(current, OrDefault(c.checks.value.pending.value.percent, 70), Minimum(c))
    else if current < Initial(c) then Least(ToInt32(current + 1), Initial(c))
    else current
  }

  predicate InRange(c: Config, size: int) {
    1 <= Lowest(c) <= size <= Highest(c)
  }

  lemma MulMonotone(x: int, a: int, b: int)
    requires 0 <= x && a <= b
    ensures x * a <= x * b
  {
    assert x * (b - a) >= 0;
  }

  /** 21474836 is the largest base whose hundredfold fits 32 bits. */
  lemma PercentExact(base: int, percent: int)
    requires 0 <= base <= 21474836 && 0 <= percent <= 100
    ensures Percent(base, percent) == base * percent / 100
  {
    MulMonotone(base, 0, percent);
    MulMonotone(base, percent, 100);
    Int32Exact(base * percent);
  }

  lemma HundredthsBounded(n: int)
    requires n <= INT32_MAX
    ensures n >= 0 ==> n / 100 <= 21474836
  {
  }

  lemma PercentBounds(base: int, percent: int)
    requires 0 <= base <= INT32_MAX && 0 <= percent <= 100
    ensures base <= 21474836 ==> Percent(base, percent) <= base
    ensures 0 < base <= 21474836 && percent < 100 ==> Percent(base, percent) < base
    ensures base > 21474836 ==> Percent(base, percent) <= 21474836
  {
    if base <= 21474836 {
      PercentExact(base, percent);
      MulMonotone(base, percent, 100);
      if percent < 100 { MulMonotone(base, percent, 99); }
    } else {
      HundredthsBounded(ToInt32(base * percent));
    }
  }

  lemma SlowedInRange(c: Config, base: int, percent: int)
    requires Admitted(c) && InRange(c, base) && 0 <= percent <= 100
    ensures InRange(c, Slowed(base, percent, Minimum(c)))
  {
    PercentBounds(base, percent);
  }

  /** The batch size never leaves the range spanned by the configured initial and
      minimum sizes, even where the 32-bit product wraps around. */
  lemma BatchSizeInRange(signals: set<Signal>, c: Config, current: int)
    requires Admitted(c) && Possible(c, signals) && InRange(c, current)
    ensures InRange(c, BatchSize(signals, c, current))
  {
    assert InRange(c, Initial(c));
    if NodePressure in signals {
      SlowedInRange(c, Initial(c), OrDefault(c.checks.value.pressure.value.percent, 50));
    } else if NodeUsage in signals {
      SlowedInRange(c, Initial(c), OrDefault(c.checks.value.usage.value.percent, 60));
    } else if ContainerRestarts in signals {
      SlowedInRange(c, Initial(c), OrDefault(c.checks.value.restarts.value.percent, 50));
    } else if PendingPods in signals {
      SlowedInRange(c, current, OrDefault(c.checks.value.pending.value.percent, 70));
    } else if current < Initial(c) {
      Int32Exact(current + 1);
    }
  }

  /** The batch size after the rounds of a run, each with its own signals. */
  function SizeAfter(c: Config, rounds: seq<set<Signal>>): int
    requires forall signals <- rounds :: Possible(c, signals)
  {
    if |rounds| == 0 then Initial(c)
    else
      var before := rounds[..|rounds| - 1];
      assert rounds[|rounds| - 1] in rounds;
      BatchSize(rounds[|rounds| - 1], c, SizeAfter(c, before))
  }

  /** On every run the batch size stays in range. */
  lemma {:induction false} SizeStaysInRange(c: Config, rounds: seq<set<Signal>>)
    requires Admitted(c) && forall signals <- rounds :: Possible(c, signals)
    ensures InRange(c, SizeAfter(c, rounds))
    decreases |rounds|
  {
    if |rounds| > 0 {
      SizeStaysInRange(c, rounds[..|rounds| - 1]);
      assert rounds[|rounds| - 1] in rounds;
      BatchSizeInRange(rounds[|rounds| - 1], c, SizeAfter(c, rounds[..|rounds| - 1]));
    }
  }

  /** The check is enabled and its percentage is left to the default. */
  predicate Defaulted(check: Option<Slowdown>) {
    On(check) && check.value.percent == 0
  }

  function Most(a: int, b: int): int { if a < b then b else a }

  /** The sizes under the default percentages, for every configuration and size: half,
      three fifths, half of the initial size, and seven tenths of the current one,
      but never less than the minimum. */
  lemma DefaultSlowdowns(c: Config, current: int)
    requires Admitted(c) && InRange(c, current) && c.checks.Some?
    ensures Defaulted(c.checks.value.pressure) ==>
      BatchSize({NodePressure}, c, current) == Most(Minimum(c), Initial(c) / 2)
    ensures Defaulted(c.checks.value.usage) ==>
      BatchSize({NodeUsage}, c, current) == Most(Minimum(c), Initial(c) * 3 / 5)
    ensures Defaulted(c.checks.value.restarts) ==>
      BatchSize({ContainerRestarts}, c, current) == Most(Minimum(c), Initial(c) / 2)
    ensures Defaulted(c.checks.value.pending) ==>
      BatchSize({PendingPods}, c, current) == Most(Minimum(c), current * 7 / 10)
  {
    PercentExact(Initial(c), 50);
    PercentExact(Initial(c), 60);
    PercentBounds(current, 70);
    if current <= 21474836 { PercentExact(current, 70); }
  }

  function Configured(check: Option<Slowdown>, default: int): int {
    if check.Some? && check.value.percent != 0 then check.value.percent else default
  }

  /** The size for any configuration and any signals together: the first of pressure,
      usage and restarts that is there takes its percentage of the initial size, else
      pending pods take theirs of the current one, never below the minimum; without
      any of them the size climbs by one, up to the initial size. */
  lemma OneSignalDecides(signals: set<Signal>, c: Config, current: int)
    requires Admitted(c) && Possible(c, signals) && InRange(c, current) && c.checks.Some?
    ensures
      var checks, next := c.checks.value, BatchSize(signals, c, current);
      if NodePressure in signals then
        next == Most(Minimum(c), Initial(c) * Configured(checks.pressure, 50) / 100)
      else if NodeUsage in signals then
        next == Most(Minimum(c), Initial(c) * Configured(checks.usage, 60) / 100)
      else if ContainerRestarts in signals then
        next == Most(Minimum(c), Initial(c) * Configured(checks.restarts, 50) / 100)
      else if PendingPods in signals then
        next == Most(Minimum(c), current * Configured(checks.pending, 70) / 100)
      else next == if current < Initial(c) then current + 1 else current
  {
    var checks := c.checks.value;
    if NodePressure in signals {
      PercentExact(Initial(c), Configured(checks.pressure, 50));
    } else if NodeUsage in signals {
      PercentExact(Initial(c), Configured(checks.usage, 60));
    } else if ContainerRestarts in signals {
      PercentExact(Initial(c), Configured(checks.restarts, 50));
    } else if PendingPods in signals {
      PendingSize(c, current, Configured(checks.pending, 70));
    } else if current < Initial(c) {
      Int32Exact(current + 1);
    }
  }

  /** A current size whose percentage does not fit 32 bits is below the minimum anyway. */
  lemma PendingSize(c: Config, current: int, percent: int)
    requires Admitted(c) && InRange(c, current) && 0 <= percent <= 100
    ensures Slowed(current, percent, Minimum(c)) == Most(Minimum(c), current * percent / 100)
  {
    PercentBounds(current, percent);
    if current <= 21474836 {
      PercentExact(current, percent);
    } else {
      MulMonotone(current, percent, 100);
    }
  }

  /** Absent sizes and intervals. */
  lemma Defaults(c: Config)
    ensures c.initialBatchSize == 0 ==> Initial(c) == 3
    ensures c.minBatchSize == 0 ==> Minimum(c) == 1
    ensures c.batchInterval == 0 ==> Interval(c) == 5
    ensures c.initialBatchSize != 0 ==> Initial(c) == c.initialBatchSize
    ensures c.minBatchSize != 0 ==> Minimum(c) == c.minBatchSize
    ensures c.batchInterval != 0 ==> Interval(c) == c.batchInterval
  {
  }

  /** The batch size after n steps with the same signals. */
  function Repeated(signals: set<Signal>, c: Config, current: int, n: nat): int
    requires Possible(c, signals)
    decreases n
  {
    if n == 0 then current else Repeated(signals, c, BatchSize(signals, c, current), n - 1)
  }

  /** Without signals the size climbs back by one per batch, up to the initial size. */
  lemma {:induction false} ClimbsBack(c: Config, current: int, n: nat)
    requires Admitted(c) && 1 <= current <= Initial(c)
    ensures Repeated({}, c, current, n) == Least(Initial(c), current + n)
    decreases n
  {
    if n > 0 {
      if current < Initial(c) { Int32Exact(current + 1); }
      ClimbsBack(c, BatchSize({}, c, current), n - 1);
    }
  }

  /** Under lasting PendingPods with a percentage below 100 the size falls to the
      minimum, by at least one per batch. */
  lemma {:induction false} FallsToMinimum(c: Config, current: int, n: nat)
    requires Admitted(c) && Enabled(c, PendingPods)
    requires OrDefault(c.checks.value.pending.value.percent, 70) < 100
    requires InRange(c, current) && Minimum(c) <= current && n >= current - Minimum(c)
    ensures Repeated({PendingPods}, c, current, n) == Minimum(c)
    decreases n
  {
    var percent := OrDefault(c.checks.value.pending.value.percent, 70);
    PercentBounds(current, percent);
    if n > 0 {
      var next := BatchSize({PendingPods}, c, current);
      assert next == Slowed(current, percent, Minimum(c));
      BatchSizeInRange({PendingPods}, c, current);
      FallsToMinimum(c, next, n - 1);
    }
  }

  // ---------------------------------------------------------- wait durations

  /** calculateWaitDuration. */
  function WaitDuration(signals: set<Signal>, seconds: int): int {
    var a := seconds * SECOND;
    var b := if NodePressure in signals then a * 2 else a;
    var c := if PendingPods in signals then b * 3 / 2 else b;
    if ContainerRestarts in signals then c * 2 else c
  }

  /** Between one and six times the interval, and six times only under all three
      signals; with an admitted interval nothing overflows 64 bits. */
  lemma WaitBounds(signals: set<Signal>, seconds: int)
    requires 0 <= seconds
    ensures seconds * SECOND <= WaitDuration(signals, seconds) <= 6 * seconds * SECOND
    ensures seconds > 0 ==> (WaitDuration(signals, seconds) == 6 * seconds * SECOND <==>
                             {NodePressure, PendingPods, ContainerRestarts} <= signals)
    ensures seconds <= 60 ==> IsInt64(WaitDuration(signals, seconds) * 3)
  {
  }

  /** Each signal has its own factor: two for pressure, one and a half for pending
      pods, two for restarts, and none for the others. */
  lemma WaitFactors(signals: set<Signal>, seconds: int)
    requires 0 <= seconds
    ensures
      var halves := (if NodePressure in signals then 2 else 1) * (if PendingPods in signals then 3 else 2)
                    * (if ContainerRestarts in signals then 2 else 1);
      WaitDuration(signals, seconds) == seconds * halves * 500_000_000
  {
  }
}
