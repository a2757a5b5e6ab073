/** Startup freezes: policies are grouped by freezePriority, the groups run one
    after the other, the policies of a group in parallel, with a WaitGroup as the
    barrier between two groups. */
module FreezeGroups {
  import opened Sequences

  datatype Task = Task(id: string, priority: int, createdAt: nat)

  // ------------------------------------------------------------- the grouping

  predicate SortedTasks(ts: seq<Task>) {
    forall i, j :: 0 <= i < j < |ts| ==> ts[i].priority <= ts[j].priority
  }

  predicate StrictlyAscending(ps: seq<int>) {
    forall i, j :: 0 <= i < j < |ps| ==> ps[i] < ps[j]
  }

  /** The groups one after the other. */
  function Flatten(order: seq<int>, groups: map<int, seq<Task>>): seq<Task> {
    if |order| == 0 then []
    else
      var p := order[|order| - 1];
      Flatten(order[..|order| - 1], groups) + if p in groups then groups[p] else []
  }

  lemma {:induction false} FlattenIgnores(order: seq<int>, groups: map<int, seq<Task>>, p: int, g: seq<Task>)
    requires p !in order
    ensures Flatten(order, groups[p := g]) == Flatten(order, groups)
    decreases |order|
  {
    if |order| > 0 { FlattenIgnores(order[..|order| - 1], groups, p, g); }
  }

  predicate GroupsUniform(groups: map<int, seq<Task>>) {
    forall p <- groups.Keys :: |groups[p]| > 0 && forall t <- groups[p] :: t.priority == p
  }

  /** The keys are strictly ascending, each group has one priority, and the groups
      one after the other are the policies themselves. */
  predicate Grouped(order: seq<int>, groups: map<int, seq<Task>>, tasks: seq<Task>) {
    && StrictlyAscending(order) && groups.Keys == (set p <- order)
    && GroupsUniform(groups) && Flatten(order, groups) == tasks
  }

  lemma UniformWith(groups: map<int, seq<Task>>, p: int, group: seq<Task>)
    requires GroupsUniform(groups) && |group| > 0 && forall t <- group :: t.priority == p
    ensures GroupsUniform(groups[p := group])
  {
  }

  lemma AscendingWith(order: seq<int>, p: int)
    requires StrictlyAscending(order) && (|order| > 0 ==> order[|order| - 1] < p)
    ensures StrictlyAscending(order + [p]) && p !in order
  {
    assert forall i :: 0 <= i < |order| ==> order[i] < p;
  }

  lemma OpenGroup(order: seq<int>, groups: map<int, seq<Task>>, tasks: seq<Task>, task: Task)
    requires Grouped(order, groups, tasks) && (|order| > 0 ==> order[|order| - 1] < task.priority)
    ensures Grouped(order + [task.priority], groups[task.priority := [task]], tasks + [task])
    ensures task.priority !in groups
  {
    var p := task.priority;
    var order', groups' := order + [p], groups[p := [task]];
    AscendingWith(order, p);
    UniformWith(groups, p, [task]);
    FlattenIgnores(order, groups, p, [task]);
    assert order'[..|order'| - 1] == order;
  }

  lemma ExtendGroup(order: seq<int>, groups: map<int, seq<Task>>, tasks: seq<Task>, task: Task)
    requires Grouped(order, groups, tasks) && |order| > 0 && order[|order| - 1] == task.priority
    ensures task.priority in groups
    ensures Grouped(order, groups[task.priority := groups[task.priority] + [task]], tasks + [task])
  {
    var p := task.priority;
    assert p in order;
    var init := order[..|order| - 1];
    UniformWith(groups, p, groups[p] + [task]);
    FlattenIgnores(init, groups, p, groups[p] + [task]);
    assert Flatten(init, groups) + groups[p] == tasks;
  }

  /** One policy more, whose priority is not lower than the last. */
  lemma GroupStep(order: seq<int>, groups: map<int, seq<Task>>, tasks: seq<Task>, task: Task)
    requires Grouped(order, groups, tasks) && (|order| > 0 ==> order[|order| - 1] <= task.priority)
    ensures
      var p := task.priority;
      var order' := if p in groups then order else order + [p];
      var groups' := groups[p := (if p in groups then groups[p] else []) + [task]];
      Grouped(order', groups', tasks + [task]) && |order'| > 0 && order'[|order'| - 1] == p
  {
    if |order| > 0 && order[|order| - 1] == task.priority {
      ExtendGroup(order, groups, tasks, task);
    } else {
      OpenGroup(order, groups, tasks, task);
      assert [] + [task] == [task];
    }
  }

  predicate EndsWith(order: seq<int>, p: int) {
    |order| > 0 && order[|order| - 1] == p
  }

  /** Adding one policy to the groups. */
  method AddTask(order: seq<int>, groups: map<int, seq<Task>>, task: Task, ghost tasks: seq<Task>)
    returns (order': seq<int>, groups': map<int, seq<Task>>)
    requires Grouped(order, groups, tasks) && (|order| > 0 ==> order[|order| - 1] <= task.priority)
    ensures Grouped(order', groups', tasks + [task]) && EndsWith(order', task.priority)
  {
    var priority := task.priority;
    GroupStep(order, groups, tasks, task);
    var group := if priority in groups then groups[priority] else [];
    order' := if priority in groups then order else order + [priority];
    groups' := groups[priority := group + [task]];
  }

  lemma NothingGrouped()
    ensures Grouped([], map[], [])
  {
  }

  /** Grouping the sorted policies. */
  method Group(sorted: seq<Task>) returns (order: seq<int>, groups: map<int, seq<Task>>)
    requires SortedTasks(sorted)
    ensures Grouped(order, groups, sorted)
  {
    order, groups := [], map[];
    NothingGrouped();
    ghost var done: seq<Task> := [];
    for i := 0 to |sorted|
      invariant done == sorted[..i] && Grouped(order, groups, done)
      invariant if i == 0 then order == [] else EndsWith(order, sorted[i - 1].priority)
    {
      order, groups := AddTask(order, groups, sorted[i], done);
      done := done + [sorted[i]];
    }
  }

  lemma SameLast(order: seq<int>, resorted: seq<int>)
    requires StrictlyAscending(order) && Ascending(resorted) && multiset(resorted) == multiset(order)
    ensures |resorted| == |order|
    ensures |order| > 0 ==> resorted[|order| - 1] == order[|order| - 1]
  {
    assert |multiset(resorted)| == |resorted| && |multiset(order)| == |order|;
    if |order| > 0 {
      var n := |order| - 1;
      assert order[n] in multiset(resorted) && resorted[n] in multiset(order);
      var i :| 0 <= i < |resorted| && resorted[i] == order[n];
      var j :| 0 <= j < |order| && order[j] == resorted[n];
    }
  }

  lemma DropLast(ps: seq<int>)
    requires |ps| > 0
    ensures multiset(ps[..|ps| - 1]) == multiset(ps) - multiset{ps[|ps| - 1]}
    ensures ps == ps[..|ps| - 1] + [ps[|ps| - 1]]
  {
    assert ps == ps[..|ps| - 1] + [ps[|ps| - 1]];
  }

  /** Sorting the keys once more changes nothing. */
  lemma {:induction false} ResortIsIdentity(order: seq<int>, resorted: seq<int>)
    requires StrictlyAscending(order) && Ascending(resorted) && multiset(resorted) == multiset(order)
    ensures resorted == order
    decreases |order|
  {
    SameLast(order, resorted);
    if |order| > 0 {
      var n := |order| - 1;
      var a, b := order[..n], resorted[..n];
      DropLast(order);
      DropLast(resorted);
      ResortIsIdentity(a, b);
    }
  }

  // ------------------------------------------------------------- the barrier

  datatype Event = Started(id: string) | Returned(id: string) | Flagged(id: string)

  /** The main loop is at group `current` and has spawned `spawned` goroutines of
      it; `counter` is that group's WaitGroup. */
  datatype Run = Run(
    batches: seq<seq<string>>, current: nat, spawned: nat, counter: int,
    started: set<string>, returned: set<string>, log: seq<Event>)

  datatype Move = Spawn | Begin(id: string) | End(id: string) | PassBarrier | Flag(id: string)

  predicate Launched(r: Run, id: string) {
    r.current < |r.batches| && r.spawned <= |r.batches[r.current]| && id in r.batches[r.current][..r.spawned]
  }

  predicate Possible(r: Run, m: Move) {
    match m
    case Spawn => r.current < |r.batches| && r.spawned < |r.batches[r.current]|
    case Begin(id) => Launched(r, id) && id !in r.started
    case End(id) => id in r.started && id !in r.returned
    case PassBarrier => r.current < |r.batches| && r.spawned == |r.batches[r.current]| && r.counter == 0
    case Flag(_) => r.current == |r.batches|
  }

  function Next(r: Run, m: Move): Run {
    match m
    case Spawn => r.(spawned := r.spawned + 1, counter := r.counter + 1)
    case Begin(id) => r.(started := r.started + {id}, log := r.log + [Started(id)])
    case End(id) => r.(returned := r.returned + {id}, counter := r.counter - 1, log := r.log + [Returned(id)])
    case PassBarrier => r.(current := r.current + 1, spawned := 0, counter := 0)
    case Flag(id) => r.(log := r.log + [Flagged(id)])
  }

  function Start(batches: seq<seq<string>>): Run {
    Run(batches, 0, 0, 0, {}, {}, [])
  }

  predicate Moves(r: Run, ms: seq<Move>)
    decreases |ms|
  {
    |ms| > 0 ==> Possible(r, ms[0]) && Moves(Next(r, ms[0]), ms[1..])
  }

  function After(r: Run, ms: seq<Move>): Run
    requires Moves(r, ms)
    decreases |ms|
  {
    if |ms| == 0 then r else After(Next(r, ms[0]), ms[1..])
  }

  /** No policy occurs twice. */
  predicate AllDistinct(batches: seq<seq<string>>) {
    && (forall k :: 0 <= k < |batches| ==> forall i, j :: 0 <= i < j < |batches[k]| ==> batches[k][i] != batches[k][j])
    && (forall k, l, id :: 0 <= k < l < |batches| && id in batches[k] ==> id !in batches[l])
  }

  function Elements(ids: seq<string>): set<string> {
    set id <- ids
  }

  /** Everything in the earlier groups has returned, and the counter counts the
      spawned goroutines of this group that have not. */
  predicate Barrier(r: Run) {
    && AllDistinct(r.batches) && r.current <= |r.batches|
    && (r.current < |r.batches| ==> r.spawned <= |r.batches[r.current]|)
    && (r.current == |r.batches| ==> r.spawned == 0)
    && (forall k :: 0 <= k < r.current ==> forall id <- r.batches[k] :: id in r.returned)
    && (forall id <- r.started :: Launched(r, id) || EarlierThan(r, id))
    && r.returned <= r.started
    && r.counter == r.spawned - |Elements(Window(r)) * r.returned|
  }

  predicate EarlierThan(r: Run, id: string) {
    exists k :: 0 <= k < r.current && k < |r.batches| && id in r.batches[k]
  }

  /** The goroutines of the current group that have been spawned. */
  function Window(r: Run): seq<string> {
    if r.current < |r.batches| && r.spawned <= |r.batches[r.current]| then r.batches[r.current][..r.spawned] else []
  }

  /** Each start is preceded by the return of everything in earlier groups, each
      flag by the return of everything, and nothing starts or returns twice. */
  predicate LogOrdered(batches: seq<seq<string>>, log: seq<Event>) {
    forall j :: 0 <= j < |log| ==> EntryOrdered(batches, log, j)
  }

  predicate EntryOrdered(batches: seq<seq<string>>, log: seq<Event>, j: nat)
    requires j < |log|
  {
    match log[j]
    case Started(id) =>
      && Started(id) !in log[..j]
      && exists k :: 0 <= k < |batches| && id in batches[k] && AllReturned(batches[..k], log[..j])
    case Returned(id) => Started(id) in log[..j] && Returned(id) !in log[..j]
    case Flagged(_) => AllReturned(batches, log[..j])
  }

  predicate AllReturned(batches: seq<seq<string>>, log: seq<Event>) {
    forall k :: 0 <= k < |batches| ==> forall id <- batches[k] :: Returned(id) in log
  }

  ghost predicate LogMatches(r: Run) {
    && (forall id :: id in r.started <==> Started(id) in r.log)
    && (forall id :: id in r.returned <==> Returned(id) in r.log)
  }

  ghost predicate Sound(r: Run) {
    Barrier(r) && LogMatches(r) && LogOrdered(r.batches, r.log)
  }

  lemma LogAppends(batches: seq<seq<string>>, log: seq<Event>, e: Event)
    requires LogOrdered(batches, log) && EntryOrdered(batches, log + [e], |log|)
    ensures LogOrdered(batches, log + [e])
  {
    forall j | 0 <= j < |log + [e]| ensures EntryOrdered(batches, log + [e], j) {
      if j < |log| {
        assert EntryOrdered(batches, log, j);
        assert (log + [e])[..j] == log[..j];
      }
    }
  }

  lemma {:induction false} DistinctSize(ids: seq<string>)
    requires forall i, j :: 0 <= i < j < |ids| ==> ids[i] != ids[j]
    ensures |Elements(ids)| == |ids|
    decreases |ids|
  {
    if |ids| > 0 {
      var init, last := ids[..|ids| - 1], ids[|ids| - 1];
      DistinctSize(init);
      assert Elements(ids) == Elements(init) + {last};
    }
  }

  lemma SubsetOfSameSize(a: set<string>, b: set<string>)
    requires a <= b && |a| == |b|
    ensures a == b
  {
    assert b == a + (b - a);
  }

  lemma SpawnKeeps(r: Run)
    requires Barrier(r) && Possible(r, Spawn)
    ensures Barrier(Next(r, Spawn))
  {
    var r' := Next(r, Spawn);
    var batch := r.batches[r.current];
    var id := batch[r.spawned];
    assert Window(r') == Window(r) + [id];
    assert forall i :: 0 <= i < r.spawned ==> batch[i] != id;
    assert !Launched(r, id) && !EarlierThan(r, id);
    assert Elements(Window(r')) * r.returned == Elements(Window(r)) * r.returned;
    forall other <- r'.started ensures Launched(r', other) || EarlierThan(r', other) {
      assert Launched(r, other) || EarlierThan(r, other);
    }
  }

  lemma EndKeeps(r: Run, id: string)
    requires Barrier(r) && Possible(r, End(id))
    ensures Barrier(Next(r, End(id)))
  {
    var r' := Next(r, End(id));
    assert Launched(r, id) || EarlierThan(r, id);
    assert Window(r') == Window(r) && id in Window(r);
    assert Elements(Window(r)) * r'.returned == Elements(Window(r)) * r.returned + {id};
    forall other <- r'.started ensures Launched(r', other) || EarlierThan(r', other) {
      assert Launched(r, other) || EarlierThan(r, other);
    }
  }

  /** The counter is zero only when the whole group has returned. */
  lemma BarrierHolds(r: Run)
    requires Barrier(r) && Possible(r, PassBarrier)
    ensures forall id <- r.batches[r.current] :: id in r.returned
  {
    var batch := r.batches[r.current];
    assert Window(r) == batch;
    DistinctSize(batch);
    SubsetOfSameSize(Elements(batch) * r.returned, Elements(batch));
    forall id <- batch ensures id in r.returned {
      assert id in Elements(batch) * r.returned;
    }
  }

  lemma PassKeeps(r: Run)
    requires Barrier(r) && Possible(r, PassBarrier)
    ensures Barrier(Next(r, PassBarrier))
  {
    var r' := Next(r, PassBarrier);
    BarrierHolds(r);
    assert Elements(Window(r')) == {};
    forall id <- r'.started ensures Launched(r', id) || EarlierThan(r', id) {
      assert Launched(r, id) || EarlierThan(r, id);
    }
  }

  lemma BeginKeeps(r: Run, id: string)
    requires Sound(r) && Possible(r, Begin(id))
    ensures Sound(Next(r, Begin(id)))
  {
    var r' := Next(r, Begin(id));
    forall other <- r'.started ensures Launched(r', other) || EarlierThan(r', other) {
      if other != id { assert Launched(r, other) || EarlierThan(r, other); }
    }
    assert Window(r') == Window(r);
    assert AllReturned(r.batches[..r.current], r.log);
    assert (r.log + [Started(id)])[..|r.log|] == r.log;
    LogAppends(r.batches, r.log, Started(id));
  }

  lemma MoveKeeps(r: Run, m: Move)
    requires Sound(r) && Possible(r, m)
    ensures Sound(Next(r, m))
  {
    match m
    case Spawn => SpawnKeeps(r);
    case PassBarrier => PassKeeps(r);
    case Begin(id) => BeginKeeps(r, id);
    case End(id) =>
      EndKeeps(r, id);
      assert (r.log + [Returned(id)])[..|r.log|] == r.log;
      LogAppends(r.batches, r.log, Returned(id));
    case Flag(id) => FlagKeeps(r, id);
  }

  lemma FlagKeeps(r: Run, id: string)
    requires Sound(r) && Possible(r, Flag(id))
    ensures Sound(Next(r, Flag(id)))
  {
    var r' := Next(r, Flag(id));
    assert Window(r') == Window(r);
    forall other <- r'.started ensures Launched(r', other) || EarlierThan(r', other) {
      assert Launched(r, other) || EarlierThan(r, other);
    }
    assert AllReturned(r.batches, r.log);
    assert (r.log + [Flagged(id)])[..|r.log|] == r.log;
    LogAppends(r.batches, r.log, Flagged(id));
  }

  lemma {:induction false} RunKeeps(r: Run, ms: seq<Move>)
    requires Sound(r) && Moves(r, ms)
    ensures Sound(After(r, ms)) && After(r, ms).batches == r.batches
    decreases |ms|
  {
    if |ms| > 0 {
      MoveKeeps(r, ms[0]);
      RunKeeps(Next(r, ms[0]), ms[1..]);
    }
  }

  // ------------------------------------------------ grouping meets the barrier

  function Ids(tasks: seq<Task>): seq<string> {
    seq(|tasks|, i requires 0 <= i < |tasks| => tasks[i].id)
  }

  function Batches(order: seq<int>, groups: map<int, seq<Task>>): seq<seq<string>>
    requires forall i :: 0 <= i < |order| ==> order[i] in groups
  {
    seq(|order|, k requires 0 <= k < |order| => Ids(groups[order[k]]))
  }

  /** Ids in different places of the input are different. */
  predicate UniqueIds(tasks: seq<Task>) {
    forall i, j :: 0 <= i < j < |tasks| ==> tasks[i].id != tasks[j].id
  }

  /** Each group is a stretch of the sorted policies. */
  lemma {:induction false} GroupIsStretch(order: seq<int>, groups: map<int, seq<Task>>, k: nat) returns (at: nat)
    requires k < |order| && forall i :: 0 <= i < |order| ==> order[i] in groups
    ensures at + |groups[order[k]]| <= |Flatten(order, groups)|
    ensures Flatten(order, groups)[at..at + |groups[order[k]]|] == groups[order[k]]
    decreases |order|
  {
    var n := |order| - 1;
    var init := Flatten(order[..n], groups);
    if k == n {
      at := |init|;
    } else {
      at := GroupIsStretch(order[..n], groups, k);
      assert Flatten(order, groups)[at..at + |groups[order[k]]|] == init[at..at + |groups[order[k]]|];
    }
  }

  /** Every policy is in the group of its priority. */
  lemma {:induction false} TaskHasGroup(order: seq<int>, groups: map<int, seq<Task>>, task: Task) returns (k: nat)
    requires (forall i :: 0 <= i < |order| ==> order[i] in groups) && task in Flatten(order, groups)
    ensures k < |order| && task in groups[order[k]]
    decreases |order|
  {
    var n := |order| - 1;
    if task in groups[order[n]] {
      k := n;
    } else {
      k := TaskHasGroup(order[..n], groups, task);
    }
  }

  lemma BatchMember(order: seq<int>, groups: map<int, seq<Task>>, tasks: seq<Task>, k: nat, id: string)
    returns (at: nat)
    requires Grouped(order, groups, tasks) && k < |order| && id in Batches(order, groups)[k]
    ensures at < |tasks| && tasks[at].id == id && tasks[at].priority == order[k]
  {
    assert order[k] in order;
    var group := groups[order[k]];
    var i :| 0 <= i < |group| && group[i].id == id;
    var from := GroupIsStretch(order, groups, k);
    assert tasks[from..from + |group|][i] == group[i] && group[i] in group;
    at := from + i;
  }

  lemma BatchesDistinct(order: seq<int>, groups: map<int, seq<Task>>, tasks: seq<Task>)
    requires Grouped(order, groups, tasks) && UniqueIds(tasks)
    ensures AllDistinct(Batches(order, groups))
  {
    var batches := Batches(order, groups);
    forall k, i, j | 0 <= k < |batches| && 0 <= i < j < |batches[k]| ensures batches[k][i] != batches[k][j] {
      assert order[k] in order;
      var group := groups[order[k]];
      var from := GroupIsStretch(order, groups, k);
      assert tasks[from..from + |group|][i] == group[i] && tasks[from..from + |group|][j] == group[j];
    }
    forall k, l, id | 0 <= k < l < |batches| && id in batches[k] ensures id !in batches[l] {
      var a := BatchMember(order, groups, tasks, k, id);
      if id in batches[l] {
        var b := BatchMember(order, groups, tasks, l, id);
        assert false;
      }
    }
  }

  lemma TaskHasBatch(order: seq<int>, groups: map<int, seq<Task>>, tasks: seq<Task>, task: Task) returns (k: nat)
    requires Grouped(order, groups, tasks) && task in tasks
    ensures k < |order| && order[k] == task.priority && task.id in Batches(order, groups)[k]
  {
    k := TaskHasGroup(order, groups, task);
    assert order[k] in order;
    var group := groups[order[k]];
    var i :| 0 <= i < |group| && group[i] == task;
    assert Ids(group)[i] == task.id;
  }

  lemma SameBatch(batches: seq<seq<string>>, k: nat, m: nat, id: string)
    requires AllDistinct(batches) && k < |batches| && m < |batches| && id in batches[k] && id in batches[m]
    ensures k == m
  {
  }

  lemma ReturnedAmong(batches: seq<seq<string>>, k: nat, l: nat, id: string, log: seq<Event>)
    requires l < k <= |batches| && AllReturned(batches[..k], log) && id in batches[l]
    ensures Returned(id) in log
  {
    assert batches[..k][l] == batches[l];
  }

  lemma KeysReflectOrder(order: seq<int>, l: nat, k: nat)
    requires StrictlyAscending(order) && l < |order| && k < |order| && order[l] < order[k]
    ensures l < k
  {
  }

  /** In every interleaving: a freeze policy starts only after every policy of
      strictly lower freezePriority has returned. */
  lemma LowerPrioritiesReturnFirst(order: seq<int>, groups: map<int, seq<Task>>, tasks: seq<Task>, ms: seq<Move>,
                                   a: Task, b: Task, j: nat)
    requires Grouped(order, groups, tasks) && UniqueIds(tasks)
    requires Moves(Start(Batches(order, groups)), ms)
    requires a in tasks && b in tasks && b.priority < a.priority
    requires j < |After(Start(Batches(order, groups)), ms).log|
    requires After(Start(Batches(order, groups)), ms).log[j] == Started(a.id)
    ensures Returned(b.id) in After(Start(Batches(order, groups)), ms).log[..j]
  {
    var batches := Batches(order, groups);
    var log := After(Start(batches), ms).log;
    BatchesDistinct(order, groups, tasks);
    RunKeeps(Start(batches), ms);
    assert EntryOrdered(batches, log, j);
    var k :| 0 <= k < |batches| && a.id in batches[k] && AllReturned(batches[..k], log[..j]);
    var l := TaskHasBatch(order, groups, tasks, b);
    var m := TaskHasBatch(order, groups, tasks, a);
    SameBatch(batches, k, m, a.id);
    KeysReflectOrder(order, l, k);
    ReturnedAmong(batches, k, l, b.id, log[..j]);
  }

  /** In every interleaving: no resume policy is flagged before every freeze policy has returned. */
  lemma AllReturnBeforeFlags(order: seq<int>, groups: map<int, seq<Task>>, tasks: seq<Task>, ms: seq<Move>,
                             task: Task, j: nat)
    requires Grouped(order, groups, tasks) && UniqueIds(tasks)
    requires Moves(Start(Batches(order, groups)), ms)
    requires task in tasks && j < |After(Start(Batches(order, groups)), ms).log|
    requires After(Start(Batches(order, groups)), ms).log[j].Flagged?
    ensures Returned(task.id) in After(Start(Batches(order, groups)), ms).log[..j]
  {
    var batches := Batches(order, groups);
    BatchesDistinct(order, groups, tasks);
    RunKeeps(Start(batches), ms);
    assert EntryOrdered(batches, After(Start(batches), ms).log, j);
    var k := TaskHasBatch(order, groups, tasks, task);
  }

  /** In every interleaving: nothing is started twice, and once the last barrier is
      passed everything has been started. */
  lemma EachRunsOnce(order: seq<int>, groups: map<int, seq<Task>>, tasks: seq<Task>, ms: seq<Move>, task: Task)
    requires Grouped(order, groups, tasks) && UniqueIds(tasks)
    requires Moves(Start(Batches(order, groups)), ms) && task in tasks
    ensures
      var r := After(Start(Batches(order, groups)), ms);
      && (forall i, j :: 0 <= i < j < |r.log| && r.log[i].Started? ==> r.log[i] != r.log[j])
      && (r.current == |r.batches| ==> Started(task.id) in r.log && Returned(task.id) in r.log)
  {
    var batches := Batches(order, groups);
    BatchesDistinct(order, groups, tasks);
    RunKeeps(Start(batches), ms);
    var r := After(Start(batches), ms);
    var k := TaskHasBatch(order, groups, tasks, task);
    forall i, j | 0 <= i < j < |r.log| && r.log[i].Started? ensures r.log[i] != r.log[j] {
      assert EntryOrdered(batches, r.log, j);
      assert r.log[..j][i] == r.log[i];
    }
  }

  // ---------------------------------------------------------- no deadlock

  /** The move that brings the groups on: spawn, begin, end, and when all have returned
      the barrier. */
  lemma NextMove(r: Run) returns (m: Move)
    requires Sound(r) && r.current < |r.batches|
    ensures Possible(r, m) && !m.Flag?
    ensures m.Begin? ==> m.id in r.batches[r.current]
    ensures m.End? ==> r.spawned == |r.batches[r.current]| && m.id in r.batches[r.current]
  {
    var batch := r.batches[r.current];
    if r.spawned < |batch| { return Spawn; }
    assert batch[..|batch|] == batch;
    if id :| id in batch && id !in r.started { return Begin(id); }
    if id :| id in batch && id !in r.returned { return End(id); }
    AllBack(r);
    return PassBarrier;
  }

  lemma AllBack(r: Run)
    requires Barrier(r) && r.current < |r.batches| && r.spawned == |r.batches[r.current]|
    requires forall id <- r.batches[r.current] :: id in r.returned
    ensures r.counter == 0
  {
    var batch := r.batches[r.current];
    assert Window(r) == batch;
    DistinctSize(batch);
    assert Elements(batch) * r.returned == Elements(batch);
  }

  lemma FewerLeft(batch: seq<string>, done: set<string>, id: string)
    requires id in batch && id !in done
    ensures |Elements(batch) - (done + {id})| < |Elements(batch) - done|
  {
    assert Elements(batch) - done == (Elements(batch) - (done + {id})) + {id};
  }

  lemma MovesCons(r: Run, m: Move, ms: seq<Move>)
    requires Possible(r, m) && Moves(Next(r, m), ms)
    ensures Moves(r, [m] + ms) && After(r, [m] + ms) == After(Next(r, m), ms)
  {
    assert ([m] + ms)[1..] == ms;
  }

  lemma {:induction false} FinishFrom(r: Run) returns (ms: seq<Move>)
    requires Sound(r)
    ensures Moves(r, ms) && After(r, ms).current == |r.batches|
    decreases
      |r.batches| - r.current,
      if r.current < |r.batches| then |r.batches[r.current]| - r.spawned else 0,
      if r.current < |r.batches| then |Elements(r.batches[r.current]) - r.started| else 0,
      if r.current < |r.batches| then |Elements(r.batches[r.current]) - r.returned| else 0
  {
    if r.current == |r.batches| { return []; }
    var batch := r.batches[r.current];
    var m := NextMove(r);
    MoveKeeps(r, m);
    if m.Begin? { FewerLeft(batch, r.started, m.id); }
    if m.End? { FewerLeft(batch, r.returned, m.id); }
    var rest := FinishFrom(Next(r, m));
    MovesCons(r, m, rest);
    ms := [m] + rest;
  }

  /** From wherever an interleaving has led, the groups can be brought to the last barrier. */
  lemma AlwaysFinishes(order: seq<int>, groups: map<int, seq<Task>>, tasks: seq<Task>, ms: seq<Move>)
    returns (more: seq<Move>)
    requires Grouped(order, groups, tasks) && UniqueIds(tasks)
    requires Moves(Start(Batches(order, groups)), ms)
    ensures
      var r := After(Start(Batches(order, groups)), ms);
      Moves(r, more) && After(r, more).current == |r.batches|
  {
    BatchesDistinct(order, groups, tasks);
    RunKeeps(Start(Batches(order, groups)), ms);
    more := FinishFrom(After(Start(Batches(order, groups)), ms));
  }
}
