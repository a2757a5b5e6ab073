/** Reading a number from decoded JSON by a dot-separated path. */
module JsonPath {

  /** Decoded JSON; all numeric types read as a real number. */
  datatype Json = Object(members: map<string, Json>) | Number(value: real) | Other

  datatype Answer = Found(value: real) | NotAnObject(at: nat) | Missing(at: nat) | NotANumber | UnexpectedEnd

  // -------------------------------------------------------- splitting at dots

  predicate DotFree(key: string) {
    '.' !in key
  }

  /** strings.Split(path, "."). */
  function Split(path: string): (keys: seq<string>)
    ensures |keys| > 0 && forall key <- keys :: DotFree(key)
  {
    if |path| == 0 then [""]
    else
      var rest := Split(path[1..]);
      assert DotFree(rest[0]) && forall key <- rest[1..] :: key in rest;
      if path[0] == '.' then [""] + rest else [[path[0]] + rest[0]] + rest[1..]
  }

  function Join(keys: seq<string>): string
    requires |keys| > 0
  {
    if |keys| == 1 then keys[0] else keys[0] + "." + Join(keys[1..])
  }

  lemma {:induction false} JoinOfSplit(path: string)
    ensures Join(Split(path)) == path
    decreases |path|
  {
    if |path| > 0 {
      var rest := Split(path[1..]);
      JoinOfSplit(path[1..]);
      assert path == [path[0]] + path[1..];
      if path[0] == '.' {
        assert ([""] + rest)[1..] == rest;
      } else {
        var keys := [[path[0]] + rest[0]] + rest[1..];
        assert keys[1..] == rest[1..];
      }
    }
  }

  lemma {:induction false} SplitOfDotFree(key: string)
    requires DotFree(key)
    ensures Split(key) == [key]
    decreases |key|
  {
    if |key| > 0 {
      SplitOfDotFree(key[1..]);
      assert key == [key[0]] + key[1..];
    }
  }

  lemma {:induction false} SplitAtFirstDot(key: string, rest: string)
    requires DotFree(key)
    ensures Split(key + "." + rest) == [key] + Split(rest)
    decreases |key|
  {
    var path := key + "." + rest;
    if |key| == 0 {
      assert path[1..] == rest;
    } else {
      assert path[1..] == key[1..] + "." + rest;
      SplitAtFirstDot(key[1..], rest);
      assert key == [key[0]] + key[1..];
      assert ([key[1..]] + Split(rest))[1..] == Split(rest);
    }
  }

  /** Joining dot-free keys and splitting again gives the keys. */
  lemma {:induction false} SplitOfJoin(keys: seq<string>)
    requires |keys| > 0 && forall key <- keys :: DotFree(key)
    ensures Split(Join(keys)) == keys
    decreases |keys|
  {
    assert keys[0] in keys;
    if |keys| == 1 {
      SplitOfDotFree(keys[0]);
      assert keys == [keys[0]];
    } else {
      SplitOfJoin(keys[1..]);
      SplitAtFirstDot(keys[0], Join(keys[1..]));
      assert keys == [keys[0]] + keys[1..];
    }
  }

  // --------------------------------------------------------------- the lookup

  /** The values met on the way along the keys, from the root on. */
  predicate Trail(data: Json, keys: seq<string>, nodes: seq<Json>) {
    && 0 < |nodes| <= |keys| + 1 && nodes[0] == data
    && forall i :: 0 <= i < |nodes| - 1 ==>
         nodes[i].Object? && keys[i] in nodes[i].members && nodes[i + 1] == nodes[i].members[keys[i]]
  }

  /** The way ends at the last of these values, with this answer. */
  predicate EndsWith(keys: seq<string>, nodes: seq<Json>, answer: Answer)
    requires 0 < |nodes| <= |keys| + 1
  {
    var n, last := |nodes| - 1, nodes[|nodes| - 1];
    if n == |keys| then answer == if last.Number? then Found(last.value) else NotANumber
    else if !last.Object? then answer == NotAnObject(n)
    else keys[n] !in last.members && answer == Missing(n)
  }

  /** There is one way along the keys only. */
  lemma {:induction false} SameTrail(data: Json, keys: seq<string>, nodes: seq<Json>, others: seq<Json>, i: nat)
    requires Trail(data, keys, nodes) && Trail(data, keys, others) && i < |nodes| && i < |others|
    ensures nodes[i] == others[i]
    decreases i
  {
    if i > 0 { SameTrail(data, keys, nodes, others, i - 1); }
  }

  lemma OneAnswer(data: Json, keys: seq<string>, nodes: seq<Json>, answer: Answer, others: seq<Json>, other: Answer)
    requires Trail(data, keys, nodes) && EndsWith(keys, nodes, answer)
    requires Trail(data, keys, others) && EndsWith(keys, others, other)
    ensures answer == other
  {
    var i := (if |nodes| < |others| then |nodes| else |others|) - 1;
    SameTrail(data, keys, nodes, others, i);
  }

  /** extractJSONPath: for every path the answer at the end of the way along its keys,
      so the error after the loop never occurs. */
  method Extract(data: map<string, Json>, path: string) returns (answer: Answer, ghost nodes: seq<Json>)
    ensures Trail(Object(data), Split(path), nodes) && EndsWith(Split(path), nodes, answer)
    ensures !answer.UnexpectedEnd?
  {
    var keys := Split(path);
    var current := Object(data);
    nodes := [current];
    for i := 0 to |keys|
      invariant i < |keys| && |nodes| == i + 1
      invariant Trail(Object(data), keys, nodes) && nodes[i] == current
    {
      if !current.Object? { return NotAnObject(i), nodes; }
      var key := keys[i];
      if key !in current.members { return Missing(i), nodes; }
      var value := current.members[key];
      nodes := nodes + [value];
      if i == |keys| - 1 {
        if value.Number? { return Found(value.value), nodes; }
        return NotANumber, nodes;
      }
      current := value;
    }
    return UnexpectedEnd, nodes;
  }
}
