/** Freezing and resuming one Deployment or StatefulSet.  The two kinds are
    handled by the same code with different types. */
module Workloads {
  import opened Options
  import opened Decimal

  const REPLICAS_KEY := "apps.ops.dev/original-replicas"
  const GRACE_KEY := "apps.ops.dev/original-termination-grace-period"
  const NIL := "nil"

  /** The part of a workload that the operator reads and writes. */
  datatype Workload = Workload(replicas: Option<int>, grace: Option<int>, annotations: map<string, string>)

  predicate Typed(w: Workload) {
    && (w.replicas.Some? ==> IsInt32(w.replicas.value))
    && (w.grace.Some? ==> IsInt64(w.grace.value))
  }

  /** An absent replica count means one replica. */
  function EffectiveReplicas(w: Workload): int {
    if w.replicas.Some? then w.replicas.value else 1
  }

  function Frozen(w: Workload, override: Option<int>): Workload {
    if w.replicas == Some(0) then w
    else
      var noted := w.annotations[REPLICAS_KEY := Itoa(EffectiveReplicas(w))];
      if override.None? then Workload(Some(0), w.grace, noted)
      else
        Workload(Some(0), override, noted[GRACE_KEY := if w.grace.Some? then Itoa(w.grace.value) else NIL])
  }

  /** What a freeze writes down can be read back. */
  lemma FreezeNotes(w: Workload, override: Option<int>)
    requires w.replicas != Some(0)
    ensures
      var f := Frozen(w, override).annotations;
      && f - {REPLICAS_KEY, GRACE_KEY} == w.annotations - {REPLICAS_KEY, GRACE_KEY}
      && REPLICAS_KEY in f
      && (Typed(w) ==> Atoi(f[REPLICAS_KEY]) == Some(EffectiveReplicas(w)))
      && (override.Some? ==>
            && GRACE_KEY in f && (w.grace.None? <==> f[GRACE_KEY] == "nil")
            && (w.grace.Some? && Typed(w) ==> Atoi(f[GRACE_KEY]) == w.grace))
      && (override.None? ==>
            && (GRACE_KEY in f <==> GRACE_KEY in w.annotations)
            && (GRACE_KEY in f ==> f[GRACE_KEY] == w.annotations[GRACE_KEY]))
  {
    var n := EffectiveReplicas(w);
    if IsInt64(n) { RoundTrip(n); }
    if w.grace.Some? {
      NilIsNoNumber(w.grace.value);
      if IsInt64(w.grace.value) { RoundTrip(w.grace.value); }
    }
  }

  function RestoredGrace(w: Workload): Option<int> {
    if GRACE_KEY !in w.annotations then w.grace
    else if w.annotations[GRACE_KEY] == NIL then None
    else
      var parsed := Atoi(w.annotations[GRACE_KEY]);
      if parsed.Some? then parsed else w.grace
  }

  /** `None` is the error of an annotation that does not parse.  The count comes
      from the caller's copy, everything else from the stored workload. */
  function Resumed(seen: Workload, w: Workload): Option<Workload> {
    if REPLICAS_KEY !in seen.annotations then Some(w)
    else
      var original := Atoi(seen.annotations[REPLICAS_KEY]);
      if original.None? then None
      else if REPLICAS_KEY !in w.annotations then Some(w)
      else Some(Workload(Some(ToInt32(original.value)), RestoredGrace(w), w.annotations - {REPLICAS_KEY, GRACE_KEY}))
  }

  /** The stored object behind the API server, changed in place. */
  class Stored {
    var replicas: Option<int>
    var grace: Option<int>
    var annotations: map<string, string>

    constructor (w: Workload)
      ensures Value() == w
    {
      replicas, grace, annotations := w.replicas, w.grace, w.annotations;
    }

    function Value(): Workload
      reads this
    {
      Workload(replicas, grace, annotations)
    }

    /** freezeDeployment and freezeStatefulSet; `ok` says whether the API calls succeed. */
    method Freeze(override: Option<int>, ok: bool) returns (success: bool)
      modifies this
      ensures success == ok
      ensures Value() == if ok then Frozen(old(Value()), override) else old(Value())
      ensures !ok || old(replicas) == Some(0) ==> Value() == old(Value())
      ensures ok && old(replicas) != Some(0) ==>
        && replicas == Some(0)
        && grace == (if override.Some? then override else old(grace))
        && annotations - {REPLICAS_KEY, GRACE_KEY} == old(annotations) - {REPLICAS_KEY, GRACE_KEY}
      ensures ok && old(replicas) != Some(0) && Typed(old(Value())) ==>
        && REPLICAS_KEY in annotations
        && Atoi(annotations[REPLICAS_KEY]) == Some(if old(replicas).Some? then old(replicas).value else 1)
      ensures ok && old(replicas) != Some(0) && override.None? ==>
        && (GRACE_KEY in annotations <==> GRACE_KEY in old(annotations))
        && (GRACE_KEY in annotations ==> annotations[GRACE_KEY] == old(annotations)[GRACE_KEY])
      ensures ok && old(replicas) != Some(0) && override.Some? && Typed(old(Value())) ==>
        && GRACE_KEY in annotations
        && (old(grace).None? <==> annotations[GRACE_KEY] == "nil")
        && (old(grace).Some? ==> Atoi(annotations[GRACE_KEY]) == old(grace))
    {
      if !ok { return false; }
      if replicas.Some? && replicas.value == 0 { return true; }
      var original := 1;
      if replicas.Some? { original := replicas.value; }
      FreezeNotes(Value(), override);
      annotations := annotations[REPLICAS_KEY := Itoa(original)];
      if override.Some? {
        if grace.Some? {
          annotations := annotations[GRACE_KEY := Itoa(grace.value)];
        } else {
          annotations := annotations[GRACE_KEY := NIL];
        }
        grace := override;
      }
      replicas := Some(0);
      return true;
    }

    /** resumeDeployment and resumeStatefulSet on the caller's copy `seen`. */
    method Resume(seen: Workload, ok: bool) returns (success: bool)
      modifies this
      ensures success <==> REPLICAS_KEY !in seen.annotations || (ok && Resumed(seen, old(Value())).Some?)
      ensures Value() == if success && REPLICAS_KEY in seen.annotations then Resumed(seen, old(Value())).value
                         else old(Value())
      ensures !success || REPLICAS_KEY !in seen.annotations || REPLICAS_KEY !in old(annotations) ==>
        Value() == old(Value())
      ensures success && REPLICAS_KEY in seen.annotations && REPLICAS_KEY in old(annotations) ==>
        && Atoi(seen.annotations[REPLICAS_KEY]).Some?
        && replicas == Some(ToInt32(Atoi(seen.annotations[REPLICAS_KEY]).value))
        && annotations == old(annotations) - {REPLICAS_KEY, GRACE_KEY}
        && grace ==
             (if GRACE_KEY !in old(annotations) then old(grace)
              else if old(annotations)[GRACE_KEY] == "nil" then None
              else if Atoi(old(annotations)[GRACE_KEY]).Some? then Atoi(old(annotations)[GRACE_KEY])
              else old(grace))
    {
      if REPLICAS_KEY !in seen.annotations { return true; }
      var original := Atoi(seen.annotations[REPLICAS_KEY]);
      if original.None? { return false; }
      if !ok { return false; }
      if REPLICAS_KEY !in annotations { return true; }
      ghost var before := Value();
      replicas := Some(ToInt32(original.value));
      if GRACE_KEY in annotations {
        if annotations[GRACE_KEY] == NIL {
          grace := None;
        } else {
          var parsed := Atoi(annotations[GRACE_KEY]);
          if parsed.Some? { grace := parsed; }
        }
        annotations := annotations - {GRACE_KEY};
      }
      annotations := annotations - {REPLICAS_KEY};
      assert annotations == before.annotations - {REPLICAS_KEY, GRACE_KEY};
      return true;
    }
  }

  // ------------------------------------------------------------ conservation

  /** Annotations that are not the operator's. */
  function Foreign(w: Workload): map<string, string> {
    w.annotations - {REPLICAS_KEY, GRACE_KEY}
  }

  predicate Clean(w: Workload) {
    REPLICAS_KEY !in w.annotations && GRACE_KEY !in w.annotations
  }

  /** Running exactly as at the beginning. */
  predicate Active(origin: Workload, w: Workload) {
    && EffectiveReplicas(w) == EffectiveReplicas(origin) && w.grace == origin.grace
    && Clean(w) && w.annotations == origin.annotations
  }

  /** At zero, with annotations that decode exactly to the beginning. */
  predicate Remembers(origin: Workload, w: Workload) {
    && w.replicas == Some(0) && EffectiveReplicas(origin) != 0
    && REPLICAS_KEY in w.annotations
    && Atoi(w.annotations[REPLICAS_KEY]) == Some(EffectiveReplicas(origin))
    && RestoredGrace(w) == origin.grace
    && Foreign(w) == origin.annotations
  }

  predicate Conserved(origin: Workload, w: Workload) {
    Active(origin, w) || Remembers(origin, w)
  }

  lemma FreezeConserves(origin: Workload, w: Workload, override: Option<int>)
    requires Typed(origin) && Clean(origin) && Conserved(origin, w)
    ensures Conserved(origin, Frozen(w, override))
    ensures Frozen(w, override).replicas == Some(0)
  {
    if Active(origin, w) && w.replicas != Some(0) {
      var f := Frozen(w, override);
      RoundTrip(EffectiveReplicas(w));
      if w.grace.Some? {
        RoundTrip(w.grace.value);
        NilIsNoNumber(w.grace.value);
      }
      assert Foreign(f) == origin.annotations;
      assert RestoredGrace(f) == origin.grace;
    }
  }

  /** Any earlier copy serves for the resume. */
  lemma ResumeConserves(origin: Workload, seen: Workload, w: Workload)
    requires Typed(origin) && Clean(origin) && Conserved(origin, seen) && Conserved(origin, w)
    ensures Resumed(seen, w).Some? && Conserved(origin, Resumed(seen, w).value)
    ensures REPLICAS_KEY in seen.annotations ==> Active(origin, Resumed(seen, w).value)
  {
    if REPLICAS_KEY in seen.annotations {
      assert IsInt32(EffectiveReplicas(origin));
      Int32Exact(EffectiveReplicas(origin));
    }
  }

  /** Freeze with an optional grace override, or resume with the copy taken
      after step `copy` of the run; either may fail at the API server. */
  datatype Op = FreezeOp(override: Option<int>, ok: bool) | ResumeOp(copy: nat, ok: bool)

  /** The states of a run, the first one included. */
  function States(origin: Workload, ops: seq<Op>): (ws: seq<Workload>)
    ensures |ws| == |ops| + 1
  {
    if |ops| == 0 then [origin]
    else
      var before := States(origin, ops[..|ops| - 1]);
      before + [Applied(before, ops[|ops| - 1])]
  }

  function Applied(before: seq<Workload>, op: Op): Workload
    requires |before| > 0
  {
    var w := before[|before| - 1];
    match op
    case FreezeOp(override, ok) => if ok then Frozen(w, override) else w
    case ResumeOp(copy, ok) =>
      if !ok || copy >= |before| then w
      else
        var r := Resumed(before[copy], w);
        if r.Some? then r.value else w
  }

  /** From a workload without operator annotations, after any sequence of freezes
      and resumes, each resume with any earlier copy: the workload either runs as
      at the beginning or is frozen and remembers the beginning exactly. */
  lemma {:induction false} Conservation(origin: Workload, ops: seq<Op>)
    requires Typed(origin) && Clean(origin)
    ensures forall w <- States(origin, ops) :: Conserved(origin, w)
    decreases |ops|
  {
    if |ops| > 0 {
      var before := States(origin, ops[..|ops| - 1]);
      Conservation(origin, ops[..|ops| - 1]);
      var w := before[|before| - 1];
      assert w in before;
      match ops[|ops| - 1]
      case FreezeOp(override, ok) => FreezeConserves(origin, w, override);
      case ResumeOp(copy, ok) =>
        if copy < |before| {
          assert before[copy] in before;
          ResumeConserves(origin, before[copy], w);
        }
    }
  }

  /** A frozen workload runs again after a resume exactly when the copy the resume
      was given carries the annotation; otherwise it is left as it is. */
  lemma ResumesIff(origin: Workload, seen: Workload, w: Workload)
    requires Typed(origin) && Clean(origin) && Conserved(origin, seen) && Remembers(origin, w)
    ensures Resumed(seen, w).Some?
    ensures Active(origin, Resumed(seen, w).value) <==> Remembers(origin, seen)
    ensures !Remembers(origin, seen) ==> Resumed(seen, w).value == w
  {
    ResumeConserves(origin, seen, w);
    assert REPLICAS_KEY in seen.annotations <==> Remembers(origin, seen);
  }
}
