/** The marshallers in the form of the source: loops that fill slots in place and a shared error
    list. Each is proved to compute what the functions of `Execution` say. */
module Marshallers {
  import opened Options
  import opened IntrospectionTables
  import opened Execution
  import opened FieldErrors
  import opened NullPropagation
  import opened TypeSoundness
  import opened WellTyped
  import opened ResponseValues

  datatype Outcome = Panicked | Marshalled(out: Out)

  /** The result and the recorded errors are those of the run. */
  ghost predicate Computes(run: Run, r: Outcome, before: multiset<Path>, after: multiset<Path>) {
    && (r.Panicked? <==> run.Panic?)
    && (r.Marshalled? ==> r.out == run.out && after == before + run.errs)
  }

  /** Nothing is on record at or below the path. */
  ghost predicate Clean(path: Path, errs: multiset<Path>) {
    forall q :: q in errs ==> !(path <= q)
  }

  /** Nothing is on record below the path; at the path there may be. */
  ghost predicate CleanBelow(path: Path, errs: multiset<Path>) {
    forall q :: q in errs ==> !(path < q)
  }

  lemma CleanSlot(path: Path, errs: multiset<Path>, i: nat)
    requires CleanBelow(path, errs)
    ensures Clean(path + [i], errs)
  {
    forall q | q in errs ensures !(path + [i] <= q) {
      if path + [i] <= q {
        SlotPrefix(path, i, q);
      }
    }
  }

  lemma SlotErrorsBelow(w: World, path: Path, o: ObjType, sels: seq<Sel>, id: nat, i: nat)
    requires i < |sels| && SlotRun(w, path, o, sels, id, i).Done?
    ensures AtOrBelow(path + [i], SlotRun(w, path, o, sels, id, i).errs)
  {
    if HasMethod(o, sels[i].name) {
      FieldErrorsBelow(w, path + [i], o, sels[i], id);
    }
  }

  /** Errors of other slots leave a slot clean. */
  lemma OthersLeaveClean(path: Path, before: multiset<Path>, runs: seq<Run>, i: nat)
    requires CleanBelow(path, before) && InSlots(path, runs) && |runs| <= i
    ensures Gather(runs).Slots? && Clean(path + [i], before + Gather(runs).errs)
  {
    GatherErrors(path, runs, path);
    CleanSlot(path, before, i);
    forall q | q in before + Gather(runs).errs ensures !(path + [i] <= q) {
      GatherErrors(path, runs, q);
      if path + [i] <= q {
        SlotPrefix(path, i, q);
      }
    }
  }

  lemma {:induction false} GatherSnoc(runs: seq<Run>, run: Run)
    ensures Gather(runs + [run]) == match Gather(runs)
                                    case SlotPanic => SlotPanic
                                    case Slots(outs, errs) =>
                                      match run
                                      case Panic => SlotPanic
                                      case Done(out, more) => Slots(outs + [out], errs + more)
  {
    assert (runs + [run])[..|runs|] == runs;
  }

  class Executor {
    const w: World
    var errors: seq<Path>

    constructor (w: World)
      ensures this.w == w && errors == []
    {
      this.w := w;
      errors := [];
    }

    predicate HasFieldError(path: Path)
      reads this
    {
      path in errors
    }

    method Error(path: Path)
      modifies this
      ensures errors == old(errors) + [path]
      ensures multiset(errors) == multiset(old(errors)) + One(path, true)
    {
      errors := errors + [path];
    }

    /** The root marshaller on a fresh response: a query that the Child tables accept is answered
        without a panic, by the one object that the resolvers' answers call for, which conforms to
        the schema at every depth. Its errors are exactly the field errors that execution reaches,
        one per position unless a resolver that is reached both records an error and fails. */
    method Query(sels: seq<Sel>, id: nat) returns (r: Outcome)
      requires errors == []
      modifies this
      ensures AcceptedRoot(sels) ==> r.Marshalled?
      ensures r.Marshalled? ==> r.out.Object? && Conforms(r.out, Named(QueryObject), sels)
      ensures r.Marshalled? ==> ShowsObject(w, [], QueryObject, sels, id, r.out)
      ensures r.Marshalled? ==> forall route ::
                route in errors <==> ObjectErrorAt(w, [], QueryObject, sels, id, route)
      ensures r.Marshalled? ==>
                ((forall q :: multiset(errors)[q] <= 1) <==> !ReachesUndisciplined(w, [], QueryObject, sels, id))
    {
      r := MarshalObject([], QueryObject, sels, id);
      if AcceptedRoot(sels) {
        TypeSound(w, [], sels, id);
      }
      if r.Marshalled? {
        RootNeverNull(w, [], sels, id);
        ObjectConforms(w, [], QueryObject, sels, id);
        ObjectShows(w, [], QueryObject, sels, id);
        ErrorIff(w, [], QueryObject, sels, id);
        assert forall route: Path :: [] + route == route;
        SecondErrorIff(w, [], QueryObject, sels, id);
        assert multiset(errors) == ObjectRun(w, [], QueryObject, sels, id).errs;
      }
    }

    /** An object marshaller. The dispatch of the field set has nothing left to fill, since every
        slot is assigned in the loop, and there are no deferred groups to register. */
    method MarshalObject(path: Path, o: ObjType, sels: seq<Sel>, id: nat) returns (r: Outcome)
      requires CleanBelow(path, multiset(errors))
      modifies this
      ensures Computes(ObjectRun(w, path, o, sels, id), r, multiset(old(errors)), multiset(errors))
      decreases sels, 2
    {
      ghost var runs := ObjectSlots(w, path, o, sels, id);
      ghost var before := multiset(errors);
      var values := new Out[|sels|](_ => Null);
      var invalids := 0;
      var i := 0;
      ObjectStart(path, o, sels, runs, before);
      assert values[..0] == [];
      while i < |sels|
        invariant 0 <= i <= |sels|
        invariant ObjectSoFar(path, o, sels, runs, before, values[..i], invalids, multiset(errors))
      {
        var panicked, invalid := FillSlot(path, o, sels, id, i, values, invalids, runs, before);
        if panicked {
          ObjectPanics(o, sels, runs, i);
          return Panicked;
        }
        invalids := if invalid then invalids + 1 else invalids;
        i := i + 1;
      }
      assert values[..] == values[..|sels|];
      ObjectDone(path, o, sels, runs, before, values[..], invalids, multiset(errors));
      r := Marshalled(if invalids > 0 then Null else Object(o, values[..]));
    }

    /** One turn of that loop: slot i is assigned, and a null there may be counted. */
    method FillSlot(path: Path, o: ObjType, sels: seq<Sel>, id: nat, i: nat, values: array<Out>, invalids: nat,
                    ghost runs: seq<Run>, ghost before: multiset<Path>)
      returns (panicked: bool, invalid: bool)
      requires i < |sels| == values.Length && SlotsOf(w, path, o, sels, id, runs)
      requires ObjectSoFar(path, o, sels, runs, before, values[..i], invalids, multiset(errors))
      modifies this, values
      ensures panicked <==> runs[i].Panic?
      ensures !panicked ==> ObjectSoFar(path, o, sels, runs, before, values[..i + 1],
                                        invalids + (if invalid then 1 else 0), multiset(errors))
      decreases sels, 1
    {
      ghost var mid, filled := multiset(errors), values[..i];
      SoFarLeavesClean(path, o, sels, runs, before, filled, invalids, mid);
      var slot;
      slot, invalid := MarshalSlot(path, o, sels, id, i);
      if slot.Panicked? {
        return true, false;
      }
      SlotErrorsBelow(w, path, o, sels, id, i);
      ObjectStep(path, o, sels, runs, before, filled, invalids, mid);
      values[i] := slot.out;
      assert values[..i + 1] == filled + [slot.out];
      panicked := false;
    }

    /** One case of an object marshaller's switch, and whether it counts a null. */
    method MarshalSlot(path: Path, o: ObjType, sels: seq<Sel>, id: nat, i: nat) returns (r: Outcome, invalid: bool)
      requires i < |sels| && Clean(path + [i], multiset(errors))
      modifies this
      ensures Computes(SlotRun(w, path, o, sels, id, i), r, multiset(old(errors)), multiset(errors))
      ensures r.Marshalled? ==> (invalid <==> Invalid(o, sels[i], r.out))
      decreases sels, 0
    {
      invalid := false;
      match Switch(o, sels[i].name) {
        case TypenameCase => r := Marshalled(Scalar(TypeName(o)));
        case Panics => r := Panicked;
        case Optional => r := ResolveField(path + [i], o, sels[i], id);
        case Required =>
          r := ResolveField(path + [i], o, sels[i], id);
          if r == Marshalled(Null) {
            invalid := true;
          }
      }
    }

    /** A field method: `ResolveField` with the tables' entries for the field. */
    method ResolveField(path: Path, o: ObjType, sel: Sel, id: nat) returns (r: Outcome)
      requires Clean(path, multiset(errors))
      modifies this
      ensures Computes(FieldRun(w, path, o, sel, id), r, multiset(old(errors)), multiset(errors))
      decreases sel, 8
    {
      var args := ProcessArgs(o, sel.name, sel.raw);
      if args.None? {
        Error(path);
        return Marshalled(Null);
      }
      if !AssertionsHold(o, sel.name, args.value) {
        return Panicked;
      }
      FieldIsDelivered(w, path, o, sel, id);
      var resolution := Resolve(w, path, o, sel.name, id);
      r := Deliver(path, MarshallerOf(o, sel.name), NonNullFlag(o, sel.name), sel.subs, resolution);
    }

    /** The body of `ResolveField` from the resolver's answer on. */
    method Deliver(path: Path, m: Marshaller, nonNull: bool, subs: seq<Sel>, resolution: Resolution)
      returns (r: Outcome)
      requires Clean(path, multiset(errors))
      modifies this
      ensures Computes(Delivered(w, path, m, nonNull, subs, resolution), r, multiset(old(errors)), multiset(errors))
      decreases subs, 8
    {
      r := Marshalled(Null);
      if resolution.reported {
        Error(path);
      }
      Reported(path, multiset(old(errors)), multiset(errors), resolution.reported);
      assert HasFieldError(path) <==> path in multiset(errors);
      match resolution.result {
        case Failed =>
          Error(path);
        case Absent =>
          if nonNull && !HasFieldError(path) {
            Error(path);
          }
        case Got(v) =>
          if Fits(m, v) {
            r := MarshalValue(path, m, subs, v);
          } else {
            Error(path);
          }
      }
    }

    /** `marshalN…` and `marshalO…`, with the guard on the error for a null. */
    method MarshalValue(path: Path, m: Marshaller, subs: seq<Sel>, v: Value) returns (r: Outcome)
      requires Fits(m, v) && CleanBelow(path, multiset(errors))
      modifies this
      ensures Computes(Complete(w, path, m, subs, v, old(path in errors)), r, multiset(old(errors)), multiset(errors))
      decreases subs, 7
    {
      r := Marshalled(Null);
      match m
      case NLeaf =>
        r := Marshalled(Text(v.text));
        if r.out == Null && !HasFieldError(path) {
          Error(path);
        }
      case OLeaf =>
        r := Marshalled(Text(v.text));
      case OLeafPtr =>
        if !v.NilValue? {
          r := Marshalled(Text(v.text));
        }
      case NPtr(o) =>
        if v.NilValue? {
          if !HasFieldError(path) {
            Error(path);
          }
        } else {
          r := MarshalObject(path, o, subs, v.id);
        }
      case OPtr(o) =>
        if !v.NilValue? {
          r := MarshalObject(path, o, subs, v.id);
        }
      case NList(elem) =>
        r := MarshalList(path, elem, subs, v);
      case OList(elem) =>
        if !v.NilValue? {
          r := MarshalList(path, elem, subs, v);
        }
    }

    method MarshalElem(path: Path, elem: Elem, subs: seq<Sel>, v: Value, i: nat) returns (r: Outcome)
      requires Fits(NList(elem), v) && i < Count(v) && Clean(path + [i], multiset(errors))
      modifies this
      ensures Computes(ElemRun(w, path, elem, subs, v, i), r, multiset(old(errors)), multiset(errors))
      decreases subs, 3
    {
      match elem
      case LeafElem =>
        r := Marshalled(Text(v.texts[i]));
        if r.out == Null && !HasFieldError(path + [i]) {
          Error(path + [i]);
        }
      case ObjectElem(o) =>
        r := MarshalObject(path + [i], o, subs, v.ids[i]);
    }

    /** What one worker does: marshal its element and store it in its own slot. */
    method Worker(path: Path, elem: Elem, subs: seq<Sel>, v: Value, ret: array<Out>, i: nat, ghost g: Fork)
      returns (panicked: bool)
      requires Fits(NList(elem), v) && ForkOf(w, path, elem, subs, v, g.runs)
      requires Working(path, g, ret[..], multiset(errors)) && i in g.running
      modifies this, ret
      ensures panicked ==> i < |g.runs| && g.runs[i].Panic?
      ensures !panicked ==> Working(path, Finish(g, i), ret[..], multiset(errors))
      decreases subs, 4
    {
      ghost var mid := multiset(errors);
      FinishOne(path, g, ret[..], mid, i);
      UnfinishedIsClean(path, g.before, g.runs, g.finished, mid, i);
      var out := MarshalElem(path, elem, subs, v, i);
      if out.Panicked? {
        return true;
      }
      ElemErrorsBelow(w, path, elem, subs, v, i);
      OneMoreFinished(path, g.before, g.runs, g.finished, mid, i);
      Stored(path, g, ret[..], mid, i);
      ghost var slots := ret[..];
      ret[i] := out.out;
      assert ret[..] == slots[i := out.out];
      return false;
    }

    /** Starts one worker per element, in order, and waits; started workers run in any order. */
    method RunWorkers(path: Path, elem: Elem, subs: seq<Sel>, v: Value, ret: array<Out>, ghost runs: seq<Run>)
      returns (panicked: bool)
      requires Fits(NList(elem), v) && ForkOf(w, path, elem, subs, v, runs) && ret.Length == |runs|
      requires CleanBelow(path, multiset(errors))
      modifies this, ret
      ensures panicked ==> exists i :: 0 <= i < |runs| && runs[i].Panic?
      ensures !panicked ==> Filled(runs, ret[..], multiset(old(errors)), multiset(errors))
      decreases subs, 5
    {
      var n := ret.Length;
      var wg, spawned := n, 0;
      var running: set<nat> := {};
      ghost var g := Fork(runs, multiset(errors), n, 0, {}, {});
      while spawned < n || wg > 0
        invariant g.runs == runs && g.before == multiset(old(errors))
        invariant wg == g.wg && spawned == g.spawned && running == g.running && spawned <= n
        invariant Working(path, g, ret[..], multiset(errors))
        decreases 2 * (n - spawned) + wg
      {
        var startNext: bool := *;
        if spawned < n && (startNext || running == {}) {
          StartOne(path, g, ret[..], multiset(errors));
          g := Start(g);
          running := running + {spawned};
          spawned := spawned + 1;
        } else {
          SomeRuns(path, g, ret[..], multiset(errors));
          var i :| i in running;
          panicked := Worker(path, elem, subs, v, ret, i, g);
          if panicked {
            return;
          }
          g := Finish(g, i);
          running := running - {i};
          wg := wg - 1;
        }
      }
      AllFinished(path, g, ret[..], multiset(errors));
      panicked := false;
    }

    /** The path for a single element: the loop itself marshals it. */
    method RunInline(path: Path, elem: Elem, subs: seq<Sel>, v: Value, ret: array<Out>, ghost runs: seq<Run>)
      returns (panicked: bool)
      requires Fits(NList(elem), v) && ForkOf(w, path, elem, subs, v, runs) && ret.Length == |runs| == 1
      requires CleanBelow(path, multiset(errors))
      modifies this, ret
      ensures panicked ==> exists i :: 0 <= i < |runs| && runs[i].Panic?
      ensures !panicked ==> Filled(runs, ret[..], multiset(old(errors)), multiset(errors))
      decreases subs, 5
    {
      ghost var g := Fork(runs, multiset(errors), 1, 1, {0}, {});
      panicked := Worker(path, elem, subs, v, ret, 0, g);
      if !panicked {
        AllFinished(path, Finish(g, 0), ret[..], multiset(errors));
      }
    }

    /** A list marshaller: a slot per element, the workers, and the scan for a Null. */
    method MarshalList(path: Path, elem: Elem, subs: seq<Sel>, v: Value) returns (r: Outcome)
      requires Fits(NList(elem), v) && CleanBelow(path, multiset(errors))
      modifies this
      ensures Computes(ListRun(w, path, elem, subs, v), r, multiset(old(errors)), multiset(errors))
      decreases subs, 6
    {
      ghost var runs := ListAt(w, path, elem, subs, v);
      ArrayOf(runs);
      var ret := new Out[Count(v)](_ => Null);
      var isLen1 := Count(v) == 1;
      var panicked;
      if isLen1 {
        panicked := RunInline(path, elem, subs, v, ret, runs);
      } else {
        panicked := RunWorkers(path, elem, subs, v, ret, runs);
      }
      if panicked {
        return Panicked;
      }
      if Null in ret[..] {
        return Marshalled(Null);
      }
      return Marshalled(Array(ret[..]));
    }
  }

  // ----- a field after its resolver has answered -----

  lemma Reported(path: Path, before: multiset<Path>, now: multiset<Path>, reported: bool)
    requires Clean(path, before) && now == before + One(path, reported)
    ensures CleanBelow(path, now) && (path in now <==> reported)
  {}

  // ----- an object while its loop runs -----

  ghost predicate SlotsOf(w: World, path: Path, o: ObjType, sels: seq<Sel>, id: nat, runs: seq<Run>) {
    |runs| == |sels| && forall i :: 0 <= i < |sels| ==> runs[i] == SlotRun(w, path, o, sels, id, i)
  }

  lemma ObjectSlots(w: World, path: Path, o: ObjType, sels: seq<Sel>, id: nat) returns (runs: seq<Run>)
    ensures SlotsOf(w, path, o, sels, id, runs)
    ensures ObjectRun(w, path, o, sels, id) == BuildObject(o, sels, Gather(runs))
  {
    runs := ObjectAt(w, path, o, sels, id);
  }

  /** The slots assigned so far, their invalids and the errors on record are those of the runs. */
  ghost predicate ObjectSoFar(path: Path, o: ObjType, sels: seq<Sel>, runs: seq<Run>, before: multiset<Path>,
                              values: seq<Out>, invalids: nat, now: multiset<Path>) {
    && |runs| == |sels| && |values| <= |sels| && CleanBelow(path, before)
    && InSlots(path, runs[..|values|])
    && Gather(runs[..|values|]).Slots? && values == Gather(runs[..|values|]).outs
    && invalids == Invalids(o, sels, values)
    && now == before + Gather(runs[..|values|]).errs
  }

  lemma ObjectStart(path: Path, o: ObjType, sels: seq<Sel>, runs: seq<Run>, before: multiset<Path>)
    requires |runs| == |sels| && CleanBelow(path, before)
    ensures ObjectSoFar(path, o, sels, runs, before, [], 0, before)
  {
    assert runs[..0] == [];
  }

  lemma SoFarLeavesClean(path: Path, o: ObjType, sels: seq<Sel>, runs: seq<Run>, before: multiset<Path>,
                         values: seq<Out>, invalids: nat, now: multiset<Path>)
    requires ObjectSoFar(path, o, sels, runs, before, values, invalids, now)
    ensures Clean(path + [|values|], now)
  {
    OthersLeaveClean(path, before, runs[..|values|], |values|);
  }

  lemma {:induction false} ObjectStep(path: Path, o: ObjType, sels: seq<Sel>, runs: seq<Run>, before: multiset<Path>,
                                      values: seq<Out>, invalids: nat, now: multiset<Path>)
    requires ObjectSoFar(path, o, sels, runs, before, values, invalids, now) && |values| < |sels|
    requires runs[|values|].Done? && AtOrBelow(path + [|values|], runs[|values|].errs)
    ensures var run := runs[|values|];
            ObjectSoFar(path, o, sels, runs, before, values + [run.out],
                        invalids + (if Invalid(o, sels[|values|], run.out) then 1 else 0), now + run.errs)
  {
    var k := |values|;
    GatherSnoc(runs[..k], runs[k]);
    assert runs[..k + 1] == runs[..k] + [runs[k]];
    assert (values + [runs[k].out])[..k] == values;
  }

  lemma ObjectPanics(o: ObjType, sels: seq<Sel>, runs: seq<Run>, i: nat)
    requires |runs| == |sels| && i < |runs| && runs[i].Panic?
    ensures BuildObject(o, sels, Gather(runs)).Panic?
  {
    ObjectOf(o, sels, runs);
  }

  lemma {:induction false} ObjectDone(path: Path, o: ObjType, sels: seq<Sel>, runs: seq<Run>, before: multiset<Path>,
                                      values: seq<Out>, invalids: nat, now: multiset<Path>)
    requires ObjectSoFar(path, o, sels, runs, before, values, invalids, now) && |values| == |sels|
    ensures Computes(BuildObject(o, sels, Gather(runs)),
                     Marshalled(if invalids > 0 then Null else Object(o, values)), before, now)
  {
    assert runs[..|sels|] == runs;
  }

  // ----- a wait group while its workers run -----

  /** The workers of one list: what they will compute, the errors on record when they started, the
      counter, how many were started, and which of these are running or finished. */
  datatype Fork = Fork(
    runs: seq<Run>,
    before: multiset<Path>,
    wg: int,
    spawned: nat,
    running: set<nat>,
    finished: set<nat>)

  function Start(g: Fork): Fork {
    g.(spawned := g.spawned + 1, running := g.running + {g.spawned})
  }

  function Finish(g: Fork, i: nat): Fork {
    g.(wg := g.wg - 1, running := g.running - {i}, finished := g.finished + {i})
  }

  ghost predicate ForkOf(w: World, path: Path, elem: Elem, subs: seq<Sel>, v: Value, runs: seq<Run>)
    requires Fits(NList(elem), v)
  {
    |runs| == Count(v) && forall i :: 0 <= i < |runs| ==> runs[i] == ElemRun(w, path, elem, subs, v, i)
  }

  /** Started workers are running or finished, the counter is the number of unfinished ones, and
      the finished ones have stored their results and recorded their errors. */
  ghost predicate Working(path: Path, g: Fork, ret: seq<Out>, now: multiset<Path>) {
    && g.spawned <= |g.runs| == |ret|
    && (forall i :: i in g.finished || i in g.running <==> 0 <= i < g.spawned)
    && g.finished !! g.running && |g.finished| + |g.running| == g.spawned
    && g.wg == |g.runs| - |g.finished|
    && ErrorsOf(path, g.before, g.runs, g.finished, now)
    && (forall i :: i in g.finished ==> i < |ret| && ret[i] == g.runs[i].out)
  }

  lemma StartOne(path: Path, g: Fork, ret: seq<Out>, now: multiset<Path>)
    requires Working(path, g, ret, now) && g.spawned < |g.runs|
    ensures Working(path, Start(g), ret, now)
  {
    assert g.spawned !in g.running && |Start(g).running| == |g.running| + 1;
  }

  lemma FinishOne(path: Path, g: Fork, ret: seq<Out>, now: multiset<Path>, i: nat)
    requires Working(path, g, ret, now) && i in g.running
    ensures i < |g.runs| && i !in g.finished && g.wg > 0
    ensures |Finish(g, i).running| == |g.running| - 1 && |Finish(g, i).finished| == |g.finished| + 1
  {}

  /** Storing the element and recording its errors finishes the worker. */
  lemma Stored(path: Path, g: Fork, ret: seq<Out>, now: multiset<Path>, i: nat)
    requires Working(path, g, ret, now) && i in g.running && i < |g.runs| && g.runs[i].Done?
    requires ErrorsOf(path, g.before, g.runs, g.finished + {i}, now + g.runs[i].errs)
    ensures Working(path, Finish(g, i), ret[i := g.runs[i].out], now + g.runs[i].errs)
  {
    FinishOne(path, g, ret, now, i);
  }

  lemma SomeRuns(path: Path, g: Fork, ret: seq<Out>, now: multiset<Path>)
    requires Working(path, g, ret, now) && (g.spawned < |g.runs| || g.wg > 0)
    requires g.spawned == |g.runs| || g.running != {}
    ensures g.running != {}
  {
    if g.spawned == |g.runs| {
      assert |g.running| == g.wg;
    }
  }

  // ----- the error list while workers run -----

  /** The slot whose errors a path belongs to, if it is one of the finished ones. */
  ghost predicate OfFinished(path: Path, finished: set<nat>, q: Path) {
    |path| < |q| && path <= q && q[|path|] in finished
  }

  /** On record is what was there before and what the finished workers added. */
  ghost predicate ErrorsOf(path: Path, before: multiset<Path>, runs: seq<Run>, finished: set<nat>,
                           now: multiset<Path>) {
    && CleanBelow(path, before)
    && (forall i :: i in finished ==> i < |runs| && runs[i].Done? && AtOrBelow(path + [i], runs[i].errs))
    && (forall q :: now[q] == before[q] + (if OfFinished(path, finished, q) then runs[q[|path|]].errs[q] else 0))
  }

  lemma UnfinishedIsClean(path: Path, before: multiset<Path>, runs: seq<Run>, finished: set<nat>,
                          now: multiset<Path>, i: nat)
    requires ErrorsOf(path, before, runs, finished, now) && i !in finished
    ensures Clean(path + [i], now)
  {
    CleanSlot(path, before, i);
    forall q | q in now ensures !(path + [i] <= q) {
      if path + [i] <= q {
        SlotPrefix(path, i, q);
      }
    }
  }

  lemma OneMoreFinished(path: Path, before: multiset<Path>, runs: seq<Run>, finished: set<nat>,
                        now: multiset<Path>, i: nat)
    requires ErrorsOf(path, before, runs, finished, now) && i !in finished
    requires i < |runs| && runs[i].Done? && AtOrBelow(path + [i], runs[i].errs)
    ensures ErrorsOf(path, before, runs, finished + {i}, now + runs[i].errs)
  {
    forall q
      ensures (now + runs[i].errs)[q]
           == before[q] + (if OfFinished(path, finished + {i}, q) then runs[q[|path|]].errs[q] else 0)
    {
      if runs[i].errs[q] > 0 {
        SlotPrefix(path, i, q);
      }
    }
  }

  /** Every slot holds its element's result, and on record is what all the elements added. */
  ghost predicate Filled(runs: seq<Run>, ret: seq<Out>, before: multiset<Path>, now: multiset<Path>) {
    Gather(runs).Slots? && ret == Gather(runs).outs && now == before + Gather(runs).errs
  }

  lemma {:induction false} AllFinished(path: Path, g: Fork, ret: seq<Out>, now: multiset<Path>)
    requires Working(path, g, ret, now) && g.spawned == |g.runs| && g.wg <= 0
    ensures Filled(g.runs, ret, g.before, now)
  {
    assert |g.running| == g.wg;
    assert forall i :: 0 <= i < |g.runs| ==> i in g.finished;
    GatherAt(g.runs);
    forall q ensures now[q] == (g.before + Gather(g.runs).errs)[q] {
      GatherErrors(path, g.runs, q);
    }
  }
}
