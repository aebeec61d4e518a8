/** The list marshallers' fork and join: one goroutine per element, a wait group, one shared error
    list, and the path without goroutines for a single element. */
module ForkJoin {
  import opened Options
  import opened IntrospectionTables
  import opened Execution
  import opened FieldErrors
  import opened FiniteSets

  /** What a worker does next: record an error, or give the result of its element. */
  datatype Next = Put(q: Path) | Give(out: Out)

  /** The workers of one list. What worker i does next depends on the shared error list, through the
      `HasFieldError` guards of the marshallers it runs. Alone it records `errs[i]` and gives `outs[i]`. */
  datatype Job = Job(path: Path, next: (nat, seq<Path>) -> Next, outs: seq<Out>, errs: seq<seq<Path>>) {
    function Size(): nat {
      |outs|
    }

    /** What worker i does, alone, when it has recorded k errors. */
    function Alone(i: nat, k: nat): Next
      requires |errs| == |outs| && i < |outs|
    {
      if k < |errs[i]| then Put(errs[i][k]) else Give(outs[i])
    }

    predicate RunsAlone(i: nat, k: nat)
      requires |errs| == |outs| && i < |outs|
    {
      k <= |errs[i]| ==> next(i, errs[i][..k]) == Alone(i, k)
    }

    /** The guards of worker i ask for errors at its element or below it only. */
    predicate LooksBelow(i: nat, log: seq<Path>) {
      next(i, log) == next(i, Restrict(log, path, i))
    }

    /** And it records errors nowhere else. */
    ghost predicate Valid() {
      && |errs| == |outs|
      && (forall i, j :: 0 <= i < |errs| && 0 <= j < |errs[i]| ==> Through(path, i, errs[i][j]))
      && (forall i: nat, k: nat :: i < |outs| ==> RunsAlone(i, k))
      && (forall i: nat, log: seq<Path> :: i < |outs| ==> LooksBelow(i, log))
    }
  }

  /** The entries of the shared list that lie at or below element i, in order. */
  function Restrict(log: seq<Path>, path: Path, i: nat): seq<Path> {
    if |log| == 0 then []
    else Restrict(log[..|log| - 1], path, i) + (if Through(path, i, log[|log| - 1]) then [log[|log| - 1]] else [])
  }

  /** A worker reads the shared list and acts on what it read in separate steps. */
  datatype Phase = Waiting | Running(recorded: nat) | Holding(recorded: nat, next: Next) | Stored | Finished

  datatype Main = Looping | Joining | Returned(out: Out)

  datatype State = State(
    spawned: nat,
    phase: seq<Phase>,
    ret: seq<Option<Out>>,
    wg: int,
    log: seq<Path>,
    main: Main)

  datatype Action = Spawn | Read(i: nat) | Record(i: nat) | Store(i: nat) | Finish(i: nat) | EndLoop | Join

  function Init(job: Job): State {
    State(0, seq(job.Size(), _ => Waiting), seq(job.Size(), _ => None),
          if job.Size() == 1 then 0 else job.Size(), [], Looping)
  }

  ghost predicate Shaped(job: Job, s: State) {
    job.Valid() && |s.phase| == |s.ret| == job.Size() && s.spawned <= job.Size()
  }

  predicate Enabled(job: Job, s: State, a: Action)
    requires Shaped(job, s)
  {
    match a
    case Spawn => s.main.Looping? && s.spawned < job.Size()
    case Read(i) => i < job.Size() && s.phase[i].Running?
    case Record(i) => i < job.Size() && s.phase[i].Holding? && s.phase[i].next.Put?
    case Store(i) => i < job.Size() && s.phase[i].Holding? && s.phase[i].next.Give?
    case Finish(i) => i < job.Size() && s.phase[i].Stored?
    case EndLoop =>
      // a single element is marshalled by the loop itself
      s.main.Looping? && s.spawned == job.Size() && (job.Size() == 1 ==> s.phase[0].Finished?)
    case Join => s.main.Joining? && s.wg == 0
  }

  /** What the final scan of the slice returns; an empty slot is not a Null. */
  function Scan(ret: seq<Option<Out>>): Out {
    if Some(Null) in ret then Null
    else Array(seq(|ret|, i requires 0 <= i < |ret| => if ret[i].Some? then ret[i].value else Null))
  }

  function Apply(job: Job, s: State, a: Action): State
    requires Shaped(job, s) && Enabled(job, s, a)
  {
    match a
    case Spawn => s.(phase := s.phase[s.spawned := Running(0)], spawned := s.spawned + 1)
    case Read(i) => s.(phase := s.phase[i := Holding(s.phase[i].recorded, job.next(i, s.log))])
    case Record(i) => s.(phase := s.phase[i := Running(s.phase[i].recorded + 1)], log := s.log + [s.phase[i].next.q])
    case Store(i) => s.(phase := s.phase[i := Stored], ret := s.ret[i := Some(s.phase[i].next.out)])
    case Finish(i) => s.(phase := s.phase[i := Finished], wg := if job.Size() == 1 then s.wg else s.wg - 1)
    case EndLoop => s.(main := Joining)
    case Join => s.(main := Returned(Scan(s.ret)))
  }

  predicate Legal(job: Job, s: State, acts: seq<Action>)
    requires Shaped(job, s)
    decreases |acts|
  {
    |acts| > 0 ==> Enabled(job, s, acts[0]) && Legal(job, Apply(job, s, acts[0]), acts[1..])
  }

  function Execute(job: Job, s: State, acts: seq<Action>): (t: State)
    requires Shaped(job, s) && Legal(job, s, acts)
    ensures Shaped(job, t)
    decreases |acts|
  {
    if |acts| == 0 then s else Execute(job, Apply(job, s, acts[0]), acts[1..])
  }

  // ----- what every interleaving keeps -----

  function Unfinished(s: State): set<nat> {
    set i: nat | i < |s.phase| && !s.phase[i].Finished?
  }

  /** How many of its errors a worker has recorded. */
  function Recorded(job: Job, s: State, i: nat): nat
    requires Shaped(job, s) && i < job.Size()
  {
    match s.phase[i]
    case Waiting => 0
    case Running(k) => k
    case Holding(k, _) => k
    case Stored => |job.errs[i]|
    case Finished => |job.errs[i]|
  }

  /** The wait group counts the unfinished workers, and finished ones have stored their element. */
  ghost predicate Joined(job: Job, s: State)
    requires Shaped(job, s)
  {
    && s.wg == (if job.Size() == 1 then 0 else |Unfinished(s)|)
    && (forall i :: 0 <= i < job.Size() ==> (s.phase[i].Waiting? <==> i >= s.spawned))
    && (forall i :: 0 <= i < job.Size() ==>
          s.ret[i] == if s.phase[i].Stored? || s.phase[i].Finished? then Some(job.outs[i]) else None)
    && (!s.main.Looping? ==> s.spawned == job.Size() && (job.Size() == 1 ==> s.phase[0].Finished?))
    && (s.main.Returned? ==> Unfinished(s) == {} && s.main.out == Scan(s.ret))
  }

  ghost predicate LoggedAt(job: Job, s: State, i: nat)
    requires Shaped(job, s) && i < job.Size()
  {
    && Recorded(job, s, i) <= |job.errs[i]|
    && Restrict(s.log, job.path, i) == job.errs[i][..Recorded(job, s, i)]
    && (s.phase[i].Holding? ==> s.phase[i].next == job.Alone(i, s.phase[i].recorded))
  }

  /** Each worker's part of the shared list is what it would have written alone, and what it is
      about to do, it would have done alone. */
  ghost predicate Logged(job: Job, s: State)
    requires Shaped(job, s)
  {
    && (forall i :: 0 <= i < job.Size() ==> LoggedAt(job, s, i))
    && (forall q :: q in s.log ==> |job.path| < |q| && job.path <= q && q[|job.path|] < job.Size())
  }

  ghost predicate Inv(job: Job, s: State) {
    Shaped(job, s) && Joined(job, s) && Logged(job, s)
  }

  lemma InitInv(job: Job)
    requires job.Valid()
    ensures Inv(job, Init(job))
  {
    var s := Init(job);
    assert Unfinished(s) == Indices(job.Size());
  }

  /** Once the loop has returned, no worker has a step left. */
  lemma ReturnedIsOver(job: Job, s: State)
    requires Shaped(job, s) && Joined(job, s) && s.main.Returned?
    ensures forall i :: 0 <= i < job.Size() ==> s.phase[i].Finished?
  {
    forall i: nat | i < job.Size() ensures s.phase[i].Finished? {
      assert i !in Unfinished(s);
    }
  }

  lemma FinishStep(job: Job, s: State, i: nat)
    requires Shaped(job, s) && Joined(job, s) && Enabled(job, s, Finish(i))
    ensures Joined(job, Apply(job, s, Finish(i)))
  {
    if s.main.Returned? {
      ReturnedIsOver(job, s);
    }
    assert Unfinished(Apply(job, s, Finish(i))) == Unfinished(s) - {i};
  }

  lemma JoinStep(job: Job, s: State)
    requires Shaped(job, s) && Joined(job, s) && Enabled(job, s, Join)
    ensures Joined(job, Apply(job, s, Join))
  {
    if job.Size() == 1 {
      assert Unfinished(s) == {};
    }
  }

  lemma WorkerStep(job: Job, s: State, a: Action)
    requires Shaped(job, s) && Joined(job, s) && Enabled(job, s, a) && !a.Finish? && !a.Join? && !a.Store?
    ensures Joined(job, Apply(job, s, a))
  {
    if s.main.Returned? {
      ReturnedIsOver(job, s);
    }
    assert Unfinished(Apply(job, s, a)) == Unfinished(s);
  }

  lemma StoreStep(job: Job, s: State, i: nat)
    requires Inv(job, s) && Enabled(job, s, Store(i))
    ensures Joined(job, Apply(job, s, Store(i)))
  {
    if s.main.Returned? {
      ReturnedIsOver(job, s);
    }
    assert LoggedAt(job, s, i);
    assert Unfinished(Apply(job, s, Store(i))) == Unfinished(s);
  }

  lemma JoinedStep(job: Job, s: State, a: Action)
    requires Inv(job, s) && Enabled(job, s, a)
    ensures Joined(job, Apply(job, s, a))
  {
    match a
    case Finish(i) => FinishStep(job, s, i);
    case Join => JoinStep(job, s);
    case Store(i) => StoreStep(job, s, i);
    case _ => WorkerStep(job, s, a);
  }

  lemma RestrictSnoc(log: seq<Path>, path: Path, i: nat, q: Path)
    ensures Restrict(log + [q], path, i) == Restrict(log, path, i) + (if Through(path, i, q) then [q] else [])
  {
    assert (log + [q])[..|log|] == log;
  }

  lemma RecordStep(job: Job, s: State, j: nat, i: nat)
    requires Shaped(job, s) && Logged(job, s) && Enabled(job, s, Record(j)) && i < job.Size()
    ensures LoggedAt(job, Apply(job, s, Record(j)), i)
  {
    assert LoggedAt(job, s, i) && LoggedAt(job, s, j);
    if i == j {
      OwnRecord(job, s, i);
    } else {
      assert Through(job.path, j, s.phase[j].next.q);
      OtherRecord(job, s, j, i);
    }
  }

  lemma OwnRecord(job: Job, s: State, i: nat)
    requires Shaped(job, s) && i < job.Size() && LoggedAt(job, s, i) && Enabled(job, s, Record(i))
    ensures LoggedAt(job, Apply(job, s, Record(i)), i)
  {
    var k, q := s.phase[i].recorded, s.phase[i].next.q;
    assert Through(job.path, i, q);
    RestrictSnoc(s.log, job.path, i, q);
    assert job.errs[i][..k] + [q] == job.errs[i][..k + 1];
  }

  lemma OtherRecord(job: Job, s: State, j: nat, i: nat)
    requires Shaped(job, s) && Enabled(job, s, Record(j)) && i < job.Size() && i != j && LoggedAt(job, s, i)
    requires Through(job.path, j, s.phase[j].next.q)
    ensures LoggedAt(job, Apply(job, s, Record(j)), i)
  {
    RestrictSnoc(s.log, job.path, i, s.phase[j].next.q);
  }

  /** What a worker reads in the shared list leads it to do what it would do alone. */
  lemma ReadStep(job: Job, s: State, j: nat, i: nat)
    requires Shaped(job, s) && Logged(job, s) && Enabled(job, s, Read(j)) && i < job.Size()
    ensures LoggedAt(job, Apply(job, s, Read(j)), i)
  {
    assert LoggedAt(job, s, i);
    if i == j {
      assert job.LooksBelow(i, s.log);
      assert job.RunsAlone(i, s.phase[i].recorded);
    }
  }

  lemma QuietStep(job: Job, s: State, a: Action, i: nat)
    requires Shaped(job, s) && Logged(job, s) && Enabled(job, s, a) && !a.Record? && !a.Read? && i < job.Size()
    requires a.Spawn? ==> s.phase[s.spawned].Waiting?
    ensures LoggedAt(job, Apply(job, s, a), i)
  {
    assert LoggedAt(job, s, i);
  }

  lemma LoggedStep(job: Job, s: State, a: Action)
    requires Shaped(job, s) && Logged(job, s) && Enabled(job, s, a)
    requires a.Spawn? ==> s.phase[s.spawned].Waiting?
    ensures Logged(job, Apply(job, s, a))
  {
    forall i | 0 <= i < job.Size() ensures LoggedAt(job, Apply(job, s, a), i) {
      if a.Record? {
        RecordStep(job, s, a.i, i);
      } else if a.Read? {
        ReadStep(job, s, a.i, i);
      } else {
        QuietStep(job, s, a, i);
      }
    }
    if a.Record? {
      assert LoggedAt(job, s, a.i);
    }
  }

  lemma StepInv(job: Job, s: State, a: Action)
    requires Inv(job, s) && Enabled(job, s, a)
    ensures Inv(job, Apply(job, s, a))
  {
    JoinedStep(job, s, a);
    LoggedStep(job, s, a);
  }

  lemma {:induction false} RunInv(job: Job, s: State, acts: seq<Action>)
    requires Inv(job, s) && Legal(job, s, acts)
    ensures Inv(job, Execute(job, s, acts))
    decreases |acts|
  {
    if |acts| > 0 {
      StepInv(job, s, acts[0]);
      RunInv(job, Apply(job, s, acts[0]), acts[1..]);
    }
  }

  ghost function End(job: Job, acts: seq<Action>): (s: State)
    requires job.Valid() && Legal(job, Init(job), acts)
    ensures Inv(job, s)
  {
    InitInv(job);
    RunInv(job, Init(job), acts);
    Execute(job, Init(job), acts)
  }

  // ----- results -----

  /** In every interleaving the counter is the number of unfinished workers, so it is never
      negative; with a single element it is not used. */
  lemma WaitGroupCounts(job: Job, acts: seq<Action>)
    requires job.Valid() && Legal(job, Init(job), acts)
    ensures var s := End(job, acts);
            && s.wg == (if job.Size() == 1 then 0 else |Unfinished(s)|)
            && 0 <= s.wg <= job.Size()
            && (s.main.Returned? ==> forall i :: 0 <= i < job.Size() ==> s.phase[i].Finished?)
  {
    var s := End(job, acts);
    SubsetSize(Unfinished(s), Indices(job.Size()));
    if s.main.Returned? {
      ReturnedIsOver(job, s);
    }
  }

  lemma ScanAll(outs: seq<Out>, ret: seq<Option<Out>>)
    requires |ret| == |outs| && forall i :: 0 <= i < |outs| ==> ret[i] == Some(outs[i])
    ensures Scan(ret) == if Null in outs then Null else Array(outs)
  {
    if Null in outs {
      var i :| 0 <= i < |outs| && outs[i] == Null;
      assert ret[i] == Some(Null);
    }
    assert seq(|ret|, i requires 0 <= i < |ret| => if ret[i].Some? then ret[i].value else Null) == outs;
  }

  /** `HasFieldError` inside a worker sees the errors of that worker and no others, and what the
      worker does next is what it would do alone, whatever the others have recorded. */
  lemma GuardSeesOnlyOwnErrors(job: Job, acts: seq<Action>, i: nat, q: Path)
    requires job.Valid() && Legal(job, Init(job), acts) && i < job.Size() && Through(job.path, i, q)
    ensures var s := End(job, acts);
            && Recorded(job, s, i) <= |job.errs[i]|
            && (q in s.log <==> q in job.errs[i][..Recorded(job, s, i)])
            && job.next(i, s.log) == job.Alone(i, Recorded(job, s, i))
  {
    var s := End(job, acts);
    assert LoggedAt(job, s, i);
    RestrictCounts(s.log, job.path, i, q);
    assert q in s.log <==> q in Restrict(s.log, job.path, i);
    assert job.LooksBelow(i, s.log);
    assert job.RunsAlone(i, Recorded(job, s, i));
  }

  lemma {:induction false} RestrictCounts(log: seq<Path>, path: Path, i: nat, q: Path)
    requires Through(path, i, q)
    ensures multiset(Restrict(log, path, i))[q] == multiset(log)[q]
    ensures q in log <==> q in Restrict(log, path, i)
  {
    if |log| > 0 {
      var rest, last := log[..|log| - 1], log[|log| - 1];
      RestrictCounts(rest, path, i, q);
      assert log == rest + [last];
    }
  }

  /** The job of a list marshaller: its workers' results and errors are those of its elements. */
  ghost predicate JobOf(job: Job, w: World, path: Path, elem: Elem, subs: seq<Sel>, v: Value) {
    && job.Valid() && job.path == path && Fits(NList(elem), v) && job.Size() == Count(v)
    && forall i :: 0 <= i < Count(v) ==>
         ElemRun(w, path, elem, subs, v, i) == Done(job.outs[i], multiset(job.errs[i]))
  }

  // ----- every list has such a job -----

  /** The entries of a multiset in some order. */
  ghost function Listed(m: multiset<Path>): (r: seq<Path>)
    ensures multiset(r) == m
    decreases |m|
  {
    if m == multiset{} then []
    else
      var q :| q in m;
      [q] + Listed(m - multiset{q})
  }

  lemma {:induction false} RestrictOwn(log: seq<Path>, path: Path, i: nat)
    requires forall j :: 0 <= j < |log| ==> Through(path, i, log[j])
    ensures Restrict(log, path, i) == log
  {
    if |log| > 0 {
      RestrictOwn(log[..|log| - 1], path, i);
    }
  }

  lemma {:induction false} RestrictThrough(log: seq<Path>, path: Path, i: nat)
    ensures forall j :: 0 <= j < |Restrict(log, path, i)| ==> Through(path, i, Restrict(log, path, i)[j])
  {
    if |log| > 0 {
      RestrictThrough(log[..|log| - 1], path, i);
    }
  }

  /** Workers that record given errors one after the other, each at or below its own element. */
  lemma ScriptedJob(path: Path, outs: seq<Out>, errs: seq<seq<Path>>) returns (job: Job)
    requires |errs| == |outs|
    requires forall i, j :: 0 <= i < |errs| && 0 <= j < |errs[i]| ==> Through(path, i, errs[i][j])
    ensures job.Valid() && job.path == path && job.outs == outs && job.errs == errs
  {
    job := Job(path, (i: nat, log: seq<Path>) =>
        if i < |errs| && |Restrict(log, path, i)| < |errs[i]| then Put(errs[i][|Restrict(log, path, i)|])
        else Give(if i < |outs| then outs[i] else Null), outs, errs);
    forall i: nat, k: nat | i < |outs| ensures job.RunsAlone(i, k) {
      if k <= |errs[i]| {
        RestrictOwn(errs[i][..k], path, i);
      }
    }
    forall i: nat, log: seq<Path> | i < |outs| ensures job.LooksBelow(i, log) {
      RestrictThrough(log, path, i);
      RestrictOwn(Restrict(log, path, i), path, i);
    }
  }

  lemma ListedThrough(path: Path, i: nat, errs: multiset<Path>)
    requires AtOrBelow(path + [i], errs)
    ensures forall j :: 0 <= j < |Listed(errs)| ==> Through(path, i, Listed(errs)[j])
  {
    forall q | q in Listed(errs) ensures Through(path, i, q) {
      assert q in multiset(Listed(errs));
      SlotPrefix(path, i, q);
    }
  }

  /** Every list whose marshalling does not panic has a job. */
  lemma JobExists(w: World, path: Path, elem: Elem, subs: seq<Sel>, v: Value) returns (job: Job)
    requires Fits(NList(elem), v) && ListRun(w, path, elem, subs, v).Done?
    ensures JobOf(job, w, path, elem, subs, v)
  {
    var runs := ListAt(w, path, elem, subs, v);
    ArrayOf(runs);
    ListInSlots(w, path, elem, subs, v, runs);
    job := RunsJob(path, runs);
  }

  lemma RunsJob(path: Path, runs: seq<Run>) returns (job: Job)
    requires InSlots(path, runs)
    ensures job.Valid() && job.path == path && job.Size() == |runs|
    ensures forall i :: 0 <= i < |runs| ==> runs[i] == Done(job.outs[i], multiset(job.errs[i]))
  {
    var outs := seq(|runs|, i requires 0 <= i < |runs| => runs[i].out);
    var errs := seq(|runs|, i requires 0 <= i < |runs| => Listed(runs[i].errs));
    forall i | 0 <= i < |runs| ensures forall j :: 0 <= j < |errs[i]| ==> Through(path, i, errs[i][j]) {
      ListedThrough(path, i, runs[i].errs);
    }
    job := ScriptedJob(path, outs, errs);
  }

  /** For a list of leaves it is the code's own worker: serialise the element, and for a Null record
      an error unless the guard finds one in the shared list. */
  lemma LeafJob(w: World, path: Path, subs: seq<Sel>, v: Value) returns (job: Job)
    requires v.LeafList?
    ensures JobOf(job, w, path, LeafElem, subs, v)
    ensures forall i: nat, log :: i < Count(v) ==>
              job.next(i, log) == if v.texts[i].Some? then Give(Scalar(v.texts[i].value))
                                  else if path + [i] in log then Give(Null) else Put(path + [i])
  {
    var texts := v.texts;
    var outs := seq(|texts|, i requires 0 <= i < |texts| => Text(texts[i]));
    var errs: seq<seq<Path>> :=
      seq(|texts|, i requires 0 <= i < |texts| => if texts[i].None? then [path + [i]] else []);
    job := Job(path, (i: nat, log: seq<Path>) =>
        if i < |texts| && texts[i].None? && path + [i] !in log then Put(path + [i])
        else Give(if i < |texts| then Text(texts[i]) else Null), outs, errs);
    forall i: nat, k: nat | i < |outs| ensures job.RunsAlone(i, k) {
      if k <= |errs[i]| {
        assert errs[i][..k] == if k == 0 then [] else [path + [i]];
      }
    }
    forall i: nat, log: seq<Path> | i < |outs| ensures job.LooksBelow(i, log) {
      RestrictCounts(log, path, i, path + [i]);
    }
  }

  /** The refinement: in every panic-free interleaving, what is returned after the join is the
      element-by-element result, and the errors on record are the same. */
  lemma ForkJoinRefinesMap(job: Job, w: World, path: Path, elem: Elem, subs: seq<Sel>, v: Value, acts: seq<Action>)
    requires JobOf(job, w, path, elem, subs, v)
    requires Legal(job, Init(job), acts) && End(job, acts).main.Returned?
    ensures ListRun(w, path, elem, subs, v) == Done(End(job, acts).main.out, multiset(End(job, acts).log))
  {
    var s := End(job, acts);
    WaitGroupCounts(job, acts);
    ScanAll(job.outs, s.ret);
    var runs := ListAt(w, path, elem, subs, v);
    GatherJob(job, runs);
    LogIsGathered(job, s, runs);
  }

  /** When all workers have finished, the shared list is a permutation of the errors of all. */
  lemma {:induction false} LogIsGathered(job: Job, s: State, runs: seq<Run>)
    requires Inv(job, s) && forall i :: 0 <= i < job.Size() ==> s.phase[i].Finished?
    requires |runs| == job.Size() && InSlots(job.path, runs)
    requires forall i :: 0 <= i < |runs| ==> runs[i] == Done(job.outs[i], multiset(job.errs[i]))
    ensures Gather(runs).Slots? && multiset(s.log) == Gather(runs).errs
  {
    GatherErrors(job.path, runs, job.path);
    forall q ensures multiset(s.log)[q] == Gather(runs).errs[q] {
      LogCounts(job, s, q);
      GatherErrors(job.path, runs, q);
    }
  }

  lemma {:induction false} GatherJob(job: Job, runs: seq<Run>)
    requires job.Valid() && |runs| == job.Size()
    requires forall i :: 0 <= i < |runs| ==> runs[i] == Done(job.outs[i], multiset(job.errs[i]))
    ensures Gather(runs).Slots? && Gather(runs).outs == job.outs && InSlots(job.path, runs)
  {
    GatherAt(runs);
    forall i | 0 <= i < |runs| ensures AtOrBelow(job.path + [i], runs[i].errs) {
      ThroughIsBelow(job.path, i, job.errs[i]);
    }
  }

  lemma ThroughIsBelow(path: Path, i: nat, errs: seq<Path>)
    requires forall j :: 0 <= j < |errs| ==> Through(path, i, errs[j])
    ensures AtOrBelow(path + [i], multiset(errs))
  {
    forall q | q in multiset(errs) ensures path + [i] <= q {
      assert q in errs;
      assert path + [i] == q[..|path| + 1];
    }
  }

  lemma LogCounts(job: Job, s: State, q: Path)
    requires Inv(job, s) && forall i :: 0 <= i < job.Size() ==> s.phase[i].Finished?
    ensures multiset(s.log)[q] ==
            if |job.path| < |q| && job.path <= q && q[|job.path|] < job.Size()
            then multiset(job.errs[q[|job.path|]])[q] else 0
  {
    if |job.path| < |q| && job.path <= q && q[|job.path|] < job.Size() {
      var i := q[|job.path|];
      assert LoggedAt(job, s, i);
      RestrictCounts(s.log, job.path, i, q);
      assert job.errs[i][..|job.errs[i]|] == job.errs[i];
    } else {
      assert q !in s.log;
    }
  }

  // ----- no interleaving gets stuck or goes on for ever -----

  lemma Progress(job: Job, s: State) returns (a: Action)
    requires Inv(job, s) && !s.main.Returned?
    ensures Enabled(job, s, a)
  {
    if s.main.Looping? && s.spawned < job.Size() {
      a := Spawn;
    } else if i: nat :| i < job.Size() && !s.phase[i].Finished? {
      if s.phase[i].Stored? {
        a := Finish(i);
      } else if s.phase[i].Running? {
        a := Read(i);
      } else if s.phase[i].next.Put? {
        a := Record(i);
      } else {
        a := Store(i);
      }
    } else if s.main.Looping? {
      a := EndLoop;
    } else {
      assert Unfinished(s) == {};
      a := Join;
    }
  }

  /** The steps left to a worker with these errors to record. */
  function Left(errs: seq<Path>, p: Phase): int {
    match p
    case Waiting => 2 * |errs| + 4
    case Running(k) => 2 * (|errs| - k) + 3
    case Holding(k, _) => 2 * (|errs| - k) + 2
    case Stored => 1
    case Finished => 0
  }

  function Remaining(errs: seq<seq<Path>>, phase: seq<Phase>): int
    requires |errs| == |phase|
  {
    if |phase| == 0 then 0 else Left(errs[0], phase[0]) + Remaining(errs[1..], phase[1..])
  }

  function Work(job: Job, s: State): int
    requires Shaped(job, s)
  {
    Remaining(job.errs, s.phase) + (match s.main case Looping => 2 case Joining => 1 case Returned(_) => 0)
  }

  lemma {:induction false} RemainingUpdate(errs: seq<seq<Path>>, phase: seq<Phase>, i: nat, p: Phase)
    requires |errs| == |phase| && i < |phase|
    ensures Remaining(errs, phase[i := p]) == Remaining(errs, phase) - Left(errs[i], phase[i]) + Left(errs[i], p)
    decreases i
  {
    var updated := phase[i := p];
    if i == 0 {
      assert updated[1..] == phase[1..];
    } else {
      assert updated[1..] == phase[1..][i - 1 := p];
      RemainingUpdate(errs[1..], phase[1..], i - 1, p);
    }
  }

  lemma PhaseWork(job: Job, s: State, i: nat, p: Phase, t: State)
    requires Shaped(job, s) && Shaped(job, t) && i < job.Size()
    requires t.phase == s.phase[i := p] && t.main == s.main && Left(job.errs[i], p) == Left(job.errs[i], s.phase[i]) - 1
    ensures Work(job, t) == Work(job, s) - 1
  {
    RemainingUpdate(job.errs, s.phase, i, p);
  }

  /** Every step of a worker or of the loop leaves exactly one step less to make. */
  lemma WorkDecreases(job: Job, s: State, a: Action)
    requires Inv(job, s) && Enabled(job, s, a)
    ensures Work(job, Apply(job, s, a)) == Work(job, s) - 1
  {
    var t := Apply(job, s, a);
    match a
    case Spawn => PhaseWork(job, s, s.spawned, Running(0), t);
    case Read(i) => PhaseWork(job, s, i, t.phase[i], t);
    case Record(i) => PhaseWork(job, s, i, t.phase[i], t);
    case Store(i) =>
      assert LoggedAt(job, s, i);
      PhaseWork(job, s, i, Stored, t);
    case Finish(i) => PhaseWork(job, s, i, Finished, t);
    case EndLoop =>
    case Join =>
  }

  /** A run that cannot be continued has returned, after exactly the steps there were to make. */
  lemma {:induction false} RunsReturn(job: Job, s: State, acts: seq<Action>)
    requires Inv(job, s) && Legal(job, s, acts)
    ensures var t := Execute(job, s, acts);
            |acts| + Work(job, t) == Work(job, s)
    ensures (forall a :: !Enabled(job, Execute(job, s, acts), a)) ==> Execute(job, s, acts).main.Returned?
    decreases |acts|
  {
    if |acts| > 0 {
      StepInv(job, s, acts[0]);
      WorkDecreases(job, s, acts[0]);
      RunsReturn(job, Apply(job, s, acts[0]), acts[1..]);
    } else if !s.main.Returned? {
      var a := Progress(job, s);
    }
  }
}
