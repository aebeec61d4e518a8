/** What the caller of `Exec`'s handler can rely on, over whole runs and every interleaving. */
module DeferredTheorems {
  import opened Options
  import opened DeferredProtocol
  import opened DeferredInvariant
  import opened FiniteSets

  /** A run of the handler's callers and goroutines from the start. */
  ghost predicate Run(plan: Plan, acts: seq<Action>) {
    plan.Valid() && Legal(plan, Init(plan), acts)
  }

  ghost function End(plan: Plan, acts: seq<Action>): (s: State)
    requires Run(plan, acts)
    ensures Inv(plan, s)
  {
    InitInv(plan);
    RunInv(plan, Init(plan), acts);
    Execute(plan, Init(plan), acts)
  }

  // ----- counters -----

  function RegisteredSet(s: State): set<nat> {
    set g: nat | g < |s.phase| && !s.phase[g].Unregistered?
  }

  function DeliveredSet(s: State): set<nat> {
    set g: nat | g < |s.phase| && s.phase[g].Delivered?
  }

  /** `pendingDeferred` is what was registered and not yet received, one more only between a
      receive and its decrement; it lies between zero and the number of groups. */
  lemma PendingIsExact(plan: Plan, acts: seq<Action>)
    requires Run(plan, acts)
    ensures var s := End(plan, acts);
            && s.pending == |RegisteredSet(s)| - |DeliveredSet(s)| + (if s.consumer.Decrementing? then 1 else 0)
            && 0 <= s.pending <= |plan.groups|
            && |RegisteredSet(s)| <= s.deferred <= |plan.groups|
  {
    var s := End(plan, acts);
    RegisteredSplits(plan, s);
    RegisteredBounds(plan, s);
    HeldIsDelivered(plan, s);
  }

  lemma RegisteredSplits(plan: Plan, s: State)
    requires Shaped(plan, s)
    ensures |RegisteredSet(s)| == |InFlightSet(s)| + |DeliveredSet(s)|
  {
    assert RegisteredSet(s) == InFlightSet(s) + DeliveredSet(s);
    assert InFlightSet(s) !! DeliveredSet(s);
  }

  lemma RegisteredBounds(plan: Plan, s: State)
    requires Shaped(plan, s) && RegisteredIsCounted(plan, s)
    ensures |RegisteredSet(s)| <= |CountedSet(plan, s)| <= |plan.groups|
  {
    assert RegisteredSet(s) <= CountedSet(plan, s) <= Indices(|plan.groups|);
    SubsetSize(RegisteredSet(s), CountedSet(plan, s));
    SubsetSize(CountedSet(plan, s), Indices(|plan.groups|));
  }

  lemma HeldIsDelivered(plan: Plan, s: State)
    requires Shaped(plan, s) && Delivery(plan, s)
    ensures s.consumer.Decrementing? ==> |DeliveredSet(s)| > 0
  {
    if s.consumer.Decrementing? {
      var g := s.consumer.group;
      assert Taken(s)[|Sources(s.log)|] == g;
      assert g in Taken(s);
      assert g in DeliveredSet(s);
    }
  }

  // ----- exactly-once delivery -----

  /** Only groups of kept objects are ever registered. */
  lemma {:induction false} CountedIsLive(plan: Plan, s: State, g: nat)
    requires Shaped(plan, s) && Registration(plan, s)
    requires g < |plan.groups| && s.counted[plan.groups[g].batch]
    ensures plan.Live(g)
    decreases g
  {
    match plan.Owner(g)
    case Request =>
    case Worker(h) => CountedIsLive(plan, s, h);
  }

  /** In every run, no group is delivered twice, and what is delivered was registered by an
      object that did not collapse, under a chain of such objects. */
  lemma AtMostOnce(plan: Plan, acts: seq<Action>)
    requires Run(plan, acts)
    ensures var s := End(plan, acts);
            && NoDuplicates(Sources(s.log))
            && (forall g :: g in Sources(s.log) ==> g < |plan.groups| && plan.Live(g) && s.phase[g].Delivered?)
            && (forall i, j :: 0 <= i < j < |s.log| && IsDeferred(s.log[i]) && IsDeferred(s.log[j]) ==>
                  s.log[i].payload.group != s.log[j].payload.group)
  {
    var s := End(plan, acts);
    SourcesTaken(s);
    AnswersDistinct(s.log);
    forall g | g in Sources(s.log) ensures g < |plan.groups| && plan.Live(g) && s.phase[g].Delivered? {
      assert g in Taken(s);
      CountedIsLive(plan, s, g);
    }
  }

  predicate IsDeferred(a: Answer) {
    a.Response? && a.payload.Deferred?
  }

  /** Sources without duplicates are answers for different groups. */
  lemma {:induction false} AnswersDistinct(log: seq<Answer>)
    requires NoDuplicates(Sources(log))
    ensures forall i, j :: 0 <= i < j < |log| && IsDeferred(log[i]) && IsDeferred(log[j]) ==>
              log[i].payload.group != log[j].payload.group
  {
    if |log| > 0 {
      var rest, last := log[..|log| - 1], log[|log| - 1];
      assert forall k :: 0 <= k < |Sources(rest)| ==> Sources(rest)[k] == Sources(log)[k];
      AnswersDistinct(rest);
      if last.Response? && last.payload.Deferred? {
        SourcesAreDelivered(rest, last.payload.group);
        assert Sources(log)[|Sources(rest)|] == last.payload.group;
        assert last.payload.group !in Sources(rest);
      }
    }
  }

  lemma SourcesTaken(s: State)
    requires NoDuplicates(Taken(s))
    ensures NoDuplicates(Sources(s.log))
    ensures forall g :: g in Sources(s.log) ==> g in Taken(s)
  {
    var a := Sources(s.log);
    assert forall i :: 0 <= i < |a| ==> Taken(s)[i] == a[i];
  }

  /** After an end of stream the answers that follow are ends of stream too. */
  lemma {:induction false} NilStays(log: seq<Answer>, i: nat, j: nat)
    requires Truthful(log) && i <= j < |log| && log[i].Nil?
    ensures log[j].Nil?
    decreases j
  {
    if i < j {
      NilStays(log, i, j - 1);
      assert Follows(log[j - 1], log[j - 1 + 1]);
    }
  }

  /** Once the handler has returned nil, the caller is idle and nothing is pending. */
  lemma EndedIsQuiet(plan: Plan, s: State)
    requires Inv(plan, s) && Nil in s.log
    ensures s.consumer.Idle? && !s.first && s.pending == 0
    ensures forall g :: 0 <= g < |plan.groups| ==> s.phase[g].Unregistered? || s.phase[g].Delivered?
  {
    var i :| 0 <= i < |s.log| && s.log[i] == Nil;
    NilStays(s.log, i, |s.log| - 1);
    forall g | 0 <= g < |plan.groups| ensures s.phase[g].Unregistered? || s.phase[g].Delivered? {
      QuietMeansIdle(plan, s, g);
    }
  }

  lemma {:induction false} LiveIsDelivered(plan: Plan, s: State, g: nat)
    requires Inv(plan, s) && Nil in s.log && g < |plan.groups| && plan.Live(g)
    ensures s.phase[g].Delivered?
    decreases g
  {
    EndedIsQuiet(plan, s);
    match plan.Owner(g) {
      case Request =>
      case Worker(h) => LiveIsDelivered(plan, s, h);
    }
    assert BatchDone(plan, s, plan.groups[g].batch);
  }

  /** Exactly once: when the handler has returned nil, the responses carried every live group,
      no other, and none twice, each with its own path, label, errors and result. */
  lemma ExactlyOnce(plan: Plan, acts: seq<Action>)
    requires Run(plan, acts) && Nil in End(plan, acts).log
    ensures var s := End(plan, acts);
            && NoDuplicates(Sources(s.log))
            && (forall g :: g in Sources(s.log) <==> 0 <= g < |plan.groups| && plan.Live(g))
            && (forall i :: 0 <= i < |s.log| && IsDeferred(s.log[i]) ==> Carries(plan, s.log[i].payload))
  {
    var s := End(plan, acts);
    AtMostOnce(plan, acts);
    EndedIsQuiet(plan, s);
    assert Taken(s) == Sources(s.log);
    forall g | 0 <= g < |plan.groups| && plan.Live(g) ensures g in Sources(s.log) {
      LiveIsDelivered(plan, s, g);
    }
  }

  // ----- the end of the stream -----

  /** After nil nothing but another call can happen, and it returns nil and changes nothing. */
  lemma EndIsFinal(plan: Plan, s: State, a: Action)
    requires Inv(plan, s) && Nil in s.log && Enabled(plan, s, a)
    ensures a == Call && Apply(plan, s, a) == s.(log := s.log + [Nil])
  {
    EndedIsQuiet(plan, s);
    forall t: Task ensures !TaskRunning(s, t) {}
  }

  /** Hence in any continuation every later call returns nil and no group changes its phase. */
  lemma {:induction false} EndIsFinalForever(plan: Plan, s: State, acts: seq<Action>)
    requires Inv(plan, s) && Nil in s.log && Legal(plan, s, acts)
    ensures Execute(plan, s, acts) == s.(log := s.log + seq(|acts|, _ => Nil))
    decreases |acts|
  {
    if |acts| == 0 {
      assert s.log + [] == s.log;
    } else {
      EndIsFinal(plan, s, acts[0]);
      StepInv(plan, s, acts[0]);
      var t := Apply(plan, s, acts[0]);
      EndIsFinalForever(plan, t, acts[1..]);
      assert (s.log + [Nil]) + seq(|acts| - 1, _ => Nil) == s.log + seq(|acts|, _ => Nil);
    }
  }

  // ----- HasNext -----

  /** A response that says true is followed by a deferred response, one that says false (or says
      nothing) by nil; the flag is there exactly when the initial result has deferred groups. */
  lemma HasNextIsTruthful(plan: Plan, acts: seq<Action>)
    requires Run(plan, acts)
    ensures var log := End(plan, acts).log;
            && (forall i :: 0 <= i && i + 1 < |log| && log[i].Response? ==>
                  (if log[i].hasNext == Some(true) then log[i + 1].Response? else log[i + 1].Nil?))
            && (forall i :: 0 <= i < |log| && log[i].Response? ==> (log[i].hasNext.Some? <==> plan.HasRootGroup()))
            && (forall i :: 0 <= i < |log| && log[i].Response? ==> (log[i].payload.Initial? <==> i == 0))
  {
    var log := End(plan, acts).log;
    forall i | 0 <= i && i + 1 < |log|
      ensures Follows(log[i], log[i + 1])
    {}
    forall i | 0 <= i < |log| && log[i].Response? ensures log[i].payload.Initial? <==> i == 0 {
      if i > 0 {
        assert Follows(log[i - 1], log[i - 1 + 1]);
      }
    }
  }

  // ----- progress -----

  lemma TaskProgress(plan: Plan, s: State, t: Task) returns (a: Action)
    requires Shaped(plan, s) && TaskRunning(s, t) && !TaskDone(plan, s, t)
    ensures a.CountBatch? || a.CountGroup? || a.Spawn?
    ensures Enabled(plan, s, a)
  {
    var b: nat :| b < |plan.batches| && plan.batches[b].owner == t && !BatchDone(plan, s, b);
    if !s.counted[b] {
      a := CountBatch(b);
    } else if NoneCounted(plan, s, b) {
      var g: nat :| g < |plan.groups| && plan.groups[g].batch == b && !Started(s.phase[g]);
      a := CountGroup(g);
    } else {
      var g: nat :| g < |plan.groups| && plan.groups[g].batch == b && s.phase[g].Counted?;
      a := Spawn(g);
    }
  }

  /** A call of the handler never blocks for good: until it returns, the caller or some goroutine
      can move, and a caller waiting on the channel has a group running or ready to send. */
  lemma Progress(plan: Plan, s: State) returns (a: Action)
    requires Inv(plan, s) && !s.consumer.Idle?
    ensures a != Call && Enabled(plan, s, a)
  {
    match s.consumer
    case Querying =>
      if TaskDone(plan, s, Request) {
        a := FinishQuery;
      } else {
        a := TaskProgress(plan, s, Request);
      }
    case Receiving =>
      var g: nat :| g in InFlightSet(s);
      if s.phase[g].Counted? {
        a := Spawn(g);
      } else if s.phase[g].Sending? {
        a := Receive(g);
      } else if TaskDone(plan, s, Worker(g)) {
        a := FinishDispatch(g);
      } else {
        a := TaskProgress(plan, s, Worker(g));
      }
    case Decrementing(_) => a := Decrement;
    case Emitting(_) => a := ReadDeferred;
    case Flagging(_) => a := ReadPending;
  }

  function Rank(p: Phase): nat {
    match p
    case Unregistered => 13
    case Counted => 12
    case Running => 11
    case Sending => 10
    case Delivered => 0
  }

  function PhaseWork(phase: seq<Phase>): nat {
    if |phase| == 0 then 0 else Rank(phase[0]) + PhaseWork(phase[1..])
  }

  function BatchWork(counted: seq<bool>): nat {
    if |counted| == 0 then 0 else (if counted[0] then 0 else 1) + BatchWork(counted[1..])
  }

  function CallerWork(first: bool, c: Consumer): nat {
    match c
    case Idle => if first then 11 else 6
    case Querying => 10
    case Receiving => 5
    case Decrementing(_) => 9
    case Emitting(_) => 8
    case Flagging(_) => 7
  }

  /** What is left to do: unregistered, running and undelivered groups, uncounted objects, and
      the position of the caller. */
  function Work(s: State): nat {
    PhaseWork(s.phase) + BatchWork(s.counted) + CallerWork(s.first, s.consumer)
  }

  lemma {:induction false} PhaseWorkUpdate(phase: seq<Phase>, g: nat, p: Phase)
    requires g < |phase|
    ensures PhaseWork(phase[g := p]) == PhaseWork(phase) - Rank(phase[g]) + Rank(p)
  {
    var updated := phase[g := p];
    if g == 0 {
      assert updated[1..] == phase[1..];
    } else {
      assert updated[1..] == phase[1..][g - 1 := p];
      PhaseWorkUpdate(phase[1..], g - 1, p);
    }
  }

  lemma {:induction false} BatchWorkUpdate(counted: seq<bool>, b: nat)
    requires b < |counted| && !counted[b]
    ensures BatchWork(counted[b := true]) == BatchWork(counted) - 1
  {
    var updated := counted[b := true];
    if b == 0 {
      assert updated[1..] == counted[1..];
    } else {
      assert updated[1..] == counted[1..][b - 1 := true];
      BatchWorkUpdate(counted[1..], b - 1);
    }
  }

  /** Every step but a call that returns nil leaves less to do. */
  lemma WorkDecreases(plan: Plan, s: State, a: Action)
    requires Shaped(plan, s) && Enabled(plan, s, a)
    requires s.first ==> s.consumer.Idle?
    requires a == Call ==> s.first || s.pending > 0
    ensures Work(Apply(plan, s, a)) < Work(s)
  {
    match a
    case CountBatch(b) => BatchWorkUpdate(s.counted, b);
    case CountGroup(g) => PhaseWorkUpdate(s.phase, g, Counted);
    case Spawn(g) => PhaseWorkUpdate(s.phase, g, Running);
    case FinishDispatch(g) => PhaseWorkUpdate(s.phase, g, Sending);
    case Receive(g) => PhaseWorkUpdate(s.phase, g, Delivered);
    case _ =>
  }

  function Nils(log: seq<Answer>): nat {
    if |log| == 0 then 0 else Nils(log[..|log| - 1]) + (if log[|log| - 1].Nil? then 1 else 0)
  }

  lemma NilsSnoc(log: seq<Answer>, a: Answer)
    ensures Nils(log + [a]) == Nils(log) + (if a.Nil? then 1 else 0)
  {
    var all := log + [a];
    assert all[..|all| - 1] == log;
  }

  /** No run takes more steps than there was work, apart from calls that returned nil. */
  lemma {:induction false} StepsBounded(plan: Plan, s: State, acts: seq<Action>)
    requires Inv(plan, s) && Legal(plan, s, acts)
    ensures |acts| + Work(Execute(plan, s, acts)) + Nils(s.log) <= Work(s) + Nils(Execute(plan, s, acts).log)
    decreases |acts|
  {
    if |acts| > 0 {
      var a, t := acts[0], Apply(plan, s, acts[0]);
      StepInv(plan, s, a);
      StepsBounded(plan, t, acts[1..]);
      if |t.log| > |s.log| {
        NilsSnoc(s.log, t.log[|s.log|]);
      }
      if a != Call || s.first || s.pending > 0 {
        WorkDecreases(plan, s, a);
      }
    }
  }

  lemma {:induction false} InitialPhaseWork(phase: seq<Phase>)
    requires forall g :: 0 <= g < |phase| ==> phase[g].Unregistered?
    ensures PhaseWork(phase) == 13 * |phase|
  {
    if |phase| > 0 {
      InitialPhaseWork(phase[1..]);
    }
  }

  lemma {:induction false} InitialBatchWork(counted: seq<bool>)
    requires forall b :: 0 <= b < |counted| ==> !counted[b]
    ensures BatchWork(counted) == |counted|
  {
    if |counted| > 0 {
      InitialBatchWork(counted[1..]);
    }
  }

  lemma InitialWork(plan: Plan)
    ensures Work(Init(plan)) == 13 * |plan.groups| + |plan.batches| + 11
  {
    InitialPhaseWork(Init(plan).phase);
    InitialBatchWork(Init(plan).counted);
  }

  /** Calling the handler again and again drains every forest: a run that is long enough has
      returned nil, so with `Progress` no fair run leaves a sender blocked. */
  lemma LongRunsEnd(plan: Plan, acts: seq<Action>)
    requires Run(plan, acts)
    requires |acts| > 13 * |plan.groups| + |plan.batches| + 11
    ensures Nil in End(plan, acts).log
  {
    InitInv(plan);
    StepsBounded(plan, Init(plan), acts);
    InitialWork(plan);
    NilsPositive(End(plan, acts).log);
  }

  /** Every run can be continued until the handler returns nil. */
  lemma {:induction false} RunsComplete(plan: Plan, acts: seq<Action>) returns (all: seq<Action>)
    requires Run(plan, acts)
    ensures acts <= all && Run(plan, all) && Nil in End(plan, all).log
    decreases 13 * |plan.groups| + |plan.batches| + 12 - |acts|
  {
    var s := End(plan, acts);
    if Nil in s.log {
      all := acts;
    } else {
      var a := Call;
      if !s.consumer.Idle? {
        a := Progress(plan, s);
      }
      if |acts| > 13 * |plan.groups| + |plan.batches| + 11 {
        LongRunsEnd(plan, acts);
      }
      LegalSnoc(plan, Init(plan), acts, a);
      all := RunsComplete(plan, acts + [a]);
    }
  }

  lemma {:induction false} NilsPositive(log: seq<Answer>)
    ensures Nils(log) > 0 ==> Nil in log
  {
    if |log| > 0 {
      NilsPositive(log[..|log| - 1]);
      assert log[|log| - 1] in log;
    }
  }

  // ----- what a response carries, in every completed run -----

  ghost predicate Delivers(log: seq<Answer>, p: Payload) {
    exists i :: 0 <= i < |log| && log[i].Response? && log[i].payload == p
  }

  lemma {:induction false} SourcesAreDelivered(log: seq<Answer>, g: nat)
    ensures g in Sources(log)
       <==> exists i :: 0 <= i < |log| && log[i].Response? && log[i].payload.Deferred? && log[i].payload.group == g
  {
    if |log| > 0 {
      var rest := log[..|log| - 1];
      SourcesAreDelivered(rest, g);
      assert forall i :: 0 <= i < |rest| ==> rest[i] == log[i];
    }
  }

  /** A completed run delivers the payload of every live group and no other. */
  lemma DeliversLive(plan: Plan, acts: seq<Action>, p: Payload)
    requires Run(plan, acts) && Nil in End(plan, acts).log && p.Deferred?
    ensures Delivers(End(plan, acts).log, p)
       <==> Carries(plan, p) && plan.Live(p.group)
  {
    var log := End(plan, acts).log;
    ExactlyOnce(plan, acts);
    SourcesAreDelivered(log, p.group);
    if Carries(plan, p) && plan.Live(p.group) {
      var i :| 0 <= i < |log| && log[i].Response? && log[i].payload.Deferred? && log[i].payload.group == p.group;
      assert Carries(plan, log[i].payload);
      assert log[i].payload == p;
    }
  }

  // ----- a failure stays at or below its group -----

  /** The group is h, or the dispatch of h registers it directly or through other groups. */
  predicate Under(plan: Plan, h: nat, g: nat)
    requires plan.Valid() && g < |plan.groups|
    decreases g
  {
    g == h || match plan.Owner(g) case Request => false case Worker(k) => Under(plan, h, k)
  }

  predicate TaskUnder(plan: Plan, h: nat, t: Task)
    requires plan.Valid()
  {
    t.Worker? && t.group < |plan.groups| && Under(plan, h, t.group)
  }

  /** Two outcomes of one request that differ in what goes wrong while h and the groups under it are
      dispatched: in the errors and null fields of their responses, and in the null fields of the
      objects marshalled there, which may collapse and then register nothing. */
  ghost predicate DifferUnder(plan: Plan, plan': Plan, h: nat) {
    && plan.Valid() && plan'.Valid()
    && |plan.batches| == |plan'.batches| && |plan.groups| == |plan'.groups|
    && (forall b :: 0 <= b < |plan.batches| ==>
          && plan.batches[b].owner == plan'.batches[b].owner
          && (plan.batches[b] == plan'.batches[b] || TaskUnder(plan, h, plan.batches[b].owner)))
    && (forall g :: 0 <= g < |plan.groups| ==>
          && plan.groups[g].batch == plan'.groups[g].batch
          && plan.groups[g].path == plan'.groups[g].path && plan.groups[g].deferLabel == plan'.groups[g].deferLabel
          && (plan.groups[g] == plan'.groups[g] || Under(plan, h, g)))
  }

  lemma {:induction false} UnderIsLater(plan: Plan, h: nat, g: nat)
    requires plan.Valid() && g < |plan.groups| && Under(plan, h, g)
    ensures h <= g
    decreases g
  {
    if g != h {
      UnderIsLater(plan, h, plan.Owner(g).group);
    }
  }

  /** Whether h itself or a group that is not under it is to be delivered does not depend on them. */
  lemma {:induction false} SameLive(plan: Plan, plan': Plan, h: nat, g: nat)
    requires DifferUnder(plan, plan', h) && g < |plan.groups|
    requires g == h || !Under(plan, h, g)
    ensures plan.Live(g) <==> plan'.Live(g)
    decreases g
  {
    assert plan.Owner(g) == plan'.Owner(g);
    match plan.Owner(g)
    case Request =>
    case Worker(k) =>
      if Under(plan, h, k) {
        UnderIsLater(plan, h, k);
      }
      SameLive(plan, plan', h, k);
  }

  /** Every group that is not under h has the same payload in both logs or is in neither. */
  ghost predicate OthersAlike(plan: Plan, h: nat, log: seq<Answer>, log': seq<Answer>)
    requires plan.Valid()
  {
    forall p: Payload :: p.Deferred? && p.group < |plan.groups| && !Under(plan, h, p.group) ==>
      (Delivers(log, p) <==> Delivers(log', p))
  }

  /** The group h is in both logs, with the same path and label, or in neither. */
  ghost predicate OwnAlike(h: nat, log: seq<Answer>, log': seq<Answer>) {
    && (h in Sources(log) <==> h in Sources(log'))
    && forall i, j :: 0 <= i < |log| && 0 <= j < |log'| && IsResponseOf(h, log[i]) && IsResponseOf(h, log'[j]) ==>
         log[i].payload.path == log'[j].payload.path && log[i].payload.deferLabel == log'[j].payload.deferLabel
  }

  predicate IsResponseOf(h: nat, a: Answer) {
    IsDeferred(a) && a.payload.group == h
  }

  lemma OthersUnchanged(plan: Plan, plan': Plan, h: nat, acts: seq<Action>, acts': seq<Action>)
    requires DifferUnder(plan, plan', h)
    requires Run(plan, acts) && Nil in End(plan, acts).log
    requires Run(plan', acts') && Nil in End(plan', acts').log
    ensures OthersAlike(plan, h, End(plan, acts).log, End(plan', acts').log)
  {
    var log, log' := End(plan, acts).log, End(plan', acts').log;
    forall p: Payload | p.Deferred? && p.group < |plan.groups| && !Under(plan, h, p.group)
      ensures Delivers(log, p) <==> Delivers(log', p)
    {
      DeliversLive(plan, acts, p);
      DeliversLive(plan', acts', p);
      SameLive(plan, plan', h, p.group);
    }
  }

  lemma OwnUnchanged(plan: Plan, plan': Plan, h: nat, acts: seq<Action>, acts': seq<Action>)
    requires DifferUnder(plan, plan', h) && h < |plan.groups|
    requires Run(plan, acts) && Nil in End(plan, acts).log
    requires Run(plan', acts') && Nil in End(plan', acts').log
    ensures OwnAlike(h, End(plan, acts).log, End(plan', acts').log)
  {
    SameLive(plan, plan', h, h);
    ExactlyOnce(plan, acts);
    ExactlyOnce(plan', acts');
  }

  /** Whatever goes wrong at or below one group, and however the goroutines are scheduled, every
      group that is not below it is delivered in both runs or in neither; with the same payload, but
      that the group's own response may carry other errors and other data. */
  lemma FailureIsLocal(plan: Plan, plan': Plan, h: nat, acts: seq<Action>, acts': seq<Action>)
    requires DifferUnder(plan, plan', h) && h < |plan.groups|
    requires Run(plan, acts) && Nil in End(plan, acts).log
    requires Run(plan', acts') && Nil in End(plan', acts').log
    ensures OthersAlike(plan, h, End(plan, acts).log, End(plan', acts').log)
    ensures OwnAlike(h, End(plan, acts).log, End(plan', acts').log)
  {
    OthersUnchanged(plan, plan', h, acts, acts');
    OwnUnchanged(plan, plan', h, acts, acts');
  }

  /** One group at the root and one nested in it, whose object has some null required fields. */
  function Nested(invalids: nat): (plan: Plan)
    ensures plan.Valid()
  {
    Plan([Batch(Request, 0), Batch(Worker(0), invalids)], [Group(0, [0], "", [], 0), Group(1, [0, 0], "", [], 0)])
  }

  lemma NestedLive(invalids: nat)
    ensures Nested(invalids).Live(0)
    ensures Nested(invalids).Live(1) <==> invalids == 0
    ensures Under(Nested(invalids), 0, 1)
  {
    assert Nested(invalids).Owner(0) == Request && Nested(invalids).Owner(1) == Worker(0);
  }

  lemma NestedDiffer(invalids: nat)
    ensures DifferUnder(Nested(0), Nested(invalids), 0)
  {
    assert Under(Nested(0), 0, 0);
    assert TaskUnder(Nested(0), 0, Nested(0).batches[1].owner);
  }

  /** Below the group a failure does reach further: an object that collapses in its dispatch takes
      the responses of the groups nested in it away. */
  lemma CollapseReachesBelow(acts: seq<Action>, acts': seq<Action>)
    requires Run(Nested(0), acts) && Nil in End(Nested(0), acts).log
    requires Run(Nested(1), acts') && Nil in End(Nested(1), acts').log
    ensures DifferUnder(Nested(0), Nested(1), 0) && Under(Nested(0), 0, 1)
    ensures 1 in Sources(End(Nested(0), acts).log) && 1 !in Sources(End(Nested(1), acts').log)
  {
    NestedDiffer(1);
    NestedLive(0);
    NestedLive(1);
    ExactlyOnce(Nested(0), acts);
    ExactlyOnce(Nested(1), acts');
  }

  // ----- the order of registration -----

  /** In every run a group is registered only after its parent was counted and started, and by an
      object that did not collapse. A parent that offers its response, or whose response was taken,
      has started every group that such an object nests in it, so `pendingDeferred` counts these
      before the parent's own count is taken off. */
  lemma RegistrationOrder(plan: Plan, acts: seq<Action>, h: nat, g: nat)
    requires Run(plan, acts) && h < |plan.groups| && g < |plan.groups| && plan.Owner(g) == Worker(h)
    ensures var s := End(plan, acts);
            && (!s.phase[g].Unregistered? ==> Started(s.phase[h]) && plan.Kept(g))
            && (plan.Kept(g) && (s.phase[h].Sending? || s.phase[h].Delivered?) ==>
                  Started(s.phase[g]) && (s.phase[g].Delivered? || s.pending > 0))
  {
    var s := End(plan, acts);
    if plan.Kept(g) && (s.phase[h].Sending? || s.phase[h].Delivered?) {
      assert BatchDone(plan, s, plan.groups[g].batch);
      assert !s.phase[g].Delivered? ==> g in InFlightSet(s);
    }
  }
}
