/** What every step of the deferred protocol keeps. */
module DeferredInvariant {
  import opened Options
  import opened DeferredProtocol

  predicate TaskStarted(s: State, t: Task) {
    match t
    case Request => !s.first
    case Worker(h) => h < |s.phase| && Started(s.phase[h])
  }

  predicate TaskEnded(s: State, t: Task) {
    match t
    case Request => !s.first && !s.consumer.Querying?
    case Worker(h) => h < |s.phase| && (s.phase[h].Sending? || s.phase[h].Delivered?)
  }

  ghost predicate RegisteredIsCounted(plan: Plan, s: State)
    requires Shaped(plan, s)
  {
    forall g :: 0 <= g < |plan.groups| && !s.phase[g].Unregistered? ==> s.counted[plan.groups[g].batch]
  }

  ghost predicate CountedIsKept(plan: Plan, s: State)
    requires Shaped(plan, s)
  {
    forall b :: 0 <= b < |plan.batches| && s.counted[b] ==>
      plan.batches[b].invalids == 0 && TaskStarted(s, plan.batches[b].owner)
  }

  ghost predicate EndedIsDone(plan: Plan, s: State)
    requires Shaped(plan, s)
  {
    forall b :: 0 <= b < |plan.batches| && TaskEnded(s, plan.batches[b].owner) ==> BatchDone(plan, s, b)
  }

  /** Registration follows the forest: counted objects were kept and their task had begun, and
      a task ends only when all its objects have registered all their groups. */
  ghost predicate Registration(plan: Plan, s: State)
    requires Shaped(plan, s)
  {
    RegisteredIsCounted(plan, s) && CountedIsKept(plan, s) && EndedIsDone(plan, s)
  }

  /** Registered and not yet taken by the caller. */
  predicate InFlight(p: Phase) {
    p.Counted? || p.Running? || p.Sending?
  }

  function InFlightSet(s: State): set<nat> {
    set g: nat | g < |s.phase| && InFlight(s.phase[g])
  }

  function CountedSet(plan: Plan, s: State): set<nat>
    requires Shaped(plan, s)
  {
    set g: nat | g < |plan.groups| && s.counted[plan.groups[g].batch]
  }

  /** The two counters, exactly. */
  ghost predicate Counting(plan: Plan, s: State)
    requires Shaped(plan, s)
  {
    && s.pending == |InFlightSet(s)| + (if s.consumer.Decrementing? then 1 else 0)
    && s.deferred == |CountedSet(plan, s)|
  }

  function Sources(log: seq<Answer>): seq<nat> {
    if |log| == 0 then []
    else
      var last := log[|log| - 1];
      Sources(log[..|log| - 1])
      + (if last.Response? && last.payload.Deferred? then [last.payload.group] else [])
  }

  /** The group whose response is being prepared. */
  function Held(c: Consumer): seq<nat> {
    match c
    case Decrementing(g) => [g]
    case Emitting(source) => if source.Some? then [source.value] else []
    case Flagging(source) => if source.Some? then [source.value] else []
    case _ => []
  }

  /** Groups taken from the channel, in order. */
  function Taken(s: State): seq<nat> {
    Sources(s.log) + Held(s.consumer)
  }

  predicate NoDuplicates(a: seq<nat>) {
    forall i, j :: 0 <= i < j < |a| ==> a[i] != a[j]
  }

  /** The payload has its group's path, label and errors, and its data unless a required field of
      the group is null: nulls bubble up. */
  predicate Carries(plan: Plan, p: Payload) {
    && p.Deferred? && p.group < |plan.groups|
    && p.path == plan.groups[p.group].path
    && p.deferLabel == plan.groups[p.group].deferLabel
    && p.errors == plan.groups[p.group].errors
    && (p.data == NullData <==> plan.groups[p.group].invalids > 0)
    && (p.data != NullData ==> p.data == FieldSet(p.group))
  }

  /** Deferred responses carry what their own group produced. */
  ghost predicate OwnPayloads(plan: Plan, log: seq<Answer>) {
    forall i :: 0 <= i < |log| && log[i].Response? && log[i].payload.Deferred? ==> Carries(plan, log[i].payload)
  }

  /** The groups taken are the delivered ones, each once, with their own payload. */
  ghost predicate Delivery(plan: Plan, s: State)
    requires Shaped(plan, s)
  {
    && NoDuplicates(Taken(s))
    && (forall g :: g in Taken(s) <==> 0 <= g < |plan.groups| && s.phase[g].Delivered?)
    && OwnPayloads(plan, s.log)
  }

  predicate Promises(a: Answer) {
    a.Response? && a.hasNext == Some(true)
  }

  /** What may come after an answer. */
  predicate Follows(a: Answer, b: Answer) {
    if Promises(a) then b.Response? && b.payload.Deferred? else b.Nil?
  }

  predicate Truthful(log: seq<Answer>) {
    && (|log| > 0 ==> log[0].Response? && log[0].payload.Initial?)
    && (forall i :: 0 <= i && i + 1 < |log| ==> Follows(log[i], log[i + 1]))
  }

  predicate LastPromises(log: seq<Answer>) {
    |log| > 0 && Promises(log[|log| - 1])
  }

  /** The answers so far keep their promises, and the last one can be kept. */
  ghost predicate Answers(plan: Plan, s: State)
    requires Shaped(plan, s)
  {
    && Truthful(s.log)
    && (forall i :: 0 <= i < |s.log| && s.log[i].Response? ==> (s.log[i].hasNext.Some? <==> plan.HasRootGroup()))
    && (s.first ==> s.consumer.Idle?)
    && (match s.consumer
        case Idle => if s.first then s.log == [] else |s.log| > 0 && (LastPromises(s.log) <==> s.pending > 0)
        case Querying => s.log == []
        case Receiving => LastPromises(s.log) && s.pending > 0
        case Decrementing(_) => LastPromises(s.log)
        case Emitting(source) => if source.None? then s.log == [] else LastPromises(s.log)
        case Flagging(source) => plan.HasRootGroup() && if source.None? then s.log == [] else LastPromises(s.log))
  }

  ghost predicate Inv(plan: Plan, s: State) {
    Shaped(plan, s) && Registration(plan, s) && Counting(plan, s) && Delivery(plan, s) && Answers(plan, s)
  }

  lemma InitInv(plan: Plan)
    requires plan.Valid()
    ensures Inv(plan, Init(plan))
  {
    var s := Init(plan);
    assert InFlightSet(s) == {};
    assert CountedSet(plan, s) == {};
  }

  // ----- registration -----

  lemma RegistrationStep(plan: Plan, s: State, a: Action)
    requires Shaped(plan, s) && Registration(plan, s) && Enabled(plan, s, a)
    requires s.first ==> s.consumer.Idle?
    ensures Registration(plan, Apply(plan, s, a))
  {
    RegisteredStep(plan, s, a);
    CountedStep(plan, s, a);
    EndedStep(plan, s, a);
  }

  lemma RegisteredStep(plan: Plan, s: State, a: Action)
    requires Shaped(plan, s) && RegisteredIsCounted(plan, s) && Enabled(plan, s, a)
    ensures RegisteredIsCounted(plan, Apply(plan, s, a))
  {}

  lemma CountedStep(plan: Plan, s: State, a: Action)
    requires Shaped(plan, s) && CountedIsKept(plan, s) && Enabled(plan, s, a)
    requires s.first ==> s.consumer.Idle?
    ensures CountedIsKept(plan, Apply(plan, s, a))
  {
    var t := Apply(plan, s, a);
    forall b | 0 <= b < |plan.batches| && t.counted[b]
      ensures plan.batches[b].invalids == 0 && TaskStarted(t, plan.batches[b].owner)
    {
      if s.counted[b] {
        assert TaskStarted(s, plan.batches[b].owner);
      }
    }
  }

  lemma EndedStep(plan: Plan, s: State, a: Action)
    requires Shaped(plan, s) && Registration(plan, s) && Enabled(plan, s, a)
    requires s.first ==> s.consumer.Idle?
    ensures EndedIsDone(plan, Apply(plan, s, a))
  {
    var t := Apply(plan, s, a);
    forall b | 0 <= b < |plan.batches| && TaskEnded(t, plan.batches[b].owner)
      ensures BatchDone(plan, t, b)
    {
      EndedBatchStep(plan, s, a, b);
    }
  }

  lemma EndedBatchStep(plan: Plan, s: State, a: Action, b: nat)
    requires Shaped(plan, s) && Registration(plan, s) && Enabled(plan, s, a)
    requires s.first ==> s.consumer.Idle?
    requires b < |plan.batches| && TaskEnded(Apply(plan, s, a), plan.batches[b].owner)
    ensures BatchDone(plan, Apply(plan, s, a), b)
  {
    assert BatchDone(plan, s, b);
  }

  // ----- counting -----

  lemma CountedGrows(plan: Plan, s: State, b: nat)
    requires Shaped(plan, s) && Enabled(plan, s, CountBatch(b))
    ensures CountedSet(plan, Apply(plan, s, CountBatch(b))) == CountedSet(plan, s) + GroupsIn(plan, b)
    ensures |CountedSet(plan, s) + GroupsIn(plan, b)| == |CountedSet(plan, s)| + |GroupsIn(plan, b)|
  {
    assert CountedSet(plan, s) !! GroupsIn(plan, b);
  }

  lemma CountBatchStep(plan: Plan, s: State, b: nat)
    requires Shaped(plan, s) && Counting(plan, s) && Enabled(plan, s, CountBatch(b))
    ensures Counting(plan, Apply(plan, s, CountBatch(b)))
  {
    CountedGrows(plan, s, b);
    assert InFlightSet(Apply(plan, s, CountBatch(b))) == InFlightSet(s);
  }

  lemma CountGroupStep(plan: Plan, s: State, g: nat)
    requires Shaped(plan, s) && Counting(plan, s) && Enabled(plan, s, CountGroup(g))
    ensures Counting(plan, Apply(plan, s, CountGroup(g)))
  {
    var t := Apply(plan, s, CountGroup(g));
    assert CountedSet(plan, t) == CountedSet(plan, s);
    assert InFlightSet(t) == InFlightSet(s) + {g};
  }

  lemma ReceiveCountStep(plan: Plan, s: State, g: nat)
    requires Shaped(plan, s) && Counting(plan, s) && Enabled(plan, s, Receive(g))
    ensures Counting(plan, Apply(plan, s, Receive(g)))
  {
    var t := Apply(plan, s, Receive(g));
    assert CountedSet(plan, t) == CountedSet(plan, s);
    assert InFlightSet(t) == InFlightSet(s) - {g};
  }

  lemma OtherCountStep(plan: Plan, s: State, a: Action)
    requires Shaped(plan, s) && Counting(plan, s) && Enabled(plan, s, a)
    requires !a.CountBatch? && !a.CountGroup? && !a.Receive?
    ensures Counting(plan, Apply(plan, s, a))
  {
    var t := Apply(plan, s, a);
    assert CountedSet(plan, t) == CountedSet(plan, s);
    assert InFlightSet(t) == InFlightSet(s);
  }

  lemma CountingStep(plan: Plan, s: State, a: Action)
    requires Shaped(plan, s) && Counting(plan, s) && Enabled(plan, s, a)
    ensures Counting(plan, Apply(plan, s, a))
  {
    match a
    case CountBatch(b) => CountBatchStep(plan, s, b);
    case CountGroup(g) => CountGroupStep(plan, s, g);
    case Receive(g) => ReceiveCountStep(plan, s, g);
    case _ => OtherCountStep(plan, s, a);
  }

  // ----- delivery -----

  lemma SourcesSnoc(log: seq<Answer>, a: Answer)
    ensures Sources(log + [a])
         == Sources(log) + (if a.Response? && a.payload.Deferred? then [a.payload.group] else [])
  {
    var all := log + [a];
    assert all[..|all| - 1] == log && all[|all| - 1] == a;
  }

  lemma ReceiveStep(plan: Plan, s: State, g: nat)
    requires Shaped(plan, s) && Delivery(plan, s) && Enabled(plan, s, Receive(g))
    ensures Delivery(plan, Apply(plan, s, Receive(g)))
  {
    var t := Apply(plan, s, Receive(g));
    assert Taken(t) == Taken(s) + [g];
    assert g !in Taken(s);
  }

  /** Logging the response for the held source moves it from one part of the list to the other. */
  lemma LogTaken(log: seq<Answer>, source: Option<nat>, r: Answer)
    requires r.Response? && (r.payload.Deferred? <==> source.Some?)
    requires source.Some? ==> r.payload.group == source.value
    ensures Sources(log + [r]) + [] == Sources(log) + Held(Emitting(source))
  {
    SourcesSnoc(log, r);
  }

  lemma PayloadIsOwn(plan: Plan, source: Option<nat>)
    requires source.Some? ==> source.value < |plan.groups|
    ensures PayloadOf(plan, source).Deferred? <==> source.Some?
    ensures source.Some? ==> PayloadOf(plan, source).group == source.value && Carries(plan, PayloadOf(plan, source))
  {}

  lemma PendingTaken(plan: Plan, s: State)
    requires Shaped(plan, s) && Delivery(plan, s) && Enabled(plan, s, ReadPending)
    ensures Taken(Apply(plan, s, ReadPending)) == Taken(s)
  {
    HeldIsGroup(plan, s);
    PayloadIsOwn(plan, s.consumer.source);
    LogTaken(s.log, s.consumer.source, Response(PayloadOf(plan, s.consumer.source), Some(s.pending > 0)));
  }

  lemma DeferredTaken(plan: Plan, s: State)
    requires Shaped(plan, s) && Delivery(plan, s) && Enabled(plan, s, ReadDeferred)
    ensures Taken(Apply(plan, s, ReadDeferred)) == Taken(s)
  {
    if s.deferred <= 0 {
      HeldIsGroup(plan, s);
      PayloadIsOwn(plan, s.consumer.source);
      LogTaken(s.log, s.consumer.source, Response(PayloadOf(plan, s.consumer.source), None));
    }
  }

  lemma CallTaken(plan: Plan, s: State)
    requires Shaped(plan, s) && Enabled(plan, s, Call)
    ensures Taken(Apply(plan, s, Call)) == Taken(s)
  {
    SourcesSnoc(s.log, Nil);
  }

  lemma TakenStep(plan: Plan, s: State, a: Action)
    requires Shaped(plan, s) && Delivery(plan, s) && Enabled(plan, s, a) && !a.Receive?
    ensures Taken(Apply(plan, s, a)) == Taken(s)
  {
    match a
    case Call => CallTaken(plan, s);
    case ReadDeferred => DeferredTaken(plan, s);
    case ReadPending => PendingTaken(plan, s);
    case _ =>
  }

  lemma PayloadsStep(plan: Plan, s: State, a: Action)
    requires Shaped(plan, s) && Delivery(plan, s) && Enabled(plan, s, a)
    ensures OwnPayloads(plan, Apply(plan, s, a).log)
  {
    HeldIsGroup(plan, s);
    if a.ReadDeferred? || a.ReadPending? {
      PayloadIsOwn(plan, s.consumer.source);
    }
  }

  lemma DeliveryStep(plan: Plan, s: State, a: Action)
    requires Shaped(plan, s) && Delivery(plan, s) && Enabled(plan, s, a)
    ensures Delivery(plan, Apply(plan, s, a))
  {
    if a.Receive? {
      ReceiveStep(plan, s, a.g);
    } else {
      TakenStep(plan, s, a);
      PayloadsStep(plan, s, a);
    }
  }

  lemma HeldIsGroup(plan: Plan, s: State)
    requires Shaped(plan, s) && Delivery(plan, s)
    ensures |Held(s.consumer)| > 0 ==> Held(s.consumer)[0] < |plan.groups|
  {
    if |Held(s.consumer)| > 0 {
      assert Taken(s)[|Sources(s.log)|] == Held(s.consumer)[0];
      assert Held(s.consumer)[0] in Taken(s);
    }
  }

  // ----- answers -----

  /** With nothing pending no goroutine can register a group. */
  lemma QuietMeansIdle(plan: Plan, s: State, h: nat)
    requires Shaped(plan, s) && Counting(plan, s) && s.pending == 0 && h < |plan.groups|
    ensures !InFlight(s.phase[h]) && !s.consumer.Decrementing?
  {
    assert InFlight(s.phase[h]) ==> h in InFlightSet(s);
  }

  /** A counted object descends from an object of the initial result that has groups. */
  lemma {:induction false} RootOf(plan: Plan, s: State, g: nat)
    requires Shaped(plan, s) && Registration(plan, s)
    requires g < |plan.groups| && s.counted[plan.groups[g].batch]
    ensures plan.HasRootGroup()
    decreases g
  {
    match plan.Owner(g)
    case Request => assert plan.Kept(g);
    case Worker(h) => RootOf(plan, s, h);
  }

  lemma RootCounted(plan: Plan, s: State, g: nat)
    requires Inv(plan, s) && s.consumer.Emitting?
    requires g < |plan.groups| && plan.Kept(g) && plan.Owner(g) == Request
    ensures s.deferred > 0
  {
    assert BatchDone(plan, s, plan.groups[g].batch);
    assert g in CountedSet(plan, s);
  }

  lemma FirstReading(plan: Plan, s: State)
    requires Inv(plan, s) && s.consumer.Emitting?
    ensures s.deferred > 0 <==> plan.HasRootGroup()
    ensures s.deferred == 0 ==> s.pending == 0
  {
    assert InFlightSet(s) <= CountedSet(plan, s);
    forall g: nat | g < |plan.groups| && plan.Kept(g) && plan.Owner(g) == Request
      ensures s.deferred > 0
    {
      RootCounted(plan, s, g);
    }
    if s.deferred > 0 {
      var g :| g in CountedSet(plan, s);
      RootOf(plan, s, g);
    }
  }

  lemma TruthfulSnoc(log: seq<Answer>, a: Answer)
    requires Truthful(log)
    requires if |log| == 0 then a.Response? && a.payload.Initial? else Follows(log[|log| - 1], a)
    ensures Truthful(log + [a])
  {
    var all := log + [a];
    forall i | 0 <= i && i + 1 < |all| ensures Follows(all[i], all[i + 1]) {
      if i + 1 < |log| {
        assert Follows(log[i], log[i + 1]);
      }
    }
  }

  /** A group whose response is being prepared has been counted. */
  lemma HeldCounted(plan: Plan, s: State)
    requires Inv(plan, s) && s.consumer.Emitting? && s.consumer.source.Some?
    ensures s.deferred > 0
  {
    HeldIsGroup(plan, s);
    var g := s.consumer.source.value;
    assert Taken(s)[|Sources(s.log)|] == g;
    assert g in Taken(s);
    assert g in CountedSet(plan, s);
  }

  lemma CountGroupKeepsAnswers(plan: Plan, s: State, g: nat)
    requires Inv(plan, s) && Enabled(plan, s, CountGroup(g))
    ensures Answers(plan, Apply(plan, s, CountGroup(g)))
  {
    if plan.Owner(g).Worker? && s.pending == 0 {
      QuietMeansIdle(plan, s, plan.Owner(g).group);
    }
  }

  lemma EmitKeepsAnswers(plan: Plan, s: State, a: Action)
    requires Inv(plan, s) && Enabled(plan, s, a) && (a.ReadDeferred? || a.ReadPending?)
    ensures Answers(plan, Apply(plan, s, a))
  {
    var t := Apply(plan, s, a);
    HeldIsGroup(plan, s);
    if a.ReadDeferred? {
      FirstReading(plan, s);
      if s.consumer.source.Some? {
        HeldCounted(plan, s);
      }
    }
    if |t.log| > |s.log| {
      TruthfulSnoc(s.log, t.log[|s.log|]);
    }
  }

  lemma AnswersStep(plan: Plan, s: State, a: Action)
    requires Inv(plan, s) && Enabled(plan, s, a)
    ensures Answers(plan, Apply(plan, s, a))
  {
    match a
    case Call => if !s.first && s.pending <= 0 { TruthfulSnoc(s.log, Nil); }
    case CountGroup(g) => CountGroupKeepsAnswers(plan, s, g);
    case ReadDeferred => EmitKeepsAnswers(plan, s, a);
    case ReadPending => EmitKeepsAnswers(plan, s, a);
    case _ =>
  }

  /** Every step keeps the invariant. */
  lemma StepInv(plan: Plan, s: State, a: Action)
    requires Inv(plan, s) && Enabled(plan, s, a)
    ensures Inv(plan, Apply(plan, s, a))
  {
    RegistrationStep(plan, s, a);
    CountingStep(plan, s, a);
    DeliveryStep(plan, s, a);
    AnswersStep(plan, s, a);
  }

  /** So every state that a run from the beginning reaches satisfies it. */
  lemma {:induction false} RunInv(plan: Plan, s: State, acts: seq<Action>)
    requires Inv(plan, s) && Legal(plan, s, acts)
    ensures Inv(plan, Execute(plan, s, acts))
    decreases |acts|
  {
    if |acts| > 0 {
      StepInv(plan, s, acts[0]);
      RunInv(plan, Apply(plan, s, acts[0]), acts[1..]);
    }
  }
}
