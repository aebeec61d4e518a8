/** The protocol by which `Exec` hands deferred results to its caller, as atomic steps of the
    caller's goroutine and of the goroutines that `processDeferredGroup` starts. */
module DeferredProtocol {
  import opened Options

  /** The code that registers groups: the `_Query` call, or the dispatch of a deferred group. */
  datatype Task = Request | Worker(group: nat)

  /** One object with deferred groups: who marshals it, and how many of its required fields
      turned out null. Such an object collapses and registers nothing. */
  datatype Batch = Batch(owner: Task, invalids: nat)

  /** One deferred group: the object that registers it, and what its own dispatch produces. */
  datatype Group = Group(batch: nat, path: seq<nat>, deferLabel: string, errors: seq<string>, invalids: nat)

  /** The forest of groups of one request. */
  datatype Plan = Plan(batches: seq<Batch>, groups: seq<Group>) {
    /** Nesting is finite: a group comes after the group whose dispatch registers it. */
    predicate Valid() {
      forall g :: 0 <= g < |groups| ==>
        && groups[g].batch < |batches|
        && (batches[groups[g].batch].owner.Worker? ==> batches[groups[g].batch].owner.group < g)
    }

    function Owner(g: nat): Task
      requires Valid() && g < |groups|
    {
      batches[groups[g].batch].owner
    }

    predicate Kept(g: nat)
      requires Valid() && g < |groups|
    {
      batches[groups[g].batch].invalids == 0
    }

    /** No object on the way to the group collapses: these are the groups to deliver. */
    predicate Live(g: nat)
      requires Valid() && g < |groups|
    {
      Kept(g) && match Owner(g) case Request => true case Worker(h) => Live(h)
    }

    predicate HasRootGroup()
      requires Valid()
    {
      exists g :: 0 <= g < |groups| && Kept(g) && Owner(g) == Request
    }
  }

  /** A group before registration, counted but not started, dispatching, blocked on the channel,
      taken by the caller. */
  datatype Phase = Unregistered | Counted | Running | Sending | Delivered

  /** Where the caller's goroutine stands inside the response handler. */
  datatype Consumer =
    | Idle
    | Querying
    | Receiving
    | Decrementing(group: nat)
    | Emitting(source: Option<nat>)
    | Flagging(source: Option<nat>)

  datatype Data = NullData | FieldSet(group: nat)

  datatype Payload =
    | Initial
    | Deferred(group: nat, path: seq<nat>, deferLabel: string, errors: seq<string>, data: Data)

  /** What a call of the handler returned. */
  datatype Answer = Response(payload: Payload, hasNext: Option<bool>) | Nil

  datatype State = State(
    first: bool,
    pending: int,
    deferred: int,
    counted: seq<bool>,
    phase: seq<Phase>,
    consumer: Consumer,
    log: seq<Answer>)

  datatype Action =
    | Call
    | CountBatch(b: nat)
    | CountGroup(g: nat)
    | Spawn(g: nat)
    | FinishQuery
    | FinishDispatch(g: nat)
    | Receive(g: nat)
    | Decrement
    | ReadDeferred
    | ReadPending

  function Init(plan: Plan): State {
    State(true, 0, 0, seq(|plan.batches|, _ => false), seq(|plan.groups|, _ => Unregistered), Idle, [])
  }

  predicate Shaped(plan: Plan, s: State) {
    plan.Valid() && |s.counted| == |plan.batches| && |s.phase| == |plan.groups|
  }

  predicate TaskRunning(s: State, t: Task) {
    match t
    case Request => s.consumer.Querying?
    case Worker(h) => h < |s.phase| && s.phase[h].Running?
  }

  /** The goroutine of the group has been started. */
  predicate Started(p: Phase) {
    p.Running? || p.Sending? || p.Delivered?
  }

  predicate BatchDone(plan: Plan, s: State, b: nat)
    requires Shaped(plan, s) && b < |plan.batches|
  {
    plan.batches[b].invalids > 0
    || (s.counted[b] && forall g :: 0 <= g < |plan.groups| && plan.groups[g].batch == b ==> Started(s.phase[g]))
  }

  predicate TaskDone(plan: Plan, s: State, t: Task)
    requires Shaped(plan, s)
  {
    forall b :: 0 <= b < |plan.batches| && plan.batches[b].owner == t ==> BatchDone(plan, s, b)
  }

  predicate NoneCounted(plan: Plan, s: State, b: nat)
    requires Shaped(plan, s)
  {
    forall g :: 0 <= g < |plan.groups| && plan.groups[g].batch == b ==> !s.phase[g].Counted?
  }

  /** An object's groups are registered one at a time, in any order (the source ranges over a map);
      a task ends when all its objects have done so. */
  predicate Enabled(plan: Plan, s: State, a: Action)
    requires Shaped(plan, s)
  {
    match a
    case Call => s.consumer.Idle?
    case CountBatch(b) =>
      && b < |plan.batches| && !s.counted[b]
      && plan.batches[b].invalids == 0 && TaskRunning(s, plan.batches[b].owner)
    case CountGroup(g) =>
      && g < |plan.groups| && s.phase[g].Unregistered?
      && s.counted[plan.groups[g].batch] && TaskRunning(s, plan.Owner(g))
      && NoneCounted(plan, s, plan.groups[g].batch)
    case Spawn(g) => g < |plan.groups| && s.phase[g].Counted?
    case FinishQuery => s.consumer.Querying? && TaskDone(plan, s, Request)
    case FinishDispatch(g) => g < |plan.groups| && s.phase[g].Running? && TaskDone(plan, s, Worker(g))
    case Receive(g) => g < |plan.groups| && s.consumer.Receiving? && s.phase[g].Sending?
    case Decrement => s.consumer.Decrementing?
    case ReadDeferred => s.consumer.Emitting?
    case ReadPending => s.consumer.Flagging?
  }

  function GroupsIn(plan: Plan, b: nat): (r: set<nat>)
  {
    set g: nat | g < |plan.groups| && plan.groups[g].batch == b
  }

  function PayloadOf(plan: Plan, source: Option<nat>): Payload {
    match source
    case None => Initial
    case Some(g) =>
      if g < |plan.groups| then
        var group := plan.groups[g];
        Deferred(g, group.path, group.deferLabel, group.errors, if group.invalids > 0 then NullData else FieldSet(g))
      else Initial
  }

  /** One atomic step: a load or an add on a counter, a goroutine start, a rendezvous. */
  function Apply(plan: Plan, s: State, a: Action): State
    requires Shaped(plan, s) && Enabled(plan, s, a)
  {
    match a
    case Call =>
      if s.first then s.(first := false, consumer := Querying)
      else if s.pending > 0 then s.(consumer := Receiving)
      else s.(log := s.log + [Nil])
    case CountBatch(b) => s.(counted := s.counted[b := true], deferred := s.deferred + |GroupsIn(plan, b)|)
    case CountGroup(g) => s.(phase := s.phase[g := Counted], pending := s.pending + 1)
    case Spawn(g) => s.(phase := s.phase[g := Running])
    case FinishQuery => s.(consumer := Emitting(None))
    case FinishDispatch(g) => s.(phase := s.phase[g := Sending])
    case Receive(g) => s.(phase := s.phase[g := Delivered], consumer := Decrementing(g))
    case Decrement => s.(pending := s.pending - 1, consumer := Emitting(Some(s.consumer.group)))
    case ReadDeferred =>
      if s.deferred > 0 then s.(consumer := Flagging(s.consumer.source))
      else s.(consumer := Idle, log := s.log + [Response(PayloadOf(plan, s.consumer.source), None)])
    case ReadPending =>
      s.(consumer := Idle, log := s.log + [Response(PayloadOf(plan, s.consumer.source), Some(s.pending > 0))])
  }

  predicate Legal(plan: Plan, s: State, acts: seq<Action>)
    requires Shaped(plan, s)
    decreases |acts|
  {
    |acts| > 0 ==> Enabled(plan, s, acts[0]) && Legal(plan, Apply(plan, s, acts[0]), acts[1..])
  }

  /** The state that a run ends in. */
  function Execute(plan: Plan, s: State, acts: seq<Action>): (t: State)
    requires Shaped(plan, s) && Legal(plan, s, acts)
    ensures Shaped(plan, t)
    decreases |acts|
  {
    if |acts| == 0 then s else Execute(plan, Apply(plan, s, acts[0]), acts[1..])
  }

  lemma {:induction false} LegalSnoc(plan: Plan, s: State, acts: seq<Action>, a: Action)
    requires Shaped(plan, s) && Legal(plan, s, acts) && Enabled(plan, Execute(plan, s, acts), a)
    ensures Legal(plan, s, acts + [a])
    ensures Execute(plan, s, acts + [a]) == Apply(plan, Execute(plan, s, acts), a)
    decreases |acts|
  {
    var all := acts + [a];
    if |acts| == 0 {
      assert all[1..] == [];
    } else {
      assert all[0] == acts[0] && all[1..] == acts[1..] + [a];
      LegalSnoc(plan, Apply(plan, s, acts[0]), acts[1..], a);
    }
  }
}
