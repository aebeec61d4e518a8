/** `Exec`'s response handler in the form of the source: the fields of the execution context, the
    handler's statements, and the goroutines' steps, which may come between any two of them. */
module ExecHandler {
  import opened Options
  import opened DeferredProtocol
  import opened DeferredInvariant
  import opened DeferredTheorems

  class ExecutionContext {
    const plan: Plan
    var first: bool
    var pendingDeferred: int
    var deferred: int
    var counted: seq<bool>
    var phase: seq<Phase>
    var consumer: Consumer
    var log: seq<Answer>
    ghost var trace: seq<Action>

    function Snapshot(): State
      reads this
    {
      State(first, pendingDeferred, deferred, counted, phase, consumer, log)
    }

    /** The fields are the state that the recorded run ends in. */
    ghost predicate Valid()
      reads this
    {
      Run(plan, trace) && Execute(plan, Init(plan), trace) == Snapshot()
    }

    constructor (plan: Plan)
      requires plan.Valid()
      ensures Valid() && this.plan == plan && trace == [] && log == [] && first && consumer.Idle?
    {
      this.plan := plan;
      first, pendingDeferred, deferred := true, 0, 0;
      counted := seq(|plan.batches|, _ => false);
      phase := seq(|plan.groups|, _ => Unregistered);
      consumer, log, trace := Idle, [], [];
    }

    lemma Invariant()
      requires Valid()
      ensures Inv(plan, Snapshot())
    {
      assert Inv(plan, End(plan, trace));
    }

    /** Adds to the run the step that the fields have just taken from state `s`. */
    ghost method Record(s: State, a: Action)
      requires Run(plan, trace) && Execute(plan, Init(plan), trace) == s
      requires Enabled(plan, s, a) && Snapshot() == Apply(plan, s, a)
      modifies `trace
      ensures Valid() && trace == old(trace) + [a]
    {
      LegalSnoc(plan, Init(plan), trace, a);
      trace := trace + [a];
    }

    /** The steps that registering code and goroutines can take now. */
    function Moves(): (moves: set<Action>)
      requires Shaped(plan, Snapshot())
      reads this
    {
      (set b: nat | b < |plan.batches| && Enabled(plan, Snapshot(), CountBatch(b)) :: CountBatch(b))
      + (set g: nat | g < |plan.groups| && Enabled(plan, Snapshot(), CountGroup(g)) :: CountGroup(g))
      + (set g: nat | g < |plan.groups| && Enabled(plan, Snapshot(), Spawn(g)) :: Spawn(g))
      + (set g: nat | g < |plan.groups| && Enabled(plan, Snapshot(), FinishDispatch(g)) :: FinishDispatch(g))
    }

    /** The tail of an object marshaller: its groups are added to `deferred`. */
    method CountObject(b: nat)
      requires Valid() && Shaped(plan, Snapshot()) && Enabled(plan, Snapshot(), CountBatch(b))
      modifies this
      ensures Valid() && trace == old(trace) + [CountBatch(b)]
      ensures Snapshot() == Apply(plan, old(Snapshot()), CountBatch(b))
    {
      ghost var s := Snapshot();
      counted := counted[b := true];
      deferred := deferred + |GroupsIn(plan, b)|;
      Record(s, CountBatch(b));
    }

    /** `processDeferredGroup` counts the group, */
    method CountOne(g: nat)
      requires Valid() && Shaped(plan, Snapshot()) && Enabled(plan, Snapshot(), CountGroup(g))
      modifies this
      ensures Valid() && trace == old(trace) + [CountGroup(g)]
      ensures Snapshot() == Apply(plan, old(Snapshot()), CountGroup(g))
    {
      ghost var s := Snapshot();
      phase := phase[g := Counted];
      pendingDeferred := pendingDeferred + 1;
      Record(s, CountGroup(g));
    }

    /** starts its goroutine, */
    method Go(g: nat)
      requires Valid() && Shaped(plan, Snapshot()) && Enabled(plan, Snapshot(), Spawn(g))
      modifies this
      ensures Valid() && trace == old(trace) + [Spawn(g)]
      ensures Snapshot() == Apply(plan, old(Snapshot()), Spawn(g))
    {
      ghost var s := Snapshot();
      phase := phase[g := Running];
      Record(s, Spawn(g));
    }

    /** which dispatches the group and then offers the result on the channel. */
    method Offer(g: nat)
      requires Valid() && Shaped(plan, Snapshot()) && Enabled(plan, Snapshot(), FinishDispatch(g))
      modifies this
      ensures Valid() && trace == old(trace) + [FinishDispatch(g)]
      ensures Snapshot() == Apply(plan, old(Snapshot()), FinishDispatch(g))
    {
      ghost var s := Snapshot();
      phase := phase[g := Sending];
      Record(s, FinishDispatch(g));
    }

    /** One step of registering code or of a goroutine. */
    method Advance(a: Action)
      requires Valid() && Shaped(plan, Snapshot()) && a in Moves()
      modifies this
      ensures Valid() && trace == old(trace) + [a]
      ensures first == old(first) && consumer == old(consumer) && log == old(log)
      ensures Work(Snapshot()) < old(Work(Snapshot()))
    {
      MoveShrinks(a);
      match a {
        case CountBatch(b) => CountObject(b);
        case CountGroup(g) => CountOne(g);
        case Spawn(g) => Go(g);
        case FinishDispatch(g) => Offer(g);
      }
    }

    lemma MoveShrinks(a: Action)
      requires Valid() && Shaped(plan, Snapshot()) && a in Moves()
      ensures Enabled(plan, Snapshot(), a) && Work(Apply(plan, Snapshot(), a)) < Work(Snapshot())
    {
      Invariant();
      WorkDecreases(plan, Snapshot(), a);
    }

    lemma StaysShaped()
      requires Valid()
      ensures Shaped(plan, Snapshot())
    {
      Invariant();
    }

    lemma PendingIsPromised()
      requires Valid() && consumer.Idle? && !first
      ensures pendingDeferred > 0 <==> LastPromises(log)
    {
      Invariant();
    }

    /** Any number of steps of other goroutines, chosen by the scheduler. Between two calls of the
        handler they do not change whether something is pending. */
    method Interfere()
      requires Valid()
      modifies this
      ensures Valid() && old(trace) <= trace
      ensures first == old(first) && consumer == old(consumer) && log == old(log)
      ensures consumer.Idle? && !first ==> (pendingDeferred > 0 <==> old(pendingDeferred) > 0)
      ensures Work(Snapshot()) <= old(Work(Snapshot()))
    {
      if consumer.Idle? && !first { PendingIsPromised(); }
      while *
        invariant Valid() && old(trace) <= trace
        invariant first == old(first) && consumer == old(consumer) && log == old(log)
        invariant Work(Snapshot()) <= old(Work(Snapshot()))
        decreases Work(Snapshot())
      {
        StaysShaped();
        var moves := Moves();
        if moves == {} { break; }
        var a :| a in moves;
        Advance(a);
      }
      if consumer.Idle? && !first { PendingIsPromised(); }
    }

    lemma QueryCanMove()
      requires Valid() && Shaped(plan, Snapshot()) && consumer.Querying?
      ensures TaskDone(plan, Snapshot(), Request) || Moves() != {}
    {
      if !TaskDone(plan, Snapshot(), Request) {
        var a := TaskProgress(plan, Snapshot(), Request);
        assert a in Moves();
      }
    }

    /** Marshalling the root: its objects register their groups while started groups run; these may
        go on before the caller notices that the root is done. */
    method Query()
      requires Valid() && consumer.Querying?
      modifies this
      ensures Valid() && old(trace) <= trace
      ensures first == old(first) && consumer == Emitting(None) && log == old(log)
      ensures Work(Snapshot()) < old(Work(Snapshot()))
    {
      StaysShaped();
      var returned := false;
      while !returned
        invariant Valid() && Shaped(plan, Snapshot()) && old(trace) <= trace
        invariant first == old(first) && consumer.Querying? && log == old(log)
        invariant Work(Snapshot()) <= old(Work(Snapshot()))
        invariant returned ==> TaskDone(plan, Snapshot(), Request)
        decreases Work(Snapshot()), if returned then 0 else 1
      {
        var scheduled: bool := *;
        if TaskDone(plan, Snapshot(), Request) && (scheduled || Moves() == {}) {
          returned := true;
        } else {
          QueryCanMove();
          var a :| a in Moves();
          Advance(a);
          StaysShaped();
        }
      }
      ghost var s := Snapshot();
      consumer := Emitting(None);
      Record(s, FinishQuery);
    }

    lemma GoroutineCanMove()
      requires Valid() && Shaped(plan, Snapshot()) && consumer.Receiving?
      ensures SomeSender() || Moves() != {}
    {
      Invariant();
      var a := Progress(plan, Snapshot());
      assert SomeSender() || a in Moves();
    }

    predicate SomeSender()
      reads this
    {
      exists h :: 0 <= h < |phase| && phase[h].Sending?
    }

    /** The receive from the channel: goroutines run until one of them sends, and maybe longer, so
        that several may be ready when the runtime picks one. */
    method ReceiveResult() returns (g: nat)
      requires Valid() && consumer.Receiving?
      modifies this
      ensures Valid() && old(trace) <= trace
      ensures first == old(first) && consumer == Decrementing(g) && log == old(log)
      ensures Work(Snapshot()) < old(Work(Snapshot()))
    {
      StaysShaped();
      var matched := false;
      while !matched
        invariant Valid() && Shaped(plan, Snapshot()) && old(trace) <= trace
        invariant first == old(first) && consumer.Receiving? && log == old(log)
        invariant Work(Snapshot()) <= old(Work(Snapshot()))
        invariant matched ==> SomeSender()
        decreases Work(Snapshot()), if matched then 0 else 1
      {
        var scheduled: bool := *;
        if SomeSender() && (scheduled || Moves() == {}) {
          matched := true;
        } else {
          GoroutineCanMove();
          var a :| a in Moves();
          Advance(a);
          StaysShaped();
        }
      }
      g :| 0 <= g < |phase| && phase[g].Sending?;
      ghost var s := Snapshot();
      PhaseWorkUpdate(phase, g, Delivered);
      phase := phase[g := Delivered];
      consumer := Decrementing(g);
      Record(s, Receive(g));
    }

    /** One call of the response handler. Whatever the goroutines do meanwhile, it returns, and
        what it returns was settled before it began: nil exactly when nothing was pending. */
    method Handle() returns (r: Answer)
      requires Valid() && consumer.Idle?
      modifies this
      ensures Valid() && consumer.Idle? && !first && old(trace) <= trace
      ensures log == old(log) + [r]
      ensures r.Nil? <==> !old(first) && old(pendingDeferred) <= 0
      ensures r.Response? ==> (r.payload.Initial? <==> old(first))
      ensures r.Response? && !old(first) ==> Carries(plan, r.payload)
      ensures r.Response? ==> (r.hasNext == Some(true) <==> pendingDeferred > 0)
      ensures r.Response? ==> (r.hasNext.Some? <==> plan.HasRootGroup())
      ensures r.Nil? ==> Snapshot() == old(Snapshot()).(log := log)
      ensures r.Response? ==> Work(Snapshot()) < old(Work(Snapshot()))
    {
      StaysShaped();
      ghost var s := Snapshot();
      if first {
        first := false;
        consumer := Querying;
        Record(s, Call);
        Query();
        r := Respond(None);
      } else if pendingDeferred > 0 {
        consumer := Receiving;
        Record(s, Call);
        var g := ReceiveResult();
        Interfere();
        Settle(g);
        r := Respond(Some(g));
      } else {
        r := Nil;
        log := log + [r];
        Record(s, Call);
      }
    }

    /** The received group leaves the counter. */
    method Settle(g: nat)
      requires Valid() && consumer == Decrementing(g)
      modifies this
      ensures Valid() && old(trace) <= trace
      ensures first == old(first) && consumer == Emitting(Some(g)) && log == old(log)
      ensures Work(Snapshot()) < old(Work(Snapshot()))
    {
      StaysShaped();
      ghost var s := Snapshot();
      pendingDeferred := pendingDeferred - 1;
      consumer := Emitting(Some(g));
      Record(s, Decrement);
    }

    /** The tail of the handler: the response and its flag, read from the two counters. */
    method Respond(source: Option<nat>) returns (r: Answer)
      requires Valid() && consumer == Emitting(source) && !first
      modifies this
      ensures Valid() && consumer.Idle? && !first && old(trace) <= trace
      ensures log == old(log) + [r] && r.Response?
      ensures source.Some? ==> Carries(plan, r.payload) && r.payload.group == source.value
      ensures r.payload.Initial? <==> source.None?
      ensures r.hasNext == Some(true) <==> pendingDeferred > 0
      ensures r.hasNext.Some? <==> plan.HasRootGroup()
      ensures Work(Snapshot()) < old(Work(Snapshot()))
    {
      Interfere();
      StaysShaped();
      SourceIsGroup(source);
      ghost var s := Snapshot();
      if deferred > 0 {
        consumer := Flagging(source);
        Record(s, ReadDeferred);
        r := RespondFlagged(source);
      } else {
        r := Response(PayloadOf(plan, source), None);
        consumer := Idle;
        log := log + [r];
        Record(s, ReadDeferred);
        LastAnswer(r);
      }
    }

    method RespondFlagged(source: Option<nat>) returns (r: Answer)
      requires Valid() && consumer == Flagging(source) && !first
      modifies this
      ensures Valid() && consumer.Idle? && !first && old(trace) <= trace
      ensures log == old(log) + [r] && r.Response?
      ensures source.Some? ==> Carries(plan, r.payload) && r.payload.group == source.value
      ensures r.payload.Initial? <==> source.None?
      ensures r.hasNext == Some(true) <==> pendingDeferred > 0
      ensures r.hasNext.Some? <==> plan.HasRootGroup()
      ensures Work(Snapshot()) < old(Work(Snapshot()))
    {
      Interfere();
      StaysShaped();
      SourceIsGroup(source);
      ghost var s := Snapshot();
      var hasNext := pendingDeferred > 0;
      r := Response(PayloadOf(plan, source), Some(hasNext));
      consumer := Idle;
      log := log + [r];
      Record(s, ReadPending);
      LastAnswer(r);
    }

    lemma SourceIsGroup(source: Option<nat>)
      requires Valid() && (consumer == Emitting(source) || consumer == Flagging(source))
      ensures PayloadOf(plan, source).Initial? <==> source.None?
      ensures source.Some? ==> Carries(plan, PayloadOf(plan, source)) && PayloadOf(plan, source).group == source.value
    {
      Invariant();
      HeldIsGroup(plan, Snapshot());
      PayloadIsOwn(plan, source);
    }

    lemma LastAnswer(r: Answer)
      requires Valid() && consumer.Idle? && !first && |log| > 0 && log[|log| - 1] == r && r.Response?
      ensures r.hasNext == Some(true) <==> pendingDeferred > 0
      ensures r.hasNext.Some? <==> plan.HasRootGroup()
    {
      Invariant();
    }

    /** Calls the handler until it returns nil, as a transport does: it ends under every
        scheduling, and the responses have carried every live group exactly once. */
    method Drain()
      requires Valid() && consumer.Idle? && log == []
      modifies this
      ensures Valid() && Nil in log && NoDuplicates(Sources(log))
      ensures forall g :: g in Sources(log) <==> 0 <= g < |plan.groups| && plan.Live(g)
      ensures forall g :: 0 <= g < |phase| ==> phase[g].Delivered? || phase[g].Unregistered?
    {
      var r := Handle();
      while r.Response?
        invariant Valid() && consumer.Idle? && |log| > 0 && log[|log| - 1] == r
        decreases Work(Snapshot()), if r.Response? then 1 else 0
      {
        Interfere();
        r := Handle();
      }
      assert r == Nil && r in log;
      Invariant();
      ExactlyOnce(plan, trace);
      EndedIsQuiet(plan, Snapshot());
    }
  }
}
