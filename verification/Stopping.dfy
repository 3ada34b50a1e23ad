/** Shutdown: what the signal stops, what it lets through, and what a cancelled receive can lose. */
module Stopping {
  import opened Core
  import B = Broker
  import opened Machine
  import opened Refinement
  import opened Safety
  import opened Progress

  lemma {:induction false} ShutdownIsFinal(s: State, steps: seq<Step>)
    requires s.shutdown && CanRun(s, steps)
    ensures Run(s, steps).shutdown
    decreases |steps|
  {
    if steps != [] {
      StaysShut(s, steps[0]);
      ShutdownIsFinal(Do(s, steps[0]), steps[1..]);
    }
  }

  lemma StaysShut(s: State, st: Step)
    requires s.shutdown && Can(s, st)
    ensures Do(s, st).shutdown
  {
    match st
    case Producer(p) =>
    case Call(c) => CallFrame(s, c);
    case Flush(f) => FlushFrame(s, f);
    case Await(a) => AwaitFrame(s, a);
    case Handle(i, h) => HandleFrame(s, i, h);
    case Nack(i, n) => NackFrame(s, i, n);
    case _ =>
  }

  /** Some call was refused. */
  ghost predicate RefusedOne(calls: seq<Ended>) {
    exists k :: 0 <= k < |calls| && calls[k].outcome in {ConsumerShutdown, Stopped}
  }

  lemma RefusalStep(s: State, st: Step)
    requires Can(s, st) && (RefusedOne(s.calls) ==> s.shutdown)
    ensures RefusedOne(Do(s, st).calls) ==> Do(s, st).shutdown
  {
    if s.shutdown {
      StaysShut(s, st);
    }
    match st
    case Call(c) => CallFrame(s, c);
    case Flush(f) => FlushFrame(s, f);
    case Await(a) => AwaitFrame(s, a);
    case _ => OthersKeepConsumer(s, st);
  }

  lemma {:induction false} RefusalRun(s: State, steps: seq<Step>)
    requires CanRun(s, steps) && (RefusedOne(s.calls) ==> s.shutdown)
    ensures RefusedOne(Run(s, steps).calls) ==> Run(s, steps).shutdown
    decreases |steps|
  {
    if steps != [] {
      RefusalStep(s, steps[0]);
      RefusalRun(Do(s, steps[0]), steps[1..]);
    }
  }

  /** No call is ever refused without a shutdown. */
  lemma RefusedOnlyAfter(s: State)
    requires Reachable(s) && !s.shutdown
    ensures !RefusedOne(s.calls)
  {
    var capacity: nat, dlq: Option<U32>, clock: Time, steps: seq<Step> :| Reaches(capacity, dlq, clock, steps, s);
    RefusalRun(Init(capacity, dlq, clock), steps);
  }

  /** A `receive` or `receive_graceful` that has looked at the flag for the last time before it may deliver. */
  predicate PastCheck(c: Consumer) {
    c.mode != Polling && c.pc !in {Idle, GracefulCheck, ShutdownCheck}
  }

  function Late(calls: seq<Ended>): nat {
    if calls == [] then 0
    else Late(calls[..|calls| - 1])
         + var last := calls[|calls| - 1]; if last.mode != Polling && last.outcome.Delivered? then 1 else 0
  }

  function Allowance(s: State): nat {
    if PastCheck(s.consumer) then 1 else 0
  }

  lemma LateAppend(calls: seq<Ended>, c: Ended)
    ensures Late(calls + [c]) == Late(calls) + if c.mode != Polling && c.outcome.Delivered? then 1 else 0
  {
    assert (calls + [c])[..|calls|] == calls;
  }

  lemma LateCall(s: State, st: CallStep)
    requires s.shutdown && CanCall(s, st)
    ensures Late(CallDo(s, st).calls) + Allowance(CallDo(s, st)) <= Late(s.calls) + Allowance(s)
  {
    CallFrame(s, st);
    if CallDo(s, st).calls != s.calls {
      LateAppend(s.calls, CallDo(s, st).calls[|s.calls|]);
    }
  }

  lemma LateDelivery(s: State)
    requires s.channel != [] && s.consumer.pc !in {Idle, GracefulCheck, ShutdownCheck}
    ensures Late(Deliver(s).calls) + Allowance(Deliver(s)) == Late(s.calls) + Allowance(s)
  {
    LateAppend(s.calls, Ended(s.consumer.mode, Delivered(|s.receipts|)));
  }

  lemma LateAwait(s: State, st: AwaitStep)
    requires CanAwait(s, st)
    ensures Late(AwaitDo(s, st).calls) + Allowance(AwaitDo(s, st)) <= Late(s.calls) + Allowance(s)
  {
    if Delivers(s, st) {
      LateDelivery(s);
    } else if AwaitDo(s, st).calls != s.calls {
      LateAppend(s.calls, Ended(s.consumer.mode, if st == Pop && s.senders != 0 then NoMessage else ConnectionLost));
    }
  }

  lemma LateStep(s: State, st: Step)
    requires s.shutdown && Can(s, st)
    ensures Late(Do(s, st).calls) + Allowance(Do(s, st)) <= Late(s.calls) + Allowance(s)
  {
    match st
    case Producer(p) =>
    case Call(c) => LateCall(s, c);
    case Flush(f) => FlushFrame(s, f);
    case Await(a) => LateAwait(s, a);
    case Handle(i, h) => HandleFrame(s, i, h);
    case Nack(i, n) => NackFrame(s, i, n);
    case _ =>
  }

  /** After the signal at most one more delivery leaves through `receive` or `receive_graceful`, namely that
      of a call already past its check; none if there is no such call. */
  lemma {:induction false} OneLateDelivery(s: State, steps: seq<Step>)
    requires s.shutdown && CanRun(s, steps)
    ensures Late(Run(s, steps).calls) + Allowance(Run(s, steps)) <= Late(s.calls) + Allowance(s)
    decreases |steps|
  {
    if steps != [] {
      LateStep(s, steps[0]);
      StaysShut(s, steps[0]);
      OneLateDelivery(Do(s, steps[0]), steps[1..]);
    }
  }

  // ---------- After the last delivery ----------

  /** The consumer is not in a call, or in one that has yet to look at the flag, or in one that never does. */
  predicate AtRest(c: Consumer) {
    || c.pc == Idle || c.mode == Polling
    || (c.mode == Graceful && c.pc == GracefulCheck) || c.pc == ShutdownCheck
  }

  predicate Refusal(e: Ended) {
    match e.mode
    case Plain => e.outcome == ConsumerShutdown
    case Graceful => e.outcome in {Stopped, ConsumerShutdown}
    case Polling => false
  }

  /** Deliveries handed out by `try_receive`. */
  function Polled(calls: seq<Ended>): nat {
    if calls == [] then 0
    else Polled(calls[..|calls| - 1])
         + var last := calls[|calls| - 1]; if last.mode == Polling && last.outcome.Delivered? then 1 else 0
  }

  lemma PolledAppend(calls: seq<Ended>, c: Ended)
    ensures Polled(calls + [c]) == Polled(calls) + if c.mode == Polling && c.outcome.Delivered? then 1 else 0
  {
    assert (calls + [c])[..|calls|] == calls;
  }

  /** Every call that looks at the flag is refused, nothing is lost, and what leaves the channel leaves it
      through `try_receive`. */
  ghost predicate OnlyPolled(s: State, s': State) {
    && s.calls <= s'.calls
    && (forall k :: |s.calls| <= k < |s'.calls| ==> s'.calls[k].mode == Polling || Refusal(s'.calls[k]))
    && s'.lost == s.lost
    && |s'.receipts| == |s.receipts| + Polled(s'.calls) - Polled(s.calls)
  }

  /** Queue and schedule only gain messages. */
  ghost predicate OnlyGains(s: State, s': State) {
    && s.channel <= s'.channel
    && forall t :: t in s.scheduled ==> t in s'.scheduled && s.scheduled[t] <= s'.scheduled[t]
  }

  predicate Polls(st: Step) {
    st == Call(Begin(Polling))
  }

  predicate NotPolling(c: Consumer) {
    c.mode == Polling ==> c.pc == Idle
  }

  lemma RestCall(s: State, st: CallStep)
    requires s.shutdown && AtRest(s.consumer) && CanCall(s, st)
    ensures var s' := CallDo(s, st);
            && AtRest(s'.consumer) && OnlyPolled(s, s')
            && (NotPolling(s.consumer) && st != Begin(Polling) ==> NotPolling(s'.consumer))
            && (st != DropConsumer ==> OnlyGains(s, s'))
  {
    CallFrame(s, st);
    if CallDo(s, st).calls != s.calls {
      PolledAppend(s.calls, CallDo(s, st).calls[|s.calls|]);
    }
  }

  lemma RestFlush(s: State, st: FlushStep)
    requires AtRest(s.consumer) && CanFlush(s, st)
    ensures var s' := FlushDo(s, st); AtRest(s'.consumer) && OnlyPolled(s, s')
  {
    FlushFrame(s, st);
  }

  lemma RestDeliver(s: State)
    requires s.channel != [] && s.consumer.mode == Polling
    ensures OnlyPolled(s, Deliver(s))
  {
    PolledAppend(s.calls, Ended(Polling, Delivered(|s.receipts|)));
  }

  lemma RestReturn(s: State, o: Outcome)
    requires s.consumer.mode == Polling && !o.Delivered?
    ensures OnlyPolled(s, Return(s, o))
  {
    PolledAppend(s.calls, Ended(Polling, o));
  }

  lemma RestAwait(s: State, st: AwaitStep)
    requires AtRest(s.consumer) && Looping(s) && CanAwait(s, st)
    ensures var s' := AwaitDo(s, st); AtRest(s'.consumer) && OnlyPolled(s, s')
  {
    assert s.consumer.mode == Polling && st == Pop;
    if s.channel != [] {
      RestDeliver(s);
    } else {
      RestReturn(s, if s.senders == 0 then ConnectionLost else NoMessage);
    }
  }

  lemma RestProduce(s: State, st: ProducerStep)
    requires CanProduce(s, st)
    ensures var s' := Produce(s, st);
            s'.lost == s.lost && s'.receipts == s.receipts && s'.calls == s.calls && OnlyGains(s, s')
  {
  }

  /** What a step of anybody else leaves alone. */
  lemma OthersTakeNothing(s: State, st: Step)
    requires Can(s, st) && !ConsumerStep(st)
    ensures Do(s, st).lost == s.lost && |Do(s, st).receipts| == |s.receipts| && OnlyGains(s, Do(s, st))
  {
    match st
    case Producer(p) => RestProduce(s, p);
    case Handle(i, h) => HandleFrame(s, i, h);
    case Nack(i, n) => NackFrame(s, i, n);
    case _ =>
  }

  lemma RestOther(s: State, st: Step)
    requires Can(s, st) && !ConsumerStep(st)
    ensures var s' := Do(s, st); s'.consumer == s.consumer && OnlyPolled(s, s')
  {
    OthersKeepConsumer(s, st);
    OthersTakeNothing(s, st);
  }

  lemma OnlyPolledTwice(s: State, s': State, s'': State)
    requires OnlyPolled(s, s') && OnlyPolled(s', s'')
    ensures OnlyPolled(s, s'')
  {
  }

  lemma RestStep(s: State, st: Step)
    requires s.shutdown && AtRest(s.consumer) && Looping(s) && Can(s, st)
    ensures var s' := Do(s, st); AtRest(s'.consumer) && OnlyPolled(s, s')
  {
    match st
    case Call(c) => RestCall(s, c);
    case Flush(f) => RestFlush(s, f);
    case Await(a) => RestAwait(s, a);
    case _ => RestOther(s, st);
  }

  lemma {:induction false} RefusedFrom(s: State, steps: seq<Step>)
    requires s.shutdown && AtRest(s.consumer) && Progressing(s) && CanRun(s, steps)
    ensures OnlyPolled(s, Run(s, steps))
    decreases |steps|
  {
    if steps != [] {
      var s1 := Do(s, steps[0]);
      RestStep(s, steps[0]);
      StaysShut(s, steps[0]);
      ProgressStep(s, steps[0]);
      RefusedFrom(s1, steps[1..]);
      OnlyPolledTwice(s, s1, Run(s, steps));
    }
  }

  /** From then on every call of `receive` and `receive_graceful` is refused, for any run; `try_receive` goes on
      as before, and is the only way out of the channel. */
  lemma RefusedAfterwards(s: State, steps: seq<Step>)
    requires Reachable(s) && s.shutdown && AtRest(s.consumer) && CanRun(s, steps)
    ensures OnlyPolled(s, Run(s, steps))
  {
    ReachableProgress(s);
    RefusedFrom(s, steps);
  }

  /** Unless it is polled or the consumer is dropped, what is queued or scheduled stays where it is. */
  lemma {:induction false} QueueStays(s: State, steps: seq<Step>)
    requires s.shutdown && AtRest(s.consumer) && NotPolling(s.consumer) && CanRun(s, steps)
    requires forall k :: 0 <= k < |steps| ==> !Polls(steps[k]) && steps[k] != Call(DropConsumer)
    ensures OnlyGains(s, Run(s, steps)) && |Run(s, steps).receipts| == |s.receipts|
    decreases |steps|
  {
    if steps != [] {
      if steps[0].Call? {
        RestCall(s, steps[0].c);
        CallFrame(s, steps[0].c);
      } else {
        RestOther(s, steps[0]);
        OthersTakeNothing(s, steps[0]);
      }
      StaysShut(s, steps[0]);
      QueueStays(Do(s, steps[0]), steps[1..]);
    }
  }

  // ---------- What a cancelled receive loses ----------

  /** `receive_graceful` drops a `receive` that is suspended inside its flush with `id` still to push. */
  predicate Drops(s: State, st: Step, id: Id) {
    st == Call(CancelReceive) && B.EntriesOf(FlushBuffer(s), id) > 0
  }

  lemma LostStep(s: State, st: Step, id: Id)
    requires Can(s, st)
    ensures B.EntriesOf(s.lost, id) <= B.EntriesOf(Do(s, st).lost, id)
    ensures B.EntriesOf(s.lost, id) < B.EntriesOf(Do(s, st).lost, id) <==> Drops(s, st, id)
  {
    match st
    case Producer(p) =>
    case Call(c) => B.EntriesOfConcat(s.lost, FlushBuffer(s), id); CallLoses(s, c);
    case Flush(f) => FlushFrame(s, f);
    case Await(a) => AwaitFrame(s, a);
    case Handle(i, h) => HandleFrame(s, i, h);
    case Nack(i, n) => NackFrame(s, i, n);
    case _ =>
  }

  lemma CallLoses(s: State, st: CallStep)
    requires CanCall(s, st)
    ensures CallDo(s, st).lost == if st == CancelReceive then s.lost + FlushBuffer(s) else s.lost
  {
  }

  /** Some step of the run drops `id`. */
  ghost predicate DroppedOnTheWay(s: State, steps: seq<Step>, id: Id)
    requires CanRun(s, steps)
    decreases |steps|
  {
    steps != [] && (Drops(s, steps[0], id) || DroppedOnTheWay(Do(s, steps[0]), steps[1..], id))
  }

  /** A run loses a message if and only if some shutdown in it cancels a `receive_graceful` whose flush has
      that message still to push. */
  lemma {:induction false} LostExactlyByCancel(s: State, steps: seq<Step>, id: Id)
    requires CanRun(s, steps)
    ensures B.EntriesOf(s.lost, id) <= B.EntriesOf(Run(s, steps).lost, id)
    ensures B.EntriesOf(s.lost, id) < B.EntriesOf(Run(s, steps).lost, id) <==> DroppedOnTheWay(s, steps, id)
    decreases |steps|
  {
    if steps != [] {
      LostStep(s, steps[0], id);
      LostExactlyByCancel(Do(s, steps[0]), steps[1..], id);
    }
  }

  /** The message is neither queued or to be queued, nor with a consumer, nor has it met any end of its own. */
  ghost predicate Vanished(s: State, id: Id) {
    forall p: Place :: p != LostInFlush ==> Copies(s, id, p) == 0
  }

  /** So that is exactly how an accepted message can vanish from the backend. */
  lemma VanishedExactlyByCancel(capacity: nat, dlq: Option<U32>, clock: Time, steps: seq<Step>, id: Id)
    requires capacity >= 1 && CanRun(Init(capacity, dlq, clock), steps)
    requires id in Run(Init(capacity, dlq, clock), steps).accepted
    ensures var s0 := Init(capacity, dlq, clock);
            Vanished(Run(s0, steps), id) <==> DroppedOnTheWay(s0, steps, id)
  {
    var s0 := Init(capacity, dlq, clock);
    var s := Run(s0, steps);
    assert Reaches(capacity, dlq, clock, steps, s);
    LostExactlyByCancel(s0, steps, id);
    OnePlace(s, id);
    var p: Place :| Copies(s, id, p) == 1 && forall q: Place :: q != p ==> Copies(s, id, q) == 0;
    assert Copies(s, id, LostInFlush) == B.EntriesOf(s.lost, id);
  }
}
