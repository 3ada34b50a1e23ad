/** Every interleaving of the machine is a run of the atomic broker with the same enqueue log and the same
    received sequence. A message counts as enqueued when it is pushed into the channel. */
module Refinement {
  import opened Core
  import opened Schedule
  import B = Broker
  import L = Ledger
  import opened Machine

  // ---------- What the machine looks like from outside ----------

  function FateOf(phase: Phase): B.Fate {
    if phase.Settled? then phase.fate else B.Unresolved
  }

  function Fates(rs: seq<Receipt>): seq<B.Fate> {
    seq(|rs|, i requires 0 <= i < |rs| => FateOf(rs[i].phase))
  }

  function FlushBuffer(s: State): seq<Entry> {
    if s.consumer.pc.Flushing? then s.consumer.pc.due else []
  }

  /** Takes back one count. */
  function Uncounted(counts: map<Id, U32>, id: Id): map<Id, U32>
    requires id in counts && counts[id] >= 1
  {
    if counts[id] == 1 then counts - {id} else counts[id := counts[id] - 1]
  }

  /** Receipt `i` has counted its nack but not pushed the message back yet. */
  predicate MidNack(s: State, i: nat) {
    i < |s.receipts| && s.receipts[i].phase.Requeueing?
  }

  /** The nack counts without the nack in progress, which takes effect when its message is pushed. */
  function VisibleNacks(s: State): map<Id, U32> {
    match s.lock
    case ByNack(i) =>
      if MidNack(s, i) && Tally(s.nackCounts, s.receipts[i].env.id) >= 1
      then Uncounted(s.nackCounts, s.receipts[i].env.id) else s.nackCounts
    case _ => s.nackCounts
  }

  function Abs(s: State): B.State {
    B.State(s.dlq, s.accepted, FlushBuffer(s) + Flatten(s.scheduled), s.log, Fates(s.receipts),
            VisibleNacks(s), s.lost, s.deadLetters, s.closed)
  }

  /** The atomic event a step amounts to. */
  function EventOf(s: State, st: Step): B.Event
    requires Can(s, st)
  {
    match st
    case Producer(PushSend(t)) => B.Send(s.tasks[t].batch[s.tasks[t].sent], t)
    case Producer(SendAt(_, e, at)) => B.SendAt(e, at)
    case Call(CancelReceive) => B.Lose(|FlushBuffer(s)|)
    case Call(DropConsumer) => B.Close
    case Flush(PushDue) => B.Release(s.consumer.pc.now)
    case Await(a) => if Delivers(s, a) then B.Receive else B.Nothing
    case Handle(i, Ack) => B.Ack(i)
    case Handle(i, Abandon) => B.Abandon(i)
    case Nack(i, NackCount) => if NackVerdict(s, i).Requeue? then B.Nothing else B.Nack(i)
    case Nack(i, NackPush) => B.Nack(i)
    case _ => B.Nothing
  }

  function Events(s: State, steps: seq<Step>): seq<B.Event>
    requires CanRun(s, steps)
    decreases |steps|
  {
    if steps == [] then [] else [EventOf(s, steps[0])] + Events(Do(s, steps[0]), steps[1..])
  }

  // ---------- What keeps the picture coherent ----------

  /** The FIFO law: the log is the received sequence followed by the channel; what is behind them was
      discarded with the consumer. */
  ghost predicate Fifo(s: State) {
    && 1 <= s.capacity && |s.channel| <= s.capacity
    && |s.receipts| + |s.channel| <= |s.log|
    && (if s.closed then s.channel == [] else |s.receipts| + |s.channel| == |s.log|)
    && (forall i :: 0 <= i < |s.receipts| ==> s.receipts[i].env == s.log[i].env)
    && (forall k :: 0 <= k < |s.channel| ==> s.channel[k] == s.log[|s.receipts| + k].env)
  }

  ghost predicate Locking(s: State) {
    && (s.lock == ByConsumer <==> s.consumer.pc == FlushLocked || s.consumer.pc.Flushing?)
    && (s.closed ==> s.consumer.pc == Idle)
    && (s.lock.ByNack? ==> s.lock.receipt < |s.receipts|)
    && (forall i :: 0 <= i < |s.receipts| && (s.receipts[i].phase.Counting? || s.receipts[i].phase.Requeueing?)
          ==> s.lock == ByNack(i))
  }

  /** A nack that is about to push has counted itself, stayed below the limit and prepared the redelivery. */
  ghost predicate Requeues(s: State) {
    forall i: nat :: MidNack(s, i) ==>
      && s.receipts[i].phase.requeued == Redelivery(s.receipts[i].env)
      && 1 <= Tally(s.nackCounts, s.receipts[i].env.id) < Limit(s.dlq)
  }

  ghost predicate Draining(s: State) {
    s.consumer.pc.Flushing? ==>
      forall k :: 0 <= k < |s.consumer.pc.due| ==> s.consumer.pc.due[k].time <= s.consumer.pc.now
  }

  /** Message `k` of task `t` has an id but is not in the channel yet. */
  predicate Waiting(s: State, t: nat, k: nat) {
    t < |s.tasks| && s.tasks[t].sent <= k < |s.tasks[t].batch|
  }

  ghost predicate Fresh(s: State) {
    && s.accepted.Keys <= s.issued
    && (forall t: nat, k: nat :: Waiting(s, t, k) ==>
          && s.tasks[t].batch[k].count == 1
          && s.tasks[t].batch[k].id in s.issued
          && s.tasks[t].batch[k].id !in s.accepted)
    && (forall t: nat, k: nat, t': nat, k': nat :: Waiting(s, t, k) && Waiting(s, t', k') && (t != t' || k != k')
          ==> s.tasks[t].batch[k].id != s.tasks[t'].batch[k'].id)
  }

  ghost predicate Coherent(s: State) {
    Fifo(s) && Locking(s) && Requeues(s) && Draining(s) && Fresh(s)
  }

  ghost predicate Inv(s: State) {
    Coherent(s) && L.Inv(Abs(s))
  }

  lemma InitInv(capacity: nat, dlq: Option<U32>, clock: Time)
    requires capacity >= 1
    ensures Inv(Init(capacity, dlq, clock)) && Abs(Init(capacity, dlq, clock)) == B.Init(dlq)
  {
    var s := Init(capacity, dlq, clock);
    assert Flatten(s.scheduled) == [];
    L.InitInv(dlq);
    assert Abs(s) == B.Init(dlq);
  }

  // ---------- One step: coherence ----------

  lemma FifoSame(s: State, s': State)
    requires Fifo(s) && s'.capacity == s.capacity && s'.channel == s.channel && s'.closed == s.closed && s'.log == s.log
    requires |s'.receipts| == |s.receipts|
    requires forall i :: 0 <= i < |s.receipts| ==> s'.receipts[i].env == s.receipts[i].env
    ensures Fifo(s')
  {
  }

  lemma FifoDeliver(s: State)
    requires Fifo(s) && !s.closed && s.channel != []
    ensures Fifo(Deliver(s))
  {
  }

  lemma FifoPush(s: State, s': State, r: B.Record)
    requires Fifo(s) && !s.closed && HasSlot(s) && s'.capacity == s.capacity && !s'.closed
    requires s'.channel == s.channel + [r.env] && s'.log == s.log + [r] && |s'.receipts| == |s.receipts|
    requires forall i :: 0 <= i < |s.receipts| ==> s'.receipts[i].env == s.receipts[i].env
    ensures Fifo(s')
  {
  }

  lemma RequeuesSame(s: State, s': State)
    requires Requeues(s) && s'.receipts == s.receipts && s'.nackCounts == s.nackCounts && s'.dlq == s.dlq
    ensures Requeues(s')
  {
    assert forall i: nat :: MidNack(s', i) == MidNack(s, i);
  }

  lemma FreshSame(s: State, s': State)
    requires Fresh(s) && s'.tasks == s.tasks && s'.issued == s.issued && s'.accepted == s.accepted
    ensures Fresh(s')
  {
    assert forall t: nat, k: nat :: Waiting(s', t, k) ==> Waiting(s, t, k);
  }

  lemma FreshStart(s: State, p: nat, batch: seq<Envelope>)
    requires Fresh(s) && CanProduce(s, StartBatch(p, batch))
    ensures Fresh(Produce(s, StartBatch(p, batch)))
  {
    var s' := Produce(s, StartBatch(p, batch));
    assert forall k :: 0 <= k < |batch| ==> batch[k].id in IdSet(batch);
    assert forall t: nat, k: nat :: Waiting(s', t, k) ==>
                            if t < |s.tasks| then Waiting(s, t, k) && s'.tasks[t] == s.tasks[t]
                            else t == |s.tasks| && s'.tasks[t].batch == batch;
  }

  lemma FreshPush(s: State, t: nat)
    requires Fresh(s) && CanProduce(s, PushSend(t))
    ensures Fresh(Produce(s, PushSend(t)))
  {
    var s' := Produce(s, PushSend(t));
    assert Waiting(s, t, s.tasks[t].sent);
    assert forall u: nat, k: nat :: Waiting(s', u, k) ==>
                            && Waiting(s, u, k) && s'.tasks[u].batch == s.tasks[u].batch
                            && (u != t || k != s.tasks[t].sent);
  }

  lemma FreshFail(s: State, t: nat)
    requires Fresh(s) && CanProduce(s, FailSend(t))
    ensures Fresh(Produce(s, FailSend(t)))
  {
    var s' := Produce(s, FailSend(t));
    assert forall u: nat, k: nat :: Waiting(s', u, k) ==> Waiting(s, u, k) && s'.tasks[u].batch == s.tasks[u].batch;
  }

  lemma FreshSendAt(s: State, p: nat, e: Envelope, at: Time)
    requires Fresh(s) && CanProduce(s, SendAt(p, e, at))
    ensures Fresh(Produce(s, SendAt(p, e, at)))
  {
    var s' := Produce(s, SendAt(p, e, at));
    assert forall u: nat, k: nat :: Waiting(s', u, k) ==> Waiting(s, u, k) && s'.tasks == s.tasks;
  }

  lemma FreshProduce(s: State, st: ProducerStep)
    requires Fresh(s) && CanProduce(s, st)
    ensures Fresh(Produce(s, st))
  {
    match st
    case StartBatch(p, batch) => FreshStart(s, p, batch);
    case PushSend(t) => FreshPush(s, t);
    case FailSend(t) => FreshFail(s, t);
    case SendAt(p, e, at) => FreshSendAt(s, p, e, at);
    case _ => FreshSame(s, Produce(s, st));
  }

  lemma ProducerCoherent(s: State, st: ProducerStep)
    requires Coherent(s) && CanProduce(s, st)
    ensures Coherent(Produce(s, st))
  {
    var s' := Produce(s, st);
    FreshProduce(s, st);
    RequeuesSame(s, s');
    if st.PushSend? {
      FifoPush(s, s', s'.log[|s.log|]);
    } else {
      FifoSame(s, s');
    }
  }

  lemma CallCoherent(s: State, st: CallStep)
    requires Coherent(s) && CanCall(s, st)
    ensures Coherent(CallDo(s, st))
  {
    var s' := CallDo(s, st);
    FreshSame(s, s');
    RequeuesSame(s, s');
    if st != DropConsumer {
      FifoSame(s, s');
    }
  }

  lemma FlushCoherent(s: State, st: FlushStep)
    requires Coherent(s) && CanFlush(s, st)
    ensures Coherent(FlushDo(s, st))
  {
    var s' := FlushDo(s, st);
    FreshSame(s, s');
    RequeuesSame(s, s');
    if st == PushDue {
      FifoPush(s, s', s'.log[|s.log|]);
    } else {
      FifoSame(s, s');
      FlattenTimes(Due(s.scheduled, s.clock));
    }
  }

  lemma DeliverCoherent(s: State)
    requires Coherent(s) && !s.closed && s.channel != [] && s.lock != ByConsumer
    ensures Coherent(Deliver(s))
  {
    FreshSame(s, Deliver(s));
    FifoDeliver(s);
    assert forall i: nat :: MidNack(Deliver(s), i) == MidNack(s, i);
  }

  lemma AwaitCoherent(s: State, st: AwaitStep)
    requires Coherent(s) && CanAwait(s, st)
    ensures Coherent(AwaitDo(s, st))
  {
    if Delivers(s, st) {
      DeliverCoherent(s);
    } else {
      AwaitQuiet(s, st);
    }
  }

  lemma AwaitQuiet(s: State, st: AwaitStep)
    requires Coherent(s) && CanAwait(s, st) && !Delivers(s, st)
    ensures Coherent(AwaitDo(s, st))
  {
    AwaitSilentFrame(s, st);
    FreshSame(s, AwaitDo(s, st));
    FifoSame(s, AwaitDo(s, st));
    RequeuesSame(s, AwaitDo(s, st));
  }

  lemma HandleLocking(s: State, i: nat, st: HandleStep)
    requires Locking(s) && CanHandle(s, i, st)
    ensures Locking(HandleDo(s, i, st))
  {
    HandleFrame(s, i, st);
  }

  lemma HandleRequeues(s: State, i: nat, st: HandleStep)
    requires Requeues(s) && CanHandle(s, i, st)
    ensures Requeues(HandleDo(s, i, st))
  {
    var s' := HandleDo(s, i, st);
    HandleFrame(s, i, st);
    assert forall k: nat :: MidNack(s', k) ==> MidNack(s, k) && s'.receipts[k] == s.receipts[k];
  }

  lemma HandleEnvelopes(s: State, i: nat, st: HandleStep)
    requires CanHandle(s, i, st)
    ensures var s' := HandleDo(s, i, st);
            forall k :: 0 <= k < |s.receipts| ==> k < |s'.receipts| && s'.receipts[k].env == s.receipts[k].env
  {
  }

  lemma HandleCoherent(s: State, i: nat, st: HandleStep)
    requires Coherent(s) && CanHandle(s, i, st)
    ensures Coherent(HandleDo(s, i, st))
  {
    var s' := HandleDo(s, i, st);
    HandleFrame(s, i, st);
    HandleEnvelopes(s, i, st);
    FreshSame(s, s');
    FifoSame(s, s');
    HandleLocking(s, i, st);
    HandleRequeues(s, i, st);
  }

  lemma CountRequeueing(s: State, i: nat)
    requires Requeues(s) && Locking(s) && CanNack(s, i, NackCount)
    requires Tally(s.nackCounts, s.receipts[i].env.id) < U32_MAX
    ensures Requeues(NackDo(s, i, NackCount))
  {
    var s' := NackDo(s, i, NackCount);
    assert s.lock == ByNack(i);
    assert forall k: nat :: MidNack(s', k) ==> k == i;
  }

  lemma CountLocking(s: State, s': State, i: nat)
    requires Locking(s) && i < |s.receipts| == |s'.receipts| && s.receipts[i].phase.Counting?
    requires s'.lock == s.lock && s'.consumer == s.consumer && s'.closed == s.closed
    requires s'.receipts == s.receipts[i := s'.receipts[i]]
    ensures Locking(s')
  {
  }

  lemma CountCoherent(s: State, i: nat)
    requires Coherent(s) && CanNack(s, i, NackCount)
    requires Tally(s.nackCounts, s.receipts[i].env.id) < U32_MAX
    ensures Coherent(NackDo(s, i, NackCount))
  {
    var s' := NackDo(s, i, NackCount);
    CountFrame(s, i);
    CountRequeueing(s, i);
    CountLocking(s, s', i);
    FreshSame(s, s');
    FifoSame(s, s');
  }

  lemma PushCoherent(s: State, i: nat)
    requires Coherent(s) && CanNack(s, i, NackPush)
    ensures Coherent(NackDo(s, i, NackPush))
  {
    var s' := NackDo(s, i, NackPush);
    FreshSame(s, s');
    if !s.closed {
      FifoPush(s, s', s'.log[|s.log|]);
    } else {
      FifoSame(s, s');
    }
    assert s.lock == ByNack(i);
    assert forall k: nat :: !MidNack(s', k);
  }

  // ---------- One step: refinement ----------

  lemma FatesMove(rs: seq<Receipt>, i: nat, phase: Phase)
    requires i < |rs|
    ensures Fates(rs[i := rs[i].(phase := phase)]) == Fates(rs)[i := FateOf(phase)]
  {
  }

  lemma CountedUncounted(counts: map<Id, U32>, id: Id)
    requires id in counts && counts[id] >= 1
    ensures Counted(Uncounted(counts, id), id) == counts
  {
  }

  lemma UncountedCounted(counts: map<Id, U32>, id: Id)
    requires Tally(counts, id) < U32_MAX
    requires id in counts ==> counts[id] >= 1
    ensures Uncounted(Counted(counts, id), id) == counts
  {
  }

  ghost predicate Simulates(s: State, st: Step)
    requires Can(s, st)
  {
    B.Enabled(Abs(s), EventOf(s, st)) && B.Apply(Abs(s), EventOf(s, st)) == Abs(Do(s, st))
  }

  /** Nothing the picture is drawn from differs, except possibly whom the lock belongs to. */
  predicate Alike(s: State, s': State) {
    && s'.dlq == s.dlq && s'.accepted == s.accepted && s'.scheduled == s.scheduled && s'.log == s.log
    && s'.lost == s.lost && s'.deadLetters == s.deadLetters && s'.closed == s.closed
    && FlushBuffer(s') == FlushBuffer(s)
  }

  lemma AbsSame(s: State, s': State)
    requires Alike(s, s')
    requires Fates(s'.receipts) == Fates(s.receipts) && VisibleNacks(s') == VisibleNacks(s)
    ensures Abs(s') == Abs(s)
  {
  }

  lemma SendAtSimulates(s: State, p: nat, e: Envelope, at: Time)
    requires Coherent(s) && CanProduce(s, SendAt(p, e, at))
    ensures Simulates(s, Producer(SendAt(p, e, at)))
  {
    FlattenInsert(s.scheduled, at, e);
    assert FlushBuffer(s) == [];
    assert [] + Flatten(s.scheduled) == Flatten(s.scheduled);
    assert [] + Flatten(Insert(s.scheduled, at, e)) == Flatten(Insert(s.scheduled, at, e));
  }

  lemma PushSendSimulates(s: State, t: nat)
    requires Coherent(s) && CanProduce(s, PushSend(t))
    ensures Simulates(s, Producer(PushSend(t)))
  {
    assert Waiting(s, t, s.tasks[t].sent);
  }

  lemma ProducerSimulates(s: State, st: ProducerStep)
    requires Coherent(s) && CanProduce(s, st)
    ensures Simulates(s, Producer(st))
  {
    match st
    case PushSend(t) => PushSendSimulates(s, t);
    case SendAt(p, e, at) => SendAtSimulates(s, p, e, at);
    case _ => AbsSame(s, Produce(s, st));
  }

  lemma CancelSimulates(s: State)
    requires CanCall(s, CancelReceive) && Locking(s)
    ensures Simulates(s, Call(CancelReceive))
  {
    var due, rest := FlushBuffer(s), Flatten(s.scheduled);
    assert (due + rest)[|due|..] == [] + rest;
    assert (due + rest)[..|due|] == due;
    assert s.lost + [] == s.lost;
  }

  lemma CallSimulates(s: State, st: CallStep)
    requires Locking(s) && CanCall(s, st)
    ensures Simulates(s, Call(st))
  {
    match st
    case CancelReceive => CancelSimulates(s);
    case DropConsumer =>
    case _ => AbsSame(s, CallDo(s, st));
  }

  lemma PushDueSimulates(s: State)
    requires Locking(s) && Draining(s) && CanFlush(s, PushDue)
    ensures Simulates(s, Flush(PushDue))
  {
    var due, rest := s.consumer.pc.due, Flatten(s.scheduled);
    assert (due + rest)[1..] == due[1..] + rest;
    assert (due + rest)[0] == due[0];
  }

  lemma FlushSimulates(s: State, st: FlushStep)
    requires Locking(s) && Draining(s) && CanFlush(s, st)
    ensures Simulates(s, Flush(st))
  {
    match st
    case SplitDue =>
      FlattenSplit(s.scheduled, s.clock);
      assert [] + Flatten(s.scheduled) == Flatten(s.scheduled);
    case PushDue => PushDueSimulates(s);
    case _ => AbsSame(s, FlushDo(s, st));
  }

  lemma DeliverSimulates(s: State)
    requires Fifo(s) && s.channel != [] && !s.consumer.pc.Flushing?
    ensures B.Enabled(Abs(s), B.Receive) && B.Apply(Abs(s), B.Receive) == Abs(Deliver(s))
  {
    assert Fates(Deliver(s).receipts) == Fates(s.receipts) + [B.Unresolved];
  }

  lemma AwaitSimulates(s: State, st: AwaitStep)
    requires Fifo(s) && Locking(s) && CanAwait(s, st)
    ensures Simulates(s, Await(st))
  {
    if Delivers(s, st) {
      DeliverSimulates(s);
    } else {
      AwaitSilent(s, st);
    }
  }

  lemma AwaitSilent(s: State, st: AwaitStep)
    requires CanAwait(s, st) && !Delivers(s, st)
    ensures Abs(AwaitDo(s, st)) == Abs(s)
  {
    AwaitSilentFrame(s, st);
    AbsSame(s, AwaitDo(s, st));
  }

  /** The steps of a nack that are not seen from outside leave every fate as it was. */
  lemma HandleSilent(s: State, i: nat, st: HandleStep)
    requires CanHandle(s, i, st) && Locking(s) && st != Ack && st != Abandon
    ensures Abs(HandleDo(s, i, st)) == Abs(s)
  {
    var s' := HandleDo(s, i, st);
    HandleFrame(s, i, st);
    assert s'.receipts == s.receipts[i := s.receipts[i].(phase := s'.receipts[i].phase)];
    FatesMove(s.receipts, i, s'.receipts[i].phase);
    assert Fates(s.receipts)[i] == FateOf(s.receipts[i].phase);
    assert Fates(s'.receipts) == Fates(s.receipts);
    AbsSame(s, s');
  }

  lemma HandleSimulates(s: State, i: nat, st: HandleStep)
    requires Fifo(s) && Locking(s) && CanHandle(s, i, st)
    ensures Simulates(s, Handle(i, st))
  {
    if st == Ack || st == Abandon {
      FatesMove(s.receipts, i, HandleDo(s, i, st).receipts[i].phase);
      assert Fates(s.receipts)[i] == FateOf(s.receipts[i].phase);
    } else {
      HandleSilent(s, i, st);
    }
  }

  /** The counter of a message whose nack is being counted is below the limit: `+= 1` cannot wrap. */
  lemma TallyBelow(s: State, i: nat)
    requires Fifo(s) && Locking(s) && L.Shape(Abs(s)) && L.Tallied(Abs(s)) && CanNack(s, i, NackCount)
    ensures Tally(s.nackCounts, s.receipts[i].env.id) < MaxAttempts(s.dlq)
    ensures s.receipts[i].env.id in s.nackCounts ==> s.nackCounts[s.receipts[i].env.id] >= 1
  {
    var a := Abs(s);
    assert B.Pending(a, i) && a.log[i].env == s.receipts[i].env;
    assert a.nacks == s.nackCounts;
    L.NackOutcome(a, i);
  }

  lemma CountRequeues(s: State, i: nat)
    requires Locking(s) && CanNack(s, i, NackCount) && NackVerdict(s, i).Requeue?
    requires Tally(s.nackCounts, s.receipts[i].env.id) < U32_MAX
    requires s.receipts[i].env.id in s.nackCounts ==> s.nackCounts[s.receipts[i].env.id] >= 1
    ensures Abs(NackDo(s, i, NackCount)) == Abs(s)
  {
    var s' := NackDo(s, i, NackCount);
    UncountedCounted(s.nackCounts, s.receipts[i].env.id);
    FatesMove(s.receipts, i, s'.receipts[i].phase);
    assert Fates(s.receipts)[i] == B.Unresolved;
    assert Fates(s'.receipts) == Fates(s.receipts);
    AbsSame(s, s');
  }

  lemma CountSettles(s: State, i: nat)
    requires Fifo(s) && Locking(s) && CanNack(s, i, NackCount) && !NackVerdict(s, i).Requeue?
    ensures B.Pending(Abs(s), i) && B.NackAll(Abs(s), i) == Abs(NackDo(s, i, NackCount))
  {
    var s' := NackDo(s, i, NackCount);
    FatesMove(s.receipts, i, s'.receipts[i].phase);
    assert B.Pending(Abs(s), i) && Abs(s).log[i].env == s.receipts[i].env;
  }

  lemma PushRequeues(s: State, i: nat)
    requires Fifo(s) && Locking(s) && Requeues(s) && CanNack(s, i, NackPush)
    ensures B.Pending(Abs(s), i) && B.NackAll(Abs(s), i) == Abs(NackDo(s, i, NackPush))
  {
    assert MidNack(s, i);
    CountedUncounted(s.nackCounts, s.receipts[i].env.id);
    assert B.Pending(Abs(s), i) && Abs(s).log[i].env == s.receipts[i].env;
    FatesMove(s.receipts, i, NackDo(s, i, NackPush).receipts[i].phase);
  }

  /** What the ledger of the broker has to say about a step of the machine. */
  ghost predicate Countable(s: State, st: Step)
    requires Can(s, st)
  {
    st.Nack? && st.n == NackCount ==>
      var id := s.receipts[st.i].env.id;
      Tally(s.nackCounts, id) < U32_MAX && (id in s.nackCounts ==> s.nackCounts[id] >= 1)
  }

  lemma LedgerCounts(s: State, st: Step)
    requires Inv(s) && Can(s, st)
    ensures Countable(s, st)
  {
    if st.Nack? && st.n == NackCount {
      TallyBelow(s, st.i);
    }
  }

  lemma NackSimulates(s: State, i: nat, st: NackStep)
    requires Fifo(s) && Locking(s) && Requeues(s) && CanNack(s, i, st) && Countable(s, Nack(i, st))
    ensures Simulates(s, Nack(i, st))
  {
    if st == NackPush {
      PushRequeues(s, i);
    } else if NackVerdict(s, i).Requeue? {
      CountRequeues(s, i);
    } else {
      CountSettles(s, i);
    }
  }

  lemma NackCoherent(s: State, i: nat, st: NackStep)
    requires Coherent(s) && CanNack(s, i, st) && Countable(s, Nack(i, st))
    ensures Coherent(NackDo(s, i, st))
  {
    if st == NackPush {
      PushCoherent(s, i);
    } else {
      CountCoherent(s, i);
    }
  }

  lemma StepCoherent(s: State, st: Step)
    requires Coherent(s) && Can(s, st) && Countable(s, st)
    ensures Coherent(Do(s, st))
  {
    match st
    case Producer(p) => ProducerCoherent(s, p);
    case Call(c) => CallCoherent(s, c);
    case Flush(f) => FlushCoherent(s, f);
    case Await(a) => AwaitCoherent(s, a);
    case Handle(i, h) => HandleCoherent(s, i, h);
    case Nack(i, n) => NackCoherent(s, i, n);
    case _ =>
      FifoSame(s, Do(s, st));
      FreshSame(s, Do(s, st));
      RequeuesSame(s, Do(s, st));
  }

  /** The simulation: what a step does to the picture is exactly its atomic event. */
  lemma StepSimulates(s: State, st: Step)
    requires Coherent(s) && Can(s, st) && Countable(s, st)
    ensures Simulates(s, st)
  {
    match st
    case Producer(p) => ProducerSimulates(s, p);
    case Call(c) => CallSimulates(s, c);
    case Flush(f) => FlushSimulates(s, f);
    case Await(a) => AwaitSimulates(s, a);
    case Handle(i, h) => HandleSimulates(s, i, h);
    case Nack(i, n) => NackSimulates(s, i, n);
    case _ => AbsSame(s, Do(s, st));
  }

  lemma StepKeepsInv(s: State, st: Step)
    requires Inv(s) && Can(s, st)
    ensures Simulates(s, st) && Inv(Do(s, st))
  {
    LedgerCounts(s, st);
    StepCoherent(s, st);
    StepSimulates(s, st);
    L.StepKeeps(Abs(s), EventOf(s, st));
  }

  /** The machine refines the broker under every interleaving: same log, same received sequence, same fates. */
  lemma {:induction false} RunRefines(s: State, steps: seq<Step>)
    requires Inv(s) && CanRun(s, steps)
    ensures B.CanRun(Abs(s), Events(s, steps))
    ensures B.Run(Abs(s), Events(s, steps)) == Abs(Run(s, steps))
    ensures Inv(Run(s, steps))
    decreases |steps|
  {
    if steps != [] {
      StepKeepsInv(s, steps[0]);
      RunRefines(Do(s, steps[0]), steps[1..]);
      assert Events(s, steps)[0] == EventOf(s, steps[0]);
      assert Events(s, steps)[1..] == Events(Do(s, steps[0]), steps[1..]);
    }
  }
}
