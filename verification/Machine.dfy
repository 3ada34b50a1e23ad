/** The in-memory backend as it runs: producer tasks, outstanding deliveries and one consumer, each with
    its own program counter, interleaved one step at a time around a mutex and a bounded channel. A step
    goes from one suspension point of the source to the next; a step that would wait is not enabled. */
module Machine {
  import opened Core
  import opened Schedule
  import B = Broker

  datatype Lock = Free | ByConsumer | ByNack(receipt: nat)

  /** `receive`, `receive_graceful` and `try_receive`. */
  datatype Mode = Plain | Graceful | Polling

  /** In `PastChannel` the select has found the channel empty, when the log had `seen` entries, and goes on to the
      timer and the producers: others may run between its looks at them. */
  datatype Pc =
    | Idle
    | GracefulCheck
    | ShutdownCheck
    | AwaitFlushLock
    | FlushLocked
    | Flushing(due: seq<Entry>, now: Time)
    | TryRecv
    | AwaitPeekLock
    | Selecting(wake: Option<Time>)
    | PastChannel(wake: Option<Time>, seen: nat)

  /** `rounds` counts how often the current call went through the body of the receive loop, `armed` is the
      time its last timer was set for, and `backs` counts the flushes that read an earlier clock than that. */
  datatype Consumer = Consumer(pc: Pc, mode: Mode, rounds: nat, armed: Option<Time>, backs: nat)

  datatype Phase =
    | Held
    | AwaitLock
    | Counting
    | Requeueing(requeued: Envelope)
    | Settled(fate: B.Fate)

  /** A delivery handed out by the consumer, together with its ack handle. */
  datatype Receipt = Receipt(env: Envelope, phase: Phase)

  /** One `send_batch`; a single `send` is a batch of one. `sent` of its messages are in the channel. */
  datatype Task = Task(owner: nat, batch: seq<Envelope>, sent: nat, failed: bool)

  datatype Outcome = Delivered(receipt: nat) | NoMessage | ConsumerShutdown | ConnectionLost | Stopped

  datatype Ended = Ended(mode: Mode, outcome: Outcome)

  /** The first block is what the program holds; `senders` is the reference count by which the channel knows
      whether anybody can still send. The second is history: ids handed out, messages accepted, everything
      that ever entered the channel, entries dropped with a cancelled flush, dead letters, and finished
      consumer calls. */
  datatype State = State(
    capacity: nat,
    dlq: Option<U32>,
    channel: seq<Envelope>,
    closed: bool,
    scheduled: Buckets,
    nackCounts: map<Id, U32>,
    lock: Lock,
    consumer: Consumer,
    receipts: seq<Receipt>,
    tasks: seq<Task>,
    producers: set<nat>,
    senders: int,
    shutdown: bool,
    clock: Time,

    issued: set<Id>,
    accepted: map<Id, B.Ticket>,
    log: seq<B.Record>,
    lost: seq<Entry>,
    deadLetters: seq<Envelope>,
    calls: seq<Ended>)

  datatype ProducerStep =
    | Clone(from: nat, to: nat)
    | DropProducer(p: nat)
    | StartBatch(p: nat, batch: seq<Envelope>)
    | PushSend(t: nat)
    | FailSend(t: nat)
    | SendAt(p: nat, env: Envelope, at: Time)

  datatype CallStep =
    | Begin(mode: Mode)
    | CheckGraceful
    | CheckShutdown
    | CancelReceive
    | DropConsumer

  datatype FlushStep = LockFlush | SplitDue | PushDue | EndFlush

  datatype AwaitStep = Pop | Peek | WakeByMessage | WakeByClosed | FindEmpty | WakeByTimer | WakeByLiveness | Sleep

  datatype HandleStep = Ack | Abandon | NackCall | NackLock | NackRelease

  datatype NackStep = NackCount | NackPush

  datatype Step =
    | Producer(p: ProducerStep)
    | Call(c: CallStep)
    | Flush(f: FlushStep)
    | Await(a: AwaitStep)
    | Handle(i: nat, h: HandleStep)
    | Nack(i: nat, n: NackStep)
    | Shutdown
    | Tick(now: Time)

  /** `build_pair`: producer 0 and the consumer, each with a sender, around an empty channel and an empty
      schedule. */
  function Init(capacity: nat, dlq: Option<U32>, clock: Time): State {
    State(capacity, dlq, [], false, map[], map[], Free, Consumer(Idle, Plain, 0, None, 0), [], [], {0}, 2,
          false, clock, {}, map[], [], [], [], [])
  }

  predicate HasSlot(s: State) {
    |s.channel| < s.capacity
  }

  // ---------- Producers ----------

  predicate Running(t: Task) {
    !t.failed && t.sent < |t.batch|
  }

  predicate DistinctIds(batch: seq<Envelope>) {
    forall i, j :: 0 <= i < j < |batch| ==> batch[i].id != batch[j].id
  }

  predicate CanProduce(s: State, st: ProducerStep) {
    match st
    case Clone(from, to) => from in s.producers && to !in s.producers
    case DropProducer(p) =>
      p in s.producers && forall t :: 0 <= t < |s.tasks| && s.tasks[t].owner == p ==> !Running(s.tasks[t])
    case StartBatch(p, batch) =>
      && p in s.producers
      && DistinctIds(batch)
      && forall k :: 0 <= k < |batch| ==> batch[k].id !in s.issued && batch[k].count == 1
    case PushSend(t) => t < |s.tasks| && Running(s.tasks[t]) && !s.closed && HasSlot(s)
    case FailSend(t) => t < |s.tasks| && Running(s.tasks[t]) && s.closed
    case SendAt(p, e, _) => p in s.producers && s.lock == Free && e.id !in s.issued && e.count == 1
  }

  function IdSet(batch: seq<Envelope>): set<Id> {
    set k | 0 <= k < |batch| :: batch[k].id
  }

  function Produce(s: State, st: ProducerStep): State
    requires CanProduce(s, st)
  {
    match st
    case Clone(_, to) => s.(producers := s.producers + {to}, senders := s.senders + 1)
    case DropProducer(p) => s.(producers := s.producers - {p}, senders := s.senders - 1)
    case StartBatch(p, batch) =>
      s.(tasks := s.tasks + [Task(p, batch, 0, false)], issued := s.issued + IdSet(batch))
    case PushSend(t) =>
      var task := s.tasks[t];
      var e := task.batch[task.sent];
      s.(channel := s.channel + [e],
      tasks := s.tasks[t := task.(sent := task.sent + 1)],
      accepted := s.accepted[e.id := B.Ticket(e, None)],
      log := s.log + [B.Record(e, B.BySend(t))])
    case FailSend(t) => s.(tasks := s.tasks[t := s.tasks[t].(failed := true)])
    case SendAt(_, e, at) =>
      s.(scheduled := Insert(s.scheduled, at, e),
      issued := s.issued + {e.id},
      accepted := s.accepted[e.id := B.Ticket(e, Some(at))])
  }

  // ---------- The consumer ----------

  predicate Suspended(pc: Pc) {
    pc in {ShutdownCheck, AwaitFlushLock, AwaitPeekLock} || pc.Flushing? || pc.Selecting?
  }

  function At(s: State, pc: Pc): State {
    s.(consumer := s.consumer.(pc := pc))
  }

  function Return(s: State, o: Outcome): State {
    s.(consumer := s.consumer.(pc := Idle), calls := s.calls + [Ended(s.consumer.mode, o)])
  }

  /** The ack handle of the delivery gets a sender of its own. */
  function Deliver(s: State): State
    requires s.channel != []
  {
    s.(consumer := s.consumer.(pc := Idle),
    calls := s.calls + [Ended(s.consumer.mode, Delivered(|s.receipts|))],
    channel := s.channel[1..],
    receipts := s.receipts + [Receipt(s.channel[0], Held)],
    senders := s.senders + 1)
  }

  function Begun(s: State, mode: Mode): State {
    var pc := match mode case Plain => ShutdownCheck case Graceful => GracefulCheck case Polling => AwaitFlushLock;
    s.(consumer := Consumer(pc, mode, 0, None, 0))
  }

  predicate CanCall(s: State, st: CallStep) {
    match st
    case Begin(_) => s.consumer.pc == Idle && !s.closed
    case CheckGraceful => s.consumer.pc == GracefulCheck
    case CheckShutdown => s.consumer.pc == ShutdownCheck
    case CancelReceive => s.consumer.mode == Graceful && s.shutdown && Suspended(s.consumer.pc)
    case DropConsumer => s.consumer.pc == Idle && !s.closed
  }

  function CallDo(s: State, st: CallStep): State
    requires CanCall(s, st)
  {
    match st
    case Begin(mode) => Begun(s, mode)
    case CheckGraceful => if s.shutdown then Return(s, Stopped) else At(s, ShutdownCheck)
    case CheckShutdown =>
      if s.shutdown then Return(s, ConsumerShutdown)
      else s.(consumer := s.consumer.(pc := AwaitFlushLock, rounds := s.consumer.rounds + 1))
    case CancelReceive =>
      var stopped := Return(s, Stopped);
      if s.consumer.pc.Flushing? then stopped.(lock := Free, lost := s.lost + s.consumer.pc.due) else stopped
    case DropConsumer => s.(closed := true, channel := [], senders := s.senders - 1)
  }

  predicate CanFlush(s: State, st: FlushStep) {
    var pc := s.consumer.pc;
    match st
    case LockFlush => pc == AwaitFlushLock && s.lock == Free
    case SplitDue => pc == FlushLocked
    case PushDue => pc.Flushing? && pc.due != [] && HasSlot(s)
    case EndFlush => pc.Flushing? && pc.due == []
  }

  /** The clock is behind the time of the timer that woke the consumer up. */
  predicate ReadsBack(s: State) {
    s.consumer.armed.Some? && s.clock < s.consumer.armed.value
  }

  function FlushDo(s: State, st: FlushStep): State
    requires CanFlush(s, st)
  {
    var pc := s.consumer.pc;
    match st
    case LockFlush => At(s, FlushLocked).(lock := ByConsumer)
    case SplitDue =>
      var backs := s.consumer.backs + if ReadsBack(s) then 1 else 0;
      s.(consumer := s.consumer.(pc := Flushing(Flatten(Due(s.scheduled, s.clock)), s.clock), backs := backs),
      scheduled := Later(s.scheduled, s.clock))
    case PushDue =>
      At(s, Flushing(pc.due[1..], pc.now)).(
      channel := s.channel + [pc.due[0].env],
      log := s.log + [B.Record(pc.due[0].env, B.ByFlush(pc.now))])
    case EndFlush => At(s, TryRecv).(lock := Free)
  }

  /** The select is biased: the channel first, then the timer, then the liveness of the producers. The channel
      is ready with a message, or with the news that nobody can send any more. If nothing is ready the consumer
      sleeps until something is, and starts over. */
  predicate CanAwait(s: State, st: AwaitStep) {
    var pc := s.consumer.pc;
    match st
    case Pop => pc == TryRecv
    case Peek => pc == AwaitPeekLock && s.lock == Free
    case WakeByMessage => pc.Selecting? && s.channel != []
    case WakeByClosed => pc.Selecting? && s.channel == [] && s.senders == 0
    case FindEmpty => pc.Selecting? && s.channel == [] && s.senders != 0
    case WakeByTimer => pc.PastChannel? && pc.wake.Some?
    case WakeByLiveness => pc.PastChannel? && s.producers == {}
    case Sleep => pc.PastChannel? && s.producers != {}
  }

  predicate Delivers(s: State, st: AwaitStep) {
    st == WakeByMessage || (st == Pop && s.channel != [])
  }

  function AwaitDo(s: State, st: AwaitStep): State
    requires CanAwait(s, st)
  {
    match st
    case Pop =>
      if Delivers(s, st) then Deliver(s)
      else if s.consumer.mode == Polling then Return(s, if s.senders == 0 then ConnectionLost else NoMessage)
      else At(s, AwaitPeekLock)
    case Peek => At(s, Selecting(NextScheduledAt(s.scheduled)))
    case WakeByMessage => Deliver(s)
    case WakeByClosed => Return(s, ConnectionLost)
    case FindEmpty => At(s, PastChannel(s.consumer.pc.wake, |s.log|))
    case WakeByTimer => s.(consumer := s.consumer.(pc := ShutdownCheck, armed := s.consumer.pc.wake))
    case WakeByLiveness => Return(s, ConnectionLost)
    case Sleep => At(s, Selecting(s.consumer.pc.wake))
  }

  // ---------- Ack handles ----------

  predicate CanHandle(s: State, i: nat, st: HandleStep) {
    && i < |s.receipts|
    && var phase := s.receipts[i].phase;
       match st
       case Ack => phase == Held
       case Abandon => phase == Held
       case NackCall => phase == Held
       case NackLock => phase == AwaitLock && s.lock == Free
       case NackRelease => phase.Settled? && s.lock == ByNack(i)
  }

  function Move(s: State, i: nat, phase: Phase): State
    requires i < |s.receipts|
  {
    s.(receipts := s.receipts[i := s.receipts[i].(phase := phase)])
  }

  function HandleDo(s: State, i: nat, st: HandleStep): State
    requires CanHandle(s, i, st)
  {
    match st
    case Ack => Move(s, i, Settled(B.Acked)).(senders := s.senders - 1)
    case Abandon => Move(s, i, Settled(B.Abandoned)).(senders := s.senders - 1)
    case NackCall => Move(s, i, AwaitLock)
    case NackLock => Move(s, i, Counting).(lock := ByNack(i))
    case NackRelease => s.(lock := Free, senders := s.senders - 1)
  }

  predicate CanNack(s: State, i: nat, st: NackStep) {
    && i < |s.receipts|
    && match st
       case NackCount => s.receipts[i].phase == Counting
       case NackPush => s.receipts[i].phase.Requeueing? && (s.closed || HasSlot(s))
  }

  function NackVerdict(s: State, i: nat): Verdict
    requires i < |s.receipts|
  {
    var e := s.receipts[i].env;
    Judge(s.dlq, Tally(Counted(s.nackCounts, e.id), e.id), e)
  }

  function NackDo(s: State, i: nat, st: NackStep): State
    requires CanNack(s, i, st)
  {
    match st
    case NackCount =>
      var counted := s.(nackCounts := Counted(s.nackCounts, s.receipts[i].env.id));
      (match NackVerdict(s, i)
       case Requeue(r) => Move(counted, i, Requeueing(r))
       case DeadLetter(d) => Move(counted, i, Settled(B.DeadLettered)).(deadLetters := s.deadLetters + [d])
       case Discard => Move(counted, i, Settled(B.LimitDropped)))
    case NackPush =>
      if s.closed then Move(s, i, Settled(B.ClosedDropped))
      else
        var r := s.receipts[i].phase.requeued;
        Move(s, i, Settled(B.Requeued)).(
        channel := s.channel + [r],
        log := s.log + [B.Record(r, B.ByNack(i))])
  }

  // ---------- The whole machine ----------

  predicate Can(s: State, st: Step) {
    match st
    case Producer(p) => CanProduce(s, p)
    case Call(c) => CanCall(s, c)
    case Flush(f) => CanFlush(s, f)
    case Await(a) => CanAwait(s, a)
    case Handle(i, h) => CanHandle(s, i, h)
    case Nack(i, n) => CanNack(s, i, n)
    case Shutdown => true
    case Tick(_) => true
  }

  function Do(s: State, st: Step): State
    requires Can(s, st)
  {
    match st
    case Producer(p) => Produce(s, p)
    case Call(c) => CallDo(s, c)
    case Flush(f) => FlushDo(s, f)
    case Await(a) => AwaitDo(s, a)
    case Handle(i, h) => HandleDo(s, i, h)
    case Nack(i, n) => NackDo(s, i, n)
    case Shutdown => s.(shutdown := true)
    case Tick(now) => s.(clock := now)
  }

  predicate CanRun(s: State, steps: seq<Step>)
    decreases |steps|
  {
    steps == [] || (Can(s, steps[0]) && CanRun(Do(s, steps[0]), steps[1..]))
  }

  function Run(s: State, steps: seq<Step>): State
    requires CanRun(s, steps)
    decreases |steps|
  {
    if steps == [] then s else Run(Do(s, steps[0]), steps[1..])
  }

  /** `s` is reached by some run of a freshly built pair. */
  ghost predicate Reachable(s: State) {
    exists capacity: nat, dlq: Option<U32>, clock: Time, steps: seq<Step> ::
      Reaches(capacity, dlq, clock, steps, s)
  }

  ghost predicate Reaches(capacity: nat, dlq: Option<U32>, clock: Time, steps: seq<Step>, s: State) {
    capacity >= 1 && CanRun(Init(capacity, dlq, clock), steps) && Run(Init(capacity, dlq, clock), steps) == s
  }

  lemma {:induction false} RunAppend(s: State, steps: seq<Step>, st: Step)
    requires CanRun(s, steps) && Can(Run(s, steps), st)
    ensures CanRun(s, steps + [st]) && Run(s, steps + [st]) == Do(Run(s, steps), st)
    decreases |steps|
  {
    if steps == [] {
      var rest := ([] + [st])[1..];
      assert rest == [] && CanRun(Do(s, st), rest);
    } else {
      RunAppend(Do(s, steps[0]), steps[1..], st);
      assert (steps + [st])[1..] == steps[1..] + [st];
    }
  }

  lemma ReachableStep(s: State, st: Step)
    requires Reachable(s) && Can(s, st)
    ensures Reachable(Do(s, st))
  {
    var capacity: nat, dlq: Option<U32>, clock: Time, steps: seq<Step> :| Reaches(capacity, dlq, clock, steps, s);
    RunAppend(Init(capacity, dlq, clock), steps, st);
    assert Reaches(capacity, dlq, clock, steps + [st], Do(s, st));
  }

  lemma {:induction false} ReachableRun(s: State, steps: seq<Step>)
    requires Reachable(s) && CanRun(s, steps)
    ensures Reachable(Run(s, steps))
    decreases |steps|
  {
    if steps != [] {
      ReachableStep(s, steps[0]);
      ReachableRun(Do(s, steps[0]), steps[1..]);
    }
  }

  // ---------- What each kind of step can change ----------

  lemma CallFrame(s: State, st: CallStep)
    requires CanCall(s, st)
    ensures var s' := CallDo(s, st);
            s' == s.(closed := s'.closed, channel := s'.channel, consumer := s'.consumer, lock := s'.lock,
            lost := s'.lost, calls := s'.calls, senders := s'.senders)
  {
  }

  lemma FlushFrame(s: State, st: FlushStep)
    requires CanFlush(s, st)
    ensures var s' := FlushDo(s, st);
            s' == s.(consumer := s'.consumer, lock := s'.lock, scheduled := s'.scheduled, channel := s'.channel,
            log := s'.log)
  {
  }

  lemma AwaitFrame(s: State, st: AwaitStep)
    requires CanAwait(s, st)
    ensures var s' := AwaitDo(s, st);
            s' == s.(consumer := s'.consumer, channel := s'.channel, receipts := s'.receipts, calls := s'.calls,
            senders := s'.senders)
  {
    if !Delivers(s, st) {
      AwaitSilentFrame(s, st);
    }
  }

  lemma AwaitSilentFrame(s: State, st: AwaitStep)
    requires CanAwait(s, st) && !Delivers(s, st)
    ensures AwaitDo(s, st) == s.(consumer := AwaitDo(s, st).consumer, calls := AwaitDo(s, st).calls)
    ensures !AwaitDo(s, st).consumer.pc.Flushing? && AwaitDo(s, st).consumer.pc != FlushLocked
  {
  }

  lemma HandleFrame(s: State, i: nat, st: HandleStep)
    requires CanHandle(s, i, st)
    ensures var s' := HandleDo(s, i, st);
            && s' == s.(receipts := s'.receipts, lock := s'.lock, senders := s'.senders)
            && |s'.receipts| == |s.receipts|
  {
  }

  lemma CountFrame(s: State, i: nat)
    requires CanNack(s, i, NackCount)
    ensures var s' := NackDo(s, i, NackCount);
            && s' == s.(receipts := s'.receipts, nackCounts := s'.nackCounts, deadLetters := s'.deadLetters)
            && s'.receipts == s.receipts[i := s.receipts[i].(phase := s'.receipts[i].phase)]
  {
  }

  lemma NackFrame(s: State, i: nat, st: NackStep)
    requires CanNack(s, i, st)
    ensures var s' := NackDo(s, i, st);
            && s' == s.(receipts := s'.receipts, nackCounts := s'.nackCounts, deadLetters := s'.deadLetters,
               channel := s'.channel, log := s'.log)
            && |s'.receipts| == |s.receipts|
  {
    if st == NackCount {
      CountFrame(s, i);
    }
  }

  /** Only producers change what producers hold. */
  lemma OthersFrame(s: State, st: Step)
    requires Can(s, st) && !st.Producer?
    ensures var s' := Do(s, st);
            s'.tasks == s.tasks && s'.producers == s.producers && s'.issued == s.issued && s'.accepted == s.accepted
  {
    match st
    case Call(c) => CallFrame(s, c);
    case Flush(f) => FlushFrame(s, f);
    case Await(a) => AwaitFrame(s, a);
    case Handle(i, h) => HandleFrame(s, i, h);
    case Nack(i, n) => NackFrame(s, i, n);
    case _ =>
  }

  predicate ConsumerStep(st: Step) {
    st.Call? || st.Flush? || st.Await?
  }

  /** Only the consumer changes what the consumer does, and what has been received. */
  lemma OthersKeepConsumer(s: State, st: Step)
    requires Can(s, st) && !ConsumerStep(st)
    ensures Do(s, st).consumer == s.consumer && Do(s, st).calls == s.calls
    ensures |Do(s, st).receipts| == |s.receipts|
  {
    match st
    case Producer(p) =>
    case Handle(i, h) => HandleFrame(s, i, h);
    case Nack(i, n) => NackFrame(s, i, n);
    case _ =>
  }
}
