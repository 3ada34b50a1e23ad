/** Waiting for a slot of the bounded channel: when it cannot happen, and exactly when it never ends. */
module Blocking {
  import opened Core
  import opened Schedule
  import opened Machine
  import opened Refinement
  import opened Safety

  // ---------- How much the backend has to hold ----------

  function Open(rs: seq<Receipt>): nat {
    if rs == [] then 0 else Open(rs[1..]) + if rs[0].phase.Settled? then 0 else 1
  }

  function ToSend(t: Task): nat {
    if Running(t) then |t.batch| - t.sent else 0
  }

  function Unsent(ts: seq<Task>): nat {
    if ts == [] then 0 else Unsent(ts[1..]) + ToSend(ts[0])
  }

  /** Messages in the channel, on the schedule, in the flush buffer, in unresolved deliveries and in
      pending sends. */
  function Load(s: State): nat {
    |s.channel| + |FlushBuffer(s) + Flatten(s.scheduled)| + Open(s.receipts) + Unsent(s.tasks)
  }

  lemma {:induction false} OpenMove(rs: seq<Receipt>, i: nat, r: Receipt)
    requires i < |rs|
    ensures Open(rs[i := r]) + (if rs[i].phase.Settled? then 0 else 1)
            == Open(rs) + if r.phase.Settled? then 0 else 1
  {
    if i > 0 {
      OpenMove(rs[1..], i - 1, r);
      assert rs[i := r][1..] == rs[1..][i - 1 := r];
    } else {
      assert rs[i := r][1..] == rs[1..];
    }
  }

  lemma {:induction false} OpenAppend(rs: seq<Receipt>, r: Receipt)
    ensures Open(rs + [r]) == Open(rs) + if r.phase.Settled? then 0 else 1
  {
    if rs == [] {
      assert (rs + [r])[1..] == [];
    } else {
      OpenAppend(rs[1..], r);
      assert (rs + [r])[1..] == rs[1..] + [r];
    }
  }

  lemma {:induction false} UnsentMove(ts: seq<Task>, i: nat, t: Task)
    requires i < |ts|
    ensures Unsent(ts[i := t]) + ToSend(ts[i]) == Unsent(ts) + ToSend(t)
  {
    if i > 0 {
      UnsentMove(ts[1..], i - 1, t);
      assert ts[i := t][1..] == ts[1..][i - 1 := t];
    } else {
      assert ts[i := t][1..] == ts[1..];
    }
  }

  lemma {:induction false} UnsentAppend(ts: seq<Task>, t: Task)
    ensures Unsent(ts + [t]) == Unsent(ts) + ToSend(t)
  {
    if ts == [] {
      assert (ts + [t])[1..] == [];
    } else {
      UnsentAppend(ts[1..], t);
      assert (ts + [t])[1..] == ts[1..] + [t];
    }
  }

  /** Messages a step newly asks the backend to hold. */
  function Demand(st: Step): nat {
    match st
    case Producer(StartBatch(_, batch)) => |batch|
    case Producer(SendAt(_, _, _)) => 1
    case _ => 0
  }

  lemma LoadProduce(s: State, st: ProducerStep)
    requires Locking(s) && CanProduce(s, st)
    ensures Load(Produce(s, st)) <= Load(s) + Demand(Producer(st))
  {
    match st
    case StartBatch(p, batch) => UnsentAppend(s.tasks, Task(p, batch, 0, false));
    case PushSend(t) => UnsentMove(s.tasks, t, Produce(s, st).tasks[t]);
    case FailSend(t) => UnsentMove(s.tasks, t, Produce(s, st).tasks[t]);
    case SendAt(_, e, at) =>
      FlattenInsert(s.scheduled, at, e);
      InsertMembers(Flatten(s.scheduled), Entry(at, e));
    case _ =>
  }

  lemma LoadFlush(s: State, st: FlushStep)
    requires CanFlush(s, st)
    ensures Load(FlushDo(s, st)) <= Load(s)
  {
    FlushFrame(s, st);
    if st == SplitDue {
      FlattenSplit(s.scheduled, s.clock);
    }
  }

  lemma LoadAwait(s: State, st: AwaitStep)
    requires CanAwait(s, st)
    ensures Load(AwaitDo(s, st)) <= Load(s)
  {
    if Delivers(s, st) {
      OpenAppend(s.receipts, Receipt(s.channel[0], Held));
    } else {
      AwaitSilentFrame(s, st);
    }
  }

  lemma LoadHandle(s: State, i: nat, st: HandleStep)
    requires CanHandle(s, i, st)
    ensures Load(HandleDo(s, i, st)) <= Load(s)
  {
    OpenMove(s.receipts, i, HandleDo(s, i, st).receipts[i]);
  }

  lemma LoadNack(s: State, i: nat, st: NackStep)
    requires CanNack(s, i, st)
    ensures Load(NackDo(s, i, st)) <= Load(s)
  {
    NackFrame(s, i, st);
    var s' := NackDo(s, i, st);
    assert |s'.channel| + (if s'.receipts[i].phase.Settled? then 0 else 1) <= |s.channel| + 1;
    OpenMove(s.receipts, i, s'.receipts[i]);
  }

  lemma LoadStep(s: State, st: Step)
    requires Locking(s) && Can(s, st)
    ensures Load(Do(s, st)) <= Load(s) + Demand(st)
  {
    match st
    case Producer(p) => LoadProduce(s, p);
    case Call(c) => CallFrame(s, c);
    case Flush(f) => LoadFlush(s, f);
    case Await(a) => LoadAwait(s, a);
    case Handle(i, h) => LoadHandle(s, i, h);
    case Nack(i, n) => LoadNack(s, i, n);
    case _ =>
  }

  /** A run in which nothing is handed to the backend that it has no room for at that moment. */
  ghost predicate Admitted(s: State, steps: seq<Step>)
    requires CanRun(s, steps)
    decreases |steps|
  {
    steps == [] || (&& (Demand(steps[0]) > 0 ==> Load(s) + Demand(steps[0]) <= s.capacity)
                    && Admitted(Do(s, steps[0]), steps[1..]))
  }

  lemma SameCapacity(s: State, st: Step)
    requires Can(s, st)
    ensures Do(s, st).capacity == s.capacity
  {
    if !st.Producer? {
      match st
      case Call(c) => CallFrame(s, c);
      case Flush(f) => FlushFrame(s, f);
      case Await(a) => AwaitFrame(s, a);
      case Handle(i, h) => HandleFrame(s, i, h);
      case Nack(i, n) => NackFrame(s, i, n);
      case _ =>
    }
  }

  lemma {:induction false} LoadRun(s: State, steps: seq<Step>)
    requires Reachable(s) && CanRun(s, steps) && Admitted(s, steps) && Load(s) <= s.capacity
    ensures Load(Run(s, steps)) <= Run(s, steps).capacity && Reachable(Run(s, steps))
    decreases |steps|
  {
    if steps != [] {
      ReachableLocking(s);
      LoadStep(s, steps[0]);
      SameCapacity(s, steps[0]);
      ReachableStep(s, steps[0]);
      LoadRun(Do(s, steps[0]), steps[1..]);
    }
  }

  // ---------- The capacity guarantee ----------

  /** Some task has a message ready to push: a send, the consumer's flush, or a nack. */
  ghost predicate Pushing(s: State) {
    || (exists t :: 0 <= t < |s.tasks| && Running(s.tasks[t]))
    || FlushBuffer(s) != []
    || (exists i: nat :: MidNack(s, i))
  }

  lemma {:induction false} OpenSome(rs: seq<Receipt>, i: nat)
    requires i < |rs| && !rs[i].phase.Settled?
    ensures Open(rs) >= 1
  {
    if i > 0 {
      OpenSome(rs[1..], i - 1);
    }
  }

  lemma {:induction false} UnsentSome(ts: seq<Task>, i: nat)
    requires i < |ts| && Running(ts[i])
    ensures Unsent(ts) >= 1
  {
    if i > 0 {
      UnsentSome(ts[1..], i - 1);
    }
  }

  lemma RoomToPush(s: State)
    requires Load(s) <= s.capacity && Pushing(s)
    ensures HasSlot(s)
  {
    if t :| 0 <= t < |s.tasks| && Running(s.tasks[t]) {
      UnsentSome(s.tasks, t);
    } else if i: nat :| MidNack(s, i) {
      OpenSome(s.receipts, i);
    }
  }

  /** As long as the backend is never handed more than the channel can hold, no send, flush or nack ever
      waits for a slot. */
  lemma CapacityGuarantee(capacity: nat, dlq: Option<U32>, clock: Time, steps: seq<Step>)
    requires capacity >= 1 && CanRun(Init(capacity, dlq, clock), steps)
    requires Admitted(Init(capacity, dlq, clock), steps)
    ensures var s := Run(Init(capacity, dlq, clock), steps);
            && (Pushing(s) ==> HasSlot(s))
            && !Stuck(s)
            && (s.lock != Free ==> exists st: Step :: HolderStep(s, st) && Can(s, st))
  {
    InitLoad(capacity, dlq, clock);
    LoadRun(Init(capacity, dlq, clock), steps);
    HolderRun(Init(capacity, dlq, clock), steps);
    NeverWaits(Run(Init(capacity, dlq, clock), steps));
  }

  lemma InitLoad(capacity: nat, dlq: Option<U32>, clock: Time)
    requires capacity >= 1
    ensures var s := Init(capacity, dlq, clock); Reachable(s) && HolderKnown(s) && Load(s) == 0
  {
    assert Reaches(capacity, dlq, clock, [], Init(capacity, dlq, clock));
    assert Flatten(Init(capacity, dlq, clock).scheduled) == [];
  }

  lemma NeverWaits(s: State)
    requires Reachable(s) && HolderKnown(s) && Load(s) <= s.capacity
    ensures Pushing(s) ==> HasSlot(s)
    ensures !Stuck(s)
    ensures s.lock != Free ==> exists st: Step :: HolderStep(s, st) && Can(s, st)
  {
    if Pushing(s) {
      RoomToPush(s);
    }
    if s.lock != Free {
      ReachableLocking(s);
      HolderMoves(s);
    }
  }

  // ---------- Who holds the lock ----------

  /** The steps open to whoever holds the lock. */
  predicate HolderStep(s: State, st: Step) {
    match s.lock
    case Free => false
    case ByConsumer => st.Flush?
    case ByNack(i) => (st.Nack? && st.i == i) || st == Handle(i, NackRelease)
  }

  ghost predicate HolderKnown(s: State) {
    s.lock.ByNack? ==>
      && s.lock.receipt < |s.receipts|
      && var phase := s.receipts[s.lock.receipt].phase;
         phase.Counting? || phase.Requeueing? || phase.Settled?
  }

  lemma HolderSame(s: State, s': State)
    requires HolderKnown(s) && s'.lock == s.lock && |s.receipts| <= |s'.receipts|
    requires forall i :: 0 <= i < |s.receipts| ==> s'.receipts[i] == s.receipts[i]
    ensures HolderKnown(s')
  {
  }

  lemma HolderHandle(s: State, i: nat, st: HandleStep)
    requires HolderKnown(s) && CanHandle(s, i, st)
    ensures HolderKnown(HandleDo(s, i, st))
  {
  }

  lemma HolderNack(s: State, i: nat, st: NackStep)
    requires HolderKnown(s) && CanNack(s, i, st)
    ensures HolderKnown(NackDo(s, i, st))
  {
    NackFrame(s, i, st);
  }

  lemma HolderKept(s: State, st: Step)
    requires HolderKnown(s) && Can(s, st)
    ensures HolderKnown(Do(s, st))
  {
    match st
    case Producer(p) => HolderSame(s, Produce(s, p));
    case Call(c) => CallFrame(s, c);
    case Flush(f) => FlushFrame(s, f);
    case Await(a) => AwaitHolder(s, a);
    case Handle(i, h) => HolderHandle(s, i, h);
    case Nack(i, n) => HolderNack(s, i, n);
    case _ =>
  }

  lemma AwaitHolder(s: State, st: AwaitStep)
    requires HolderKnown(s) && CanAwait(s, st)
    ensures HolderKnown(AwaitDo(s, st))
  {
    AwaitFrame(s, st);
    if !Delivers(s, st) {
      AwaitSilentFrame(s, st);
    }
    HolderSame(s, AwaitDo(s, st));
  }

  lemma {:induction false} HolderRun(s: State, steps: seq<Step>)
    requires HolderKnown(s) && CanRun(s, steps)
    ensures HolderKnown(Run(s, steps))
    decreases |steps|
  {
    if steps != [] {
      HolderKept(s, steps[0]);
      HolderRun(Do(s, steps[0]), steps[1..]);
    }
  }

  /** The holder of the lock can take its next step unless that is a push and the channel is full. */
  lemma HolderMoves(s: State)
    requires Locking(s) && HolderKnown(s) && s.lock != Free && (Pushing(s) ==> HasSlot(s))
    ensures exists st: Step :: HolderStep(s, st) && Can(s, st)
  {
    match s.lock
    case ByConsumer =>
      var st := Flush(if s.consumer.pc == FlushLocked then SplitDue
      else if FlushBuffer(s) == [] then EndFlush else PushDue);
      assert HolderStep(s, st) && Can(s, st);
    case ByNack(i) =>
      var phase := s.receipts[i].phase;
      assert phase.Requeueing? ==> MidNack(s, i);
      var st := if phase.Counting? then Nack(i, NackCount) else if phase.Requeueing? then Nack(i, NackPush)
      else Handle(i, NackRelease);
      assert HolderStep(s, st) && Can(s, st);
  }

  // ---------- Stuck states ----------

  /** The lock is held across a push that finds the channel full. */
  ghost predicate HolderWaits(s: State) {
    && !s.closed && !HasSlot(s)
    && (FlushBuffer(s) != [] || (s.lock.ByNack? && MidNack(s, s.lock.receipt)))
  }

  /** The consumer gets to take a message out of the channel before it needs the lock again: it is about to look at
      the channel, or has looked and is about to go back to sleep. */
  predicate AboutToPop(s: State) {
    var pc := s.consumer.pc;
    pc == TryRecv || pc.Selecting? || (pc.PastChannel? && s.producers != {})
  }

  ghost predicate Stuck(s: State) {
    HolderWaits(s) && !AboutToPop(s)
  }

  /** The two ways out: dropping the consumer, or a shutdown that cancels `receive_graceful` in the middle
      of its own flush. */
  predicate Escape(s: State, st: Step) {
    st == Call(DropConsumer) || (st == Call(CancelReceive) && s.consumer.pc.Flushing?)
  }

  /** Same waiting holder, same channel, same log, as many deliveries. */
  ghost predicate Frozen(s: State, s': State) {
    && s'.closed == s.closed && s'.capacity == s.capacity && s'.lock == s.lock && s'.consumer == s.consumer
    && s'.channel == s.channel && s'.log == s.log && |s'.receipts| == |s.receipts|
    && (s.lock.ByNack? && s.lock.receipt < |s.receipts| ==>
          s'.receipts[s.lock.receipt] == s.receipts[s.lock.receipt])
  }

  lemma StuckHandle(s: State, i: nat, st: HandleStep)
    requires Locking(s) && Stuck(s) && CanHandle(s, i, st)
    ensures Frozen(s, HandleDo(s, i, st))
  {
  }

  lemma StuckProduce(s: State, st: ProducerStep)
    requires Stuck(s) && CanProduce(s, st)
    ensures Stuck(Produce(s, st)) && Frozen(s, Produce(s, st))
  {
  }

  lemma StuckAwait(s: State, st: AwaitStep)
    requires Locking(s) && Stuck(s) && CanAwait(s, st)
    ensures var s' := AwaitDo(s, st);
            Stuck(s') && s'.channel == s.channel && s'.log == s.log && |s'.receipts| == |s.receipts|
  {
    AwaitSilentFrame(s, st);
  }

  lemma StuckStep(s: State, st: Step)
    requires Locking(s) && Stuck(s) && Can(s, st) && !Escape(s, st)
    ensures Stuck(Do(s, st))
    ensures Do(s, st).channel == s.channel && Do(s, st).log == s.log && |Do(s, st).receipts| == |s.receipts|
  {
    match st
    case Producer(p) => StuckProduce(s, p);
    case Call(c) => CallFrame(s, c);
    case Flush(f) =>
    case Await(a) => StuckAwait(s, a);
    case Handle(i, h) => StuckHandle(s, i, h);
    case Nack(i, n) =>
    case _ =>
  }

  ghost predicate NoEscape(s: State, steps: seq<Step>)
    requires CanRun(s, steps)
    decreases |steps|
  {
    steps == [] || (!Escape(s, steps[0]) && NoEscape(Do(s, steps[0]), steps[1..]))
  }

  /** Nothing is enqueued or received any more. */
  lemma {:induction false} StuckForever(s: State, steps: seq<Step>)
    requires Inv(s) && Stuck(s) && CanRun(s, steps) && NoEscape(s, steps)
    ensures var s' := Run(s, steps);
            Stuck(s') && s'.channel == s.channel && s'.log == s.log && |s'.receipts| == |s.receipts|
    decreases |steps|
  {
    if steps != [] {
      StuckStep(s, steps[0]);
      StepKeepsInv(s, steps[0]);
      StuckForever(Do(s, steps[0]), steps[1..]);
    }
  }

  ghost predicate Frees(s: State, steps: seq<Step>) {
    CanRun(s, steps) && NoEscape(s, steps) && HasSlot(Run(s, steps))
  }

  /** With the lock held across a push into a full channel, a slot can become free if and only if the
      consumer is about to pop. Otherwise the backend is stuck. */
  lemma ExactlyStuck(s: State)
    requires Reachable(s) && HolderWaits(s)
    ensures Stuck(s) <==> !exists steps: seq<Step> :: Frees(s, steps)
  {
    ReachableInv(s);
    if Stuck(s) {
      forall steps: seq<Step> | CanRun(s, steps) && NoEscape(s, steps) ensures !HasSlot(Run(s, steps)) {
        StuckForever(s, steps);
      }
    } else {
      PopFrees(s);
    }
  }

  lemma FreesLater(s: State, st: Step, steps: seq<Step>)
    requires Can(s, st) && !Escape(s, st) && Frees(Do(s, st), steps)
    ensures Frees(s, [st] + steps)
  {
    assert ([st] + steps)[1..] == steps;
  }

  lemma PopFrees(s: State)
    requires Fifo(s) && HolderWaits(s) && !Stuck(s)
    ensures exists steps: seq<Step> :: Frees(s, steps)
  {
    if s.consumer.pc.PastChannel? {
      var awake := AwaitDo(s, Sleep);
      assert Frees(AwaitDo(awake, WakeByMessage), []);
      FreesLater(awake, Await(WakeByMessage), []);
      FreesLater(s, Await(Sleep), [Await(WakeByMessage)] + []);
    } else {
      var st := Await(if s.consumer.pc == TryRecv then Pop else WakeByMessage);
      assert Do(s, st) == Deliver(s) && Frees(Do(s, st), []);
      FreesLater(s, st, []);
    }
  }
}
