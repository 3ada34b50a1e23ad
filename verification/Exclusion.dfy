/** What the mutex protects: while somebody holds it, nobody else changes what is behind it. */
module Exclusion {
  import opened Core
  import opened Schedule
  import B = Broker
  import opened Machine
  import opened Refinement
  import opened Safety

  /** The steps of whoever holds the lock. */
  predicate ByHolder(lock: Lock, st: Step) {
    match lock
    case Free => false
    case ByConsumer => ConsumerStep(st)
    case ByNack(i) => (st.Nack? && st.i == i) || (st.Handle? && st.i == i)
  }

  ghost predicate Protected(s: State, s': State) {
    && s'.lock == s.lock && s'.dlq == s.dlq && s'.nackCounts == s.nackCounts && s'.scheduled == s.scheduled
    && (s.lock.ByConsumer? ==> s'.consumer == s.consumer)
    && (s.lock.ByNack? ==>
          && s.lock.receipt < |s.receipts| && s.lock.receipt < |s'.receipts|
          && s'.receipts[s.lock.receipt] == s.receipts[s.lock.receipt])
  }

  lemma CallProtects(s: State, st: CallStep)
    requires Locking(s) && s.lock.ByNack? && CanCall(s, st)
    ensures Protected(s, CallDo(s, st))
  {
    CallFrame(s, st);
  }

  lemma AwaitProtects(s: State, st: AwaitStep)
    requires Locking(s) && s.lock.ByNack? && CanAwait(s, st)
    ensures Protected(s, AwaitDo(s, st))
  {
    if !Delivers(s, st) {
      AwaitSilentFrame(s, st);
    }
  }

  lemma HandleProtects(s: State, i: nat, st: HandleStep)
    requires Locking(s) && s.lock != Free && CanHandle(s, i, st) && s.lock != ByNack(i)
    ensures Protected(s, HandleDo(s, i, st))
  {
    HandleFrame(s, i, st);
  }

  lemma ProduceProtects(s: State, st: ProducerStep)
    requires Locking(s) && s.lock != Free && CanProduce(s, st)
    ensures Protected(s, Produce(s, st))
  {
  }

  lemma LockProtects(s: State, st: Step)
    requires Locking(s) && s.lock != Free && Can(s, st) && !ByHolder(s.lock, st)
    ensures Protected(s, Do(s, st))
  {
    match st
    case Producer(p) => ProduceProtects(s, p);
    case Call(c) => CallProtects(s, c);
    case Flush(f) =>
    case Await(a) => AwaitProtects(s, a);
    case Handle(i, h) => HandleProtects(s, i, h);
    case Nack(i, n) =>
    case _ =>
  }

  /** While the lock is held, the counters, the schedule and what the holder is about stay as they are, whatever the
      others do. */
  lemma {:induction false} LockProtectsRun(s: State, steps: seq<Step>)
    requires Reachable(s) && s.lock != Free && CanRun(s, steps)
    requires forall k :: 0 <= k < |steps| ==> !ByHolder(s.lock, steps[k])
    ensures Protected(s, Run(s, steps))
    decreases |steps|
  {
    ReachableLocking(s);
    if steps != [] {
      LockProtects(s, steps[0]);
      ReachableStep(s, steps[0]);
      LockProtectsRun(Do(s, steps[0]), steps[1..]);
    }
  }

  // ---------- A nack amid others ----------

  function Attempt(s: State, e: Envelope): Verdict {
    Judge(s.dlq, Tally(Counted(s.nackCounts, e.id), e.id), e)
  }

  /** The nack of `e` that took the lock in `s` has counted itself, reached its verdict, and holds the lock still. */
  ghost predicate NackUnderWay(s: State, s': State, i: nat, e: Envelope) {
    && i < |s'.receipts| && s'.lock == ByNack(i)
    && s'.receipts[i].env == e
    && s'.nackCounts == Counted(s.nackCounts, e.id)
    && match Attempt(s, e)
       case Requeue(r) => s'.receipts[i].phase == Requeueing(r)
       case DeadLetter(_) => s'.receipts[i].phase.Settled?
       case Discard => s'.receipts[i].phase.Settled?
  }

  /** Between taking the lock and counting nothing others do matters. */
  lemma NackCounts(s: State, i: nat, steps: seq<Step>)
    requires Reachable(s) && CanHandle(s, i, NackLock)
    requires CanRun(HandleDo(s, i, NackLock), steps)
    requires forall k :: 0 <= k < |steps| ==> !ByHolder(ByNack(i), steps[k])
    ensures var locked := Run(HandleDo(s, i, NackLock), steps);
            && CanNack(locked, i, NackCount)
            && NackUnderWay(s, NackDo(locked, i, NackCount), i, s.receipts[i].env)
  {
    ReachableStep(s, Handle(i, NackLock));
    LockProtectsRun(HandleDo(s, i, NackLock), steps);
    LockedCounts(s, Run(HandleDo(s, i, NackLock), steps), i);
  }

  lemma LockedCounts(s: State, locked: State, i: nat)
    requires CanHandle(s, i, NackLock) && Protected(HandleDo(s, i, NackLock), locked)
    ensures CanNack(locked, i, NackCount)
    ensures NackUnderWay(s, NackDo(locked, i, NackCount), i, s.receipts[i].env)
  {
    CountFrame(locked, i);
    assert NackVerdict(locked, i) == Attempt(s, s.receipts[i].env);
  }

  /** The whole of a nack amid everything others do: `first` before it counts, `second` while it waits for a slot. The
      counter and the verdict are those of the moment it took the lock. A redelivery is pushed once, behind what is in
      the channel by then, as soon as there is a slot or no receiver, and until then the lock is kept. */
  lemma NackAmidOthers(s: State, i: nat, first: seq<Step>, second: seq<Step>)
    requires Reachable(s) && CanHandle(s, i, NackLock)
    requires CanRun(HandleDo(s, i, NackLock), first)
    requires forall k :: 0 <= k < |first| ==> !ByHolder(ByNack(i), first[k])
    requires forall k :: 0 <= k < |second| ==> !ByHolder(ByNack(i), second[k])
    ensures var locked, e := Run(HandleDo(s, i, NackLock), first), s.receipts[i].env;
            && CanNack(locked, i, NackCount)
            && (CanRun(NackDo(locked, i, NackCount), second) ==>
                  var s' := Run(NackDo(locked, i, NackCount), second);
                  && NackUnderWay(s, s', i, e)
                  && (!Attempt(s, e).Requeue? ==> CanHandle(s', i, NackRelease))
                  && (Attempt(s, e).Requeue? ==>
                        && (CanNack(s', i, NackPush) <==> s'.closed || HasSlot(s'))
                        && (CanNack(s', i, NackPush) ==>
                              var pushed := NackDo(s', i, NackPush);
                              && pushed.channel == s'.channel + (if s'.closed then [] else [Redelivery(e)])
                              && CanHandle(pushed, i, NackRelease))))
  {
    NackCounts(s, i, first);
    var locked := Run(HandleDo(s, i, NackLock), first);
    var counted := NackDo(locked, i, NackCount);
    if CanRun(counted, second) {
      ReachableStep(s, Handle(i, NackLock));
      ReachableRun(HandleDo(s, i, NackLock), first);
      ReachableStep(locked, Nack(i, NackCount));
      LockProtectsRun(counted, second);
      NackEnds(s, Run(counted, second), i, s.receipts[i].env);
    }
  }

  lemma NackEnds(s: State, s': State, i: nat, e: Envelope)
    requires NackUnderWay(s, s', i, e)
    ensures !Attempt(s, e).Requeue? ==> CanHandle(s', i, NackRelease)
    ensures Attempt(s, e).Requeue? ==>
              && (CanNack(s', i, NackPush) <==> s'.closed || HasSlot(s'))
              && (CanNack(s', i, NackPush) ==>
                    var pushed := NackDo(s', i, NackPush);
                    && pushed.channel == s'.channel + (if s'.closed then [] else [Redelivery(e)])
                    && CanHandle(pushed, i, NackRelease))
  {
  }

  // ---------- A flush amid others ----------

  /** What flushes pushed, in log order. */
  function FlushedIn(log: seq<B.Record>): seq<Envelope> {
    if log == [] then []
    else
      var last := log[|log| - 1];
      FlushedIn(log[..|log| - 1]) + if last.via.ByFlush? then [last.env] else []
  }

  lemma {:induction false} FlushedConcat(a: seq<B.Record>, b: seq<B.Record>)
    ensures FlushedIn(a + b) == FlushedIn(a) + FlushedIn(b)
  {
    if b == [] {
      assert a + b == a;
    } else {
      var n := |b| - 1;
      FlushedConcat(a, b[..n]);
      assert (a + b)[..|a + b| - 1] == a + b[..n];
    }
  }

  predicate Flushes(s: State) {
    s.consumer.pc.Flushing?
  }

  /** From `s` to `s'` the flush has pushed the due messages in their order up to those still in its buffer; the
      channel gained what the log gained, and of that the flush pushed just these; the schedule is as it was. */
  ghost predicate FlushGoesOn(s: State, s': State)
    requires Flushes(s) && Flushes(s')
  {
    var due, rest := s.consumer.pc.due, s'.consumer.pc.due;
    && s'.consumer.pc.now == s.consumer.pc.now && s'.scheduled == s.scheduled
    && |rest| <= |due| && rest == due[|due| - |rest|..]
    && s.log <= s'.log && s'.channel == s.channel + Enqueued(s'.log[|s.log|..])
    && FlushedIn(s'.log[|s.log|..]) == Envelopes(due[..|due| - |rest|])
  }

  /** A step of others, or one push. */
  predicate Pushing(st: Step) {
    !ConsumerStep(st) || st == Flush(PushDue)
  }

  lemma OthersLog(s: State, st: Step)
    requires Can(s, st) && !ConsumerStep(st) && !s.closed
    ensures var s' := Do(s, st);
            || (s'.log == s.log && s'.channel == s.channel)
            || exists r: B.Record :: !r.via.ByFlush? && s'.log == s.log + [r] && s'.channel == s.channel + [r.env]
    ensures Do(s, st).closed == s.closed
  {
    match st
    case Producer(p) =>
      if p.PushSend? {
        var e := s.tasks[p.t].batch[s.tasks[p.t].sent];
        assert Do(s, st).log == s.log + [B.Record(e, B.BySend(p.t))];
      }
    case Handle(i, h) => HandleFrame(s, i, h);
    case Nack(i, n) => NackLog(s, i, n);
    case _ =>
  }

  lemma NackLog(s: State, i: nat, st: NackStep)
    requires CanNack(s, i, st) && !s.closed
    ensures var s' := NackDo(s, i, st);
            || (s'.log == s.log && s'.channel == s.channel)
            || exists r: B.Record :: !r.via.ByFlush? && s'.log == s.log + [r] && s'.channel == s.channel + [r.env]
    ensures NackDo(s, i, st).closed == s.closed
  {
    NackFrame(s, i, st);
    if st == NackPush {
      var r := B.Record(s.receipts[i].phase.requeued, B.ByNack(i));
      assert NackDo(s, i, st).log == s.log + [r];
    } else {
      CountFrame(s, i);
    }
  }

  lemma FlushGoesOnStep(s: State, st: Step)
    requires Locking(s) && Flushes(s) && Can(s, st) && Pushing(st)
    ensures Flushes(Do(s, st)) && FlushGoesOn(s, Do(s, st))
  {
    var s' := Do(s, st);
    if st == Flush(PushDue) {
      var r := s'.log[|s.log|];
      assert s'.log[|s.log|..] == [r];
      FlushedOne(r);
      assert s.consumer.pc.due[..1] == [s.consumer.pc.due[0]];
    } else {
      LockProtects(s, st);
      OthersLog(s, st);
      if s'.log != s.log {
        assert s'.log[|s.log|..] == [s'.log[|s.log|]];
        FlushedOne(s'.log[|s.log|]);
      } else {
        assert s'.log[|s.log|..] == [];
      }
    }
  }

  lemma FlushedOne(r: B.Record)
    ensures FlushedIn([r]) == if r.via.ByFlush? then [r.env] else []
  {
    assert [r][..0] == [];
  }

  lemma LogTwice(log: seq<B.Record>, log': seq<B.Record>, log'': seq<B.Record>)
    requires log <= log' <= log''
    ensures Enqueued(log''[|log|..]) == Enqueued(log'[|log|..]) + Enqueued(log''[|log'|..])
    ensures FlushedIn(log''[|log|..]) == FlushedIn(log'[|log|..]) + FlushedIn(log''[|log'|..])
  {
    assert log''[|log|..] == log'[|log|..] + log''[|log'|..];
    FlushedConcat(log'[|log|..], log''[|log'|..]);
  }

  lemma DueTwice(due: seq<Entry>, mid: seq<Entry>, rest: seq<Entry>)
    requires |rest| <= |mid| <= |due| && mid == due[|due| - |mid|..] && rest == mid[|mid| - |rest|..]
    ensures rest == due[|due| - |rest|..]
    ensures Envelopes(due[..|due| - |rest|]) == Envelopes(due[..|due| - |mid|]) + Envelopes(mid[..|mid| - |rest|])
  {
    assert due[..|due| - |rest|] == due[..|due| - |mid|] + mid[..|mid| - |rest|];
  }

  lemma FlushGoesOnTwice(s: State, s': State, s'': State)
    requires Flushes(s) && Flushes(s') && Flushes(s'')
    requires FlushGoesOn(s, s') && FlushGoesOn(s', s'')
    ensures FlushGoesOn(s, s'')
  {
    var a, b := Enqueued(s'.log[|s.log|..]), Enqueued(s''.log[|s'.log|..]);
    LogTwice(s.log, s'.log, s''.log);
    assert s''.channel == s.channel + a + b == s.channel + (a + b);
    DueTwice(s.consumer.pc.due, s'.consumer.pc.due, s''.consumer.pc.due);
  }

  /** A flush amid everything others do pushes what is due, each message once and in order. */
  lemma {:induction false} FlushAmidOthers(s: State, steps: seq<Step>)
    requires Reachable(s) && Flushes(s) && CanRun(s, steps)
    requires forall k :: 0 <= k < |steps| ==> Pushing(steps[k])
    ensures Flushes(Run(s, steps)) && FlushGoesOn(s, Run(s, steps))
    decreases |steps|
  {
    if steps == [] {
      assert s.log[|s.log|..] == [];
    } else {
      ReachableLocking(s);
      FlushGoesOnStep(s, steps[0]);
      ReachableStep(s, steps[0]);
      FlushAmidOthers(Do(s, steps[0]), steps[1..]);
      FlushGoesOnTwice(s, Do(s, steps[0]), Run(s, steps));
    }
  }
}
