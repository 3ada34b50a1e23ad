/** Who can still send: the channel is disconnected when its last sender is gone, which the consumer, holding
    one itself, never sees. */
module Senders {
  import opened Core
  import opened Machine
  import opened Refinement
  import opened Safety
  import opened Blocking

  /** A nack that is done but has not given up the lock, and with it its ack handle, yet. */
  predicate Finishing(s: State) {
    s.lock.ByNack? && s.lock.receipt < |s.receipts| && s.receipts[s.lock.receipt].phase.Settled?
  }

  /** Everybody who holds a sender: the consumer until it is dropped, every producer, and the ack handle of
      every delivery that is still out. */
  function Holders(s: State): nat {
    (if s.closed then 0 else 1) + |s.producers| + Open(s.receipts) + if Finishing(s) then 1 else 0
  }

  /** The reference count counts them. */
  ghost predicate Accurate(s: State) {
    HolderKnown(s) && s.senders == Holders(s)
  }

  lemma AccurateCall(s: State, st: CallStep)
    requires Accurate(s) && CanCall(s, st) && Locking(s)
    ensures Accurate(CallDo(s, st))
  {
    CallFrame(s, st);
  }

  lemma AccurateFlush(s: State, st: FlushStep)
    requires Accurate(s) && CanFlush(s, st) && Locking(s)
    ensures Accurate(FlushDo(s, st))
  {
    FlushFrame(s, st);
  }

  lemma AccurateAwait(s: State, st: AwaitStep)
    requires Accurate(s) && CanAwait(s, st)
    ensures Accurate(AwaitDo(s, st))
  {
    AwaitHolder(s, st);
    if Delivers(s, st) {
      OpenAppend(s.receipts, Receipt(s.channel[0], Held));
    } else {
      AwaitSilentFrame(s, st);
    }
  }

  lemma AccurateHandle(s: State, i: nat, st: HandleStep)
    requires Accurate(s) && CanHandle(s, i, st) && Locking(s)
    ensures Accurate(HandleDo(s, i, st))
  {
    HolderHandle(s, i, st);
    OpenMove(s.receipts, i, HandleDo(s, i, st).receipts[i]);
  }

  lemma AccurateNack(s: State, i: nat, st: NackStep)
    requires Accurate(s) && CanNack(s, i, st) && Locking(s)
    ensures Accurate(NackDo(s, i, st))
  {
    HolderNack(s, i, st);
    NackFrame(s, i, st);
    assert s.lock == ByNack(i);
    OpenMove(s.receipts, i, NackDo(s, i, st).receipts[i]);
  }

  lemma AccurateProduce(s: State, st: ProducerStep)
    requires Accurate(s) && CanProduce(s, st)
    ensures Accurate(Produce(s, st))
  {
    HolderSame(s, Produce(s, st));
  }

  lemma AccurateStep(s: State, st: Step)
    requires Accurate(s) && Can(s, st) && Locking(s)
    ensures Accurate(Do(s, st))
  {
    match st
    case Producer(p) => AccurateProduce(s, p);
    case Call(c) => AccurateCall(s, c);
    case Flush(f) => AccurateFlush(s, f);
    case Await(a) => AccurateAwait(s, a);
    case Handle(i, h) => AccurateHandle(s, i, h);
    case Nack(i, n) => AccurateNack(s, i, n);
    case _ =>
  }

  lemma {:induction false} AccurateRun(s: State, steps: seq<Step>)
    requires Reachable(s) && Accurate(s) && CanRun(s, steps)
    ensures Accurate(Run(s, steps))
    decreases |steps|
  {
    if steps != [] {
      ReachableLocking(s);
      AccurateStep(s, steps[0]);
      ReachableStep(s, steps[0]);
      AccurateRun(Do(s, steps[0]), steps[1..]);
    }
  }

  /** In every reachable state the reference count is the number of those who can still send. */
  lemma SendersCounted(s: State)
    requires Reachable(s)
    ensures s.senders == Holders(s)
  {
    ReachableAccurate(s);
  }

  lemma ReachableAccurate(s: State)
    requires Reachable(s)
    ensures Accurate(s)
  {
    var capacity: nat, dlq: Option<U32>, clock: Time, steps: seq<Step> :| Reaches(capacity, dlq, clock, steps, s);
    assert Reaches(capacity, dlq, clock, [], Init(capacity, dlq, clock));
    AccurateRun(Init(capacity, dlq, clock), steps);
  }

  lemma {:induction false} OpenNone(rs: seq<Receipt>)
    ensures Open(rs) == 0 <==> forall i :: 0 <= i < |rs| ==> rs[i].phase.Settled?
  {
    if rs != [] {
      OpenNone(rs[1..]);
      assert forall i :: 0 < i < |rs| ==> rs[i] == rs[1..][i - 1];
    }
  }

  predicate AllSettled(rs: seq<Receipt>) {
    forall i :: 0 <= i < |rs| ==> rs[i].phase.Settled?
  }

  /** The channel is disconnected exactly when everybody is gone: never while there is a consumer, and without
      it once all producers were dropped and no delivery is out. */
  lemma DisconnectedExactly(s: State)
    requires Reachable(s)
    ensures s.senders == 0 <==> s.closed && s.producers == {} && s.lock == Free && AllSettled(s.receipts)
    ensures !s.closed ==> s.senders >= 1
  {
    ReachableAccurate(s);
    ReachableLocking(s);
    NoHolders(s);
  }

  lemma NoHolders(s: State)
    requires HolderKnown(s) && Locking(s)
    ensures Holders(s) == 0 <==> s.closed && s.producers == {} && s.lock == Free && AllSettled(s.receipts)
  {
    OpenNone(s.receipts);
  }

  // ---------- The arms for a closed channel ----------

  /** `try_receive` was never told that the channel is closed. */
  ghost predicate NeverFailed(calls: seq<Ended>) {
    forall k :: 0 <= k < |calls| && calls[k].mode == Polling ==>
                  calls[k].outcome.Delivered? || calls[k].outcome.NoMessage?
  }

  /** A call that polls is either flushing or about to pop. */
  predicate PollsStraight(c: Consumer) {
    c.mode == Polling ==> c.pc in {Idle, AwaitFlushLock, FlushLocked, TryRecv} || c.pc.Flushing?
  }

  lemma NeverFailedCall(s: State, st: CallStep)
    requires NeverFailed(s.calls) && PollsStraight(s.consumer) && CanCall(s, st)
    ensures NeverFailed(CallDo(s, st).calls) && PollsStraight(CallDo(s, st).consumer)
  {
    CallFrame(s, st);
  }

  lemma NeverFailedAwait(s: State, st: AwaitStep)
    requires NeverFailed(s.calls) && PollsStraight(s.consumer) && CanAwait(s, st) && s.senders != 0
    ensures NeverFailed(AwaitDo(s, st).calls) && PollsStraight(AwaitDo(s, st).consumer)
  {
    AwaitFrame(s, st);
  }

  lemma NeverFailedStep(s: State, st: Step)
    requires NeverFailed(s.calls) && PollsStraight(s.consumer) && Can(s, st)
    requires Holders(s) == s.senders && (s.consumer.pc != Idle ==> !s.closed)
    ensures NeverFailed(Do(s, st).calls) && PollsStraight(Do(s, st).consumer)
  {
    match st
    case Call(c) => NeverFailedCall(s, c);
    case Flush(f) => FlushFrame(s, f);
    case Await(a) => NeverFailedAwait(s, a);
    case _ => OthersKeepConsumer(s, st);
  }

  lemma {:induction false} NeverFailedRun(s: State, steps: seq<Step>)
    requires Reachable(s) && CanRun(s, steps)
    requires NeverFailed(s.calls) && PollsStraight(s.consumer)
    ensures NeverFailed(Run(s, steps).calls)
    decreases |steps|
  {
    if steps != [] {
      ReachableLocking(s);
      SendersCounted(s);
      NeverFailedStep(s, steps[0]);
      ReachableStep(s, steps[0]);
      NeverFailedRun(Do(s, steps[0]), steps[1..]);
    }
  }

  /** No `try_receive` ever failed, in any run: no batch was ever given up half full. */
  lemma TryReceiveNeverFails(s: State)
    requires Reachable(s)
    ensures NeverFailed(s.calls)
  {
    var capacity: nat, dlq: Option<U32>, clock: Time, steps: seq<Step> :| Reaches(capacity, dlq, clock, steps, s);
    assert Reaches(capacity, dlq, clock, [], Init(capacity, dlq, clock));
    NeverFailedRun(Init(capacity, dlq, clock), steps);
  }

  /** The arms for a closed channel are never taken: neither by `try_recv` nor by the select. */
  lemma ClosedArmsAreDead(s: State)
    requires Reachable(s) && s.consumer.pc != Idle
    ensures s.senders != 0 && !CanAwait(s, WakeByClosed)
  {
    DisconnectedExactly(s);
    ReachableLocking(s);
  }
}
