/** The producer and the ack handle of the in-memory backend. */
module Endpoints {
  import opened Core
  import opened Schedule
  import opened Worlds
  import opened Memory
  import B = Broker
  import M = Machine
  import At = Attempts
  import O = Order
  import Sa = Safety

  // ---------- dlq.rs ----------

  /** `DlqConfig::new`; `None` stands for the panic on a limit below 1. */
  function NewDlqConfig(max: U32): (r: Option<U32>)
    ensures r.Some? <==> max >= 1
    ensures r.Some? ==> r.value == max && MaxAttempts(r) == max
  {
    if max >= 1 then Some(max) else None
  }

  // ---------- ack.rs ----------

  /** The limits as the source has them: the configured one, or the largest u32. */
  predicate BelowLimit(dlq: Option<U32>, count: U32) {
    count < match dlq case None => 0xFFFF_FFFF case Some(max) => max
  }

  /** What a nack that is done came to. */
  predicate Judged(s: M.State, i: nat) {
    && i < |s.receipts| && s.receipts[i].phase.Settled?
    && var count, fate := s.receipts[i].env.count, s.receipts[i].phase.fate;
       if BelowLimit(s.dlq, count) then fate in {B.Requeued, B.ClosedDropped}
       else fate == if s.dlq.Some? then B.DeadLettered else B.LimitDropped
  }

  /** What the machine does when a nack counts itself, in terms of what the code looks at. */
  lemma CountDoes(s: M.State, i: nat)
    requires M.Reachable(s) && M.CanNack(s, i, M.NackCount)
    ensures var s', e := M.NackDo(s, i, M.NackCount), s.receipts[i].env;
            var max := match s.dlq case Some(m) => m case None => U32_MAX;
            var count := Inc(if e.id in s.nackCounts then s.nackCounts[e.id] else 0);
            && s.lock == M.ByNack(i)
            && s' == s.(nackCounts := s.nackCounts[e.id := count], receipts := s'.receipts,
                        deadLetters := s'.deadLetters)
            && s'.receipts == s.receipts[i := s.receipts[i].(phase := s'.receipts[i].phase)]
            && if count >= max then Judged(s', i)
               else s'.receipts[i].phase == M.Requeueing(e.(count := Inc(e.count))) && Requeues(s', i)
  {
    At.LimitInForce(s, i);
    Sa.ReachableLocking(s);
    M.CountFrame(s, i);
  }

  lemma PushDoes(s: M.State, i: nat)
    requires M.CanNack(s, i, M.NackPush) && Requeues(s, i)
    ensures var s' := M.NackDo(s, i, M.NackPush);
            && s' == s.(channel := if s.closed then s.channel else s.channel + [s.receipts[i].phase.requeued],
                        receipts := s'.receipts, log := s'.log)
            && Judged(s', i) && s'.receipts[i].env == s.receipts[i].env && |s'.receipts| == |s.receipts|
            && (!s.closed ==> Requeued(s', i, s.receipts[i].phase.requeued))
  {
  }

  /** Holds a sender of the channel until the delivery it belongs to is resolved. */
  class MemoryAckHandle {
    const envelope: Envelope
    const requeueTx: Channel
    const shared: SharedState
    const w: World
    const number: nat

    constructor (envelope: Envelope, w: World, number: nat)
      modifies w.ch`senders
      ensures this.envelope == envelope && requeueTx == w.ch && shared == w.shared
      ensures this.w == w && this.number == number
      ensures w.ch.senders == old(w.ch.senders) + 1
    {
      this.envelope, requeueTx, shared, this.w, this.number := envelope, w.ch, w.shared, w, number;
      new;
      w.ch.CloneSender();
    }

    /** The handle of delivery `number` of the world, which is in the hands of this task. */
    predicate Works()
      reads w
    {
      && requeueTx == w.ch && shared == w.shared && TheDelivery(number) in w.mine
      && number < |w.s.receipts| && w.s.receipts[number].env == envelope
    }

    predicate Phase(phase: M.Phase)
      reads w
    {
      number < |w.s.receipts| && w.s.receipts[number].phase == phase
    }

    /** One step of the nack that does not wait: asking for the lock. */
    method Call(ghost c0: Config)
      requires w.Valid() && Works() && Phase(M.Held) && Played(c0, w.Now(), TheDelivery(number))
      modifies w, w.ch, w.shared, w.shutdown
      ensures w.Valid() && Works() && Phase(M.AwaitLock) && Played(c0, w.Now(), TheDelivery(number))
    {
      w.Begin(TheDelivery(number), c0);
      M.HandleFrame(w.s, number, M.NackCall);
      w.Step(M.Handle(number, M.NackCall), TheDelivery(number), c0);
    }

    method Lock(ghost c0: Config) returns (o: Wakeup)
      requires w.Valid() && Works() && Phase(M.AwaitLock) && Played(c0, w.Now(), TheDelivery(number))
      modifies w, w.ch, w.shared, w.shutdown
      ensures w.Valid() && Works() && w.Came(o, TheDelivery(number), c0) && (o == Go ==> Phase(M.Counting))
    {
      o := w.AwaitLock(TheDelivery(number), false, c0);
      if o == Go {
        assert Phase(M.AwaitLock);
        LockNow(c0);
      }
    }

    method LockNow(ghost c0: Config)
      requires w.Valid() && Works() && Phase(M.AwaitLock) && w.InTurn(TheDelivery(number), c0) && shared.lock == M.Free
      modifies w, shared
      ensures w.Valid() && Works() && Phase(M.Counting) && Played(c0, w.Now(), TheDelivery(number))
    {
      M.HandleFrame(w.s, number, M.NackLock);
      shared.lock := M.ByNack(number);
      w.Step(M.Handle(number, M.NackLock), TheDelivery(number), c0);
    }

    method Count(ghost c0: Config) returns (requeued: Option<Envelope>)
      requires w.Valid() && Works() && Phase(M.Counting) && Played(c0, w.Now(), TheDelivery(number))
      modifies w, w.ch, w.shared, w.shutdown
      ensures w.Valid() && Works() && Played(c0, w.Now(), TheDelivery(number))
      ensures w.s.lock == M.ByNack(number)
      ensures if requeued.Some? then Phase(M.Requeueing(requeued.value)) && Requeues(w.s, number)
              else Judged(w.s, number)
    {
      w.Begin(TheDelivery(number), c0);
      assert Phase(M.Counting);
      requeued := CountNow(c0);
    }

    /** Counts and judges; `requeued` is what is to be pushed back. A dead letter goes to a channel whose receiver was
        dropped when the pair was built, so it leaves no trace but in the history. */
    method CountNow(ghost c0: Config) returns (requeued: Option<Envelope>)
      requires w.Valid() && Works() && Phase(M.Counting) && w.InTurn(TheDelivery(number), c0)
      modifies w, shared
      ensures w.Valid() && Works() && Played(c0, w.Now(), TheDelivery(number))
      ensures w.s.lock == M.ByNack(number)
      ensures if requeued.Some? then Phase(M.Requeueing(requeued.value)) && Requeues(w.s, number)
              else Judged(w.s, number)
    {
      CountDoes(w.s, number);
      ghost var after := M.NackDo(w.s, number, M.NackCount);
      var max := match shared.dlq case Some(m) => m case None => U32_MAX;
      var count := if envelope.id in shared.nackCounts then shared.nackCounts[envelope.id] else 0;
      count := Inc(count);
      shared.nackCounts := shared.nackCounts[envelope.id := count];
      if count >= max {
        requeued := None;
      } else {
        requeued := Some(envelope.(count := Inc(envelope.count)));
      }
      assert w.Coupled(after);
      w.Step(M.Nack(number, M.NackCount), TheDelivery(number), c0);
    }

    method Push(requeued: Envelope, ghost c0: Config) returns (o: Wakeup)
      requires w.Valid() && Works() && Phase(M.Requeueing(requeued)) && Requeues(w.s, number)
      requires Played(c0, w.Now(), TheDelivery(number)) && w.s.lock == M.ByNack(number)
      modifies w, w.ch, w.shared, w.shutdown
      ensures w.Valid() && Works() && w.Came(o, TheDelivery(number), c0)
      ensures o == Go ==> Judged(w.s, number) && w.s.lock == M.ByNack(number)
      ensures o == Go && w.ch.open ==> Requeued(w.s, number, requeued)
    {
      o := w.AwaitSlot(TheDelivery(number), false, c0);
      if o == Go {
        assert w.s.lock == M.ByNack(number) && w.s.receipts[number].phase == M.Requeueing(requeued);
        PushNow(requeued, c0);
      }
    }

    method PushNow(requeued: Envelope, ghost c0: Config)
      requires w.Valid() && Works() && Phase(M.Requeueing(requeued)) && Requeues(w.s, number)
      requires w.InTurn(TheDelivery(number), c0) && w.s.lock == M.ByNack(number)
      requires M.CanNack(w.s, number, M.NackPush)
      modifies w, w.ch
      ensures w.Valid() && Works() && Played(c0, w.Now(), TheDelivery(number))
      ensures Judged(w.s, number) && w.s.lock == M.ByNack(number)
      ensures w.ch.open ==> Requeued(w.s, number, requeued)
    {
      PushDoes(w.s, number);
      ghost var after := M.NackDo(w.s, number, M.NackPush);
      var sent := requeueTx.Send(requeued);
      assert w.Coupled(after);
      w.Step(M.Nack(number, M.NackPush), TheDelivery(number), c0);
    }

    method Release(ghost c0: Config)
      requires w.Valid() && Works() && Judged(w.s, number) && w.s.lock == M.ByNack(number)
      requires Played(c0, w.Now(), TheDelivery(number))
      modifies w, w.ch, w.shared, w.shutdown
      ensures w.Valid() && Works() && Judged(w.s, number) && Finished(w.s, TheDelivery(number))
      ensures Played(c0, w.Now(), TheDelivery(number))
    {
      w.Begin(TheDelivery(number), c0);
      assert Judged(w.s, number) && w.s.lock == M.ByNack(number);
      ReleaseNow(c0);
    }

    /** The lock goes, and with the delivery its handle. */
    method ReleaseNow(ghost c0: Config)
      requires w.Valid() && Works() && Judged(w.s, number) && w.s.lock == M.ByNack(number)
      requires w.InTurn(TheDelivery(number), c0)
      modifies w, w.ch, shared
      ensures w.Valid() && Works() && Judged(w.s, number) && Finished(w.s, TheDelivery(number))
      ensures Played(c0, w.Now(), TheDelivery(number))
    {
      M.HandleFrame(w.s, number, M.NackRelease);
      shared.lock := M.Free;
      requeueTx.DropSender();
      w.Step(M.Handle(number, M.NackRelease), TheDelivery(number), c0);
    }

    /** Counts once, judges by the limit, and pushes the redelivery back, with the lock held until it is in the
        channel. Not `done`: it waits for ever. */
    method Nack() returns (done: bool)
      requires w.Valid() && Works() && Phase(M.Held)
      modifies w, w.ch, w.shared, w.shutdown
      ensures w.Valid() && Works() && Played(old(w.Now()), w.Now(), TheDelivery(number))
      ensures if done then Finished(w.s, TheDelivery(number)) && Judged(w.s, number)
              else Stalled(w.Now(), TheDelivery(number))
      ensures At.EnqueuedBy(w.s.log, number) == if w.s.receipts[number].phase == M.Settled(B.Requeued) then 1 else 0
    {
      ghost var c0 := w.Now();
      PlayedNothing(c0, TheDelivery(number));
      Call(c0);
      var o := Lock(c0);
      done := false;
      if o == Go {
        var requeued := Count(c0);
        if requeued.Some? {
          o := Push(requeued.value, c0);
        }
        if o == Go {
          Release(c0);
          done := true;
        }
      }
      At.RequeuedOnce(w.s, number);
    }
  }

  /** The limit has let delivery `i` through. */
  predicate Requeues(s: M.State, i: nat) {
    i < |s.receipts| && BelowLimit(s.dlq, s.receipts[i].env.count)
  }

  /** The redelivery is the newest entry of the log. */
  predicate Requeued(s: M.State, i: nat, e: Envelope) {
    s.log != [] && s.log[|s.log| - 1] == B.Record(e, B.ByNack(i))
  }

  // ---------- delivery.rs ----------

  /** A delivery; `ack` and `nack` take it by value, which is what `resolved` keeps track of. */
  class Delivery {
    const envelope: Envelope
    const ackHandle: MemoryAckHandle
    var resolved: bool

    constructor (e: Envelope, w: World, number: nat)
      modifies w.ch`senders
      ensures envelope == e && ackHandle.envelope == e && ackHandle.number == number && ackHandle.w == w
      ensures ackHandle.requeueTx == w.ch && ackHandle.shared == w.shared
      ensures !resolved && w.ch.senders == old(w.ch.senders) + 1 && fresh(ackHandle)
    {
      envelope, resolved := e, false;
      ackHandle := new MemoryAckHandle(e, w, number);
    }

    /** A delivery of the world `w`, for which nothing has been done yet. */
    predicate Open(w: World)
      reads this, w
    {
      && !resolved && ackHandle.w == w && ackHandle.envelope == envelope
      && ackHandle.Works() && ackHandle.Phase(M.Held)
    }

    method Ack()
      requires ackHandle.w.Valid() && Open(ackHandle.w)
      modifies this`resolved, ackHandle.w, ackHandle.w.ch
      ensures resolved && ackHandle.w.Valid()
      ensures ackHandle.w.Now() == Took(old(ackHandle.w.Now()), M.Handle(ackHandle.number, M.Ack))
    {
      resolved := true;
      ackHandle.requeueTx.DropSender();
      ackHandle.w.Take(M.Handle(ackHandle.number, M.Ack));
    }

    method Nack() returns (done: bool)
      requires ackHandle.w.Valid() && Open(ackHandle.w)
      modifies this`resolved, ackHandle.w, ackHandle.w.ch, ackHandle.w.shared, ackHandle.w.shutdown
      ensures var w, i := ackHandle.w, ackHandle.number;
              && resolved && w.Valid() && ackHandle.Works() && Played(old(w.Now()), w.Now(), TheDelivery(i))
              && (if done then Finished(w.s, TheDelivery(i)) && Judged(w.s, i) else Stalled(w.Now(), TheDelivery(i)))
              && At.EnqueuedBy(w.s.log, i) == if w.s.receipts[i].phase == M.Settled(B.Requeued) then 1 else 0
    {
      resolved := true;
      done := ackHandle.Nack();
    }
  }

  // ---------- producer.rs ----------

  datatype Message = Message(body: Body)

  datatype SendResult = SentAs(id: Id) | SendFailed(kind: ErrorKind) | WaitsForever

  datatype BatchResult = SentAll(ids: seq<Id>) | BatchFailed(kind: ErrorKind) | BatchWaitsForever

  /** A batch whose envelopes are numbered by the ids the source draws one by one. */
  function Envelop(messages: seq<Message>, ids: seq<Id>, now: Time): seq<Envelope>
    requires |messages| == |ids|
  {
    seq(|messages|, i requires 0 <= i < |messages| => Envelope(ids[i], messages[i].body, 1, now))
  }

  /** Ids nobody has used so far. */
  predicate Fresh(ids: seq<Id>, s: M.State) {
    (forall i, j :: 0 <= i < j < |ids| ==> ids[i] != ids[j]) && forall k :: 0 <= k < |ids| ==> ids[k] !in s.issued
  }

  /** Nothing has happened but that these envelopes were pushed. */
  predicate OnlyPushed(c: Config, c': Config, sent: seq<Envelope>) {
    && c'.script == c.script && c.mine <= c'.mine && c'.s.channel == c.s.channel + sent
    && c'.s.lock == c.s.lock && c'.s.shutdown == c.s.shutdown && c'.s.scheduled == c.s.scheduled
    && c'.s.clock == c.s.clock && c'.s.consumer == c.s.consumer && c'.s.closed == c.s.closed
    && c'.s.capacity == c.s.capacity && c'.s.receipts == c.s.receipts && c'.s.calls == c.s.calls
  }

  lemma PushedOn(c: Config, mid: Config, c': Config, batch: seq<Envelope>, sent: nat, o: SendOutcome)
    requires sent < |batch| && (c.script == [] ==> OnlyPushed(c, mid, batch[..sent]))
    requires mid.script == [] ==> OnlyPushed(mid, c', if o == Sent then [batch[sent]] else [])
    ensures c.script == [] ==> OnlyPushed(c, c', batch[..if o == Sent then sent + 1 else sent])
  {
    if c.script == [] {
      assert batch[..sent + 1] == batch[..sent] + [batch[sent]];
      assert c.s.channel + batch[..sent] + [batch[sent]] == c.s.channel + (batch[..sent] + [batch[sent]]);
    }
  }

  /** The lock, once it is free; the others go on until then. */
  function Unlocked(c: Config): Config
    decreases |c.script|
  {
    var g := AfterGap(c);
    if c.script == [] || g.s.lock == M.Free then g else Unlocked(g.(waited := true))
  }

  /** The script of the others does not use `id`. */
  predicate Unused(script: seq<Gap>, id: Id) {
    forall g, k :: 0 <= g < |script| && 0 <= k < |script[g].steps| ==> !Uses(script[g].steps[k], id)
  }

  predicate Uses(st: M.Step, id: Id) {
    st.Producer? &&
    match st.p
    case StartBatch(_, batch) => exists k :: 0 <= k < |batch| && batch[k].id == id
    case SendAt(_, e, _) => e.id == id
    case _ => false
  }

  lemma {:induction false} UnusedStays(s: M.State, mine: set<Actor>, steps: seq<M.Step>, id: Id)
    requires id !in s.issued && forall k :: 0 <= k < |steps| ==> !Uses(steps[k], id)
    ensures id !in Replay(s, mine, steps).issued
    decreases |steps|
  {
    if steps != [] {
      if !steps[0].Producer? && M.Can(s, steps[0]) {
        M.OthersFrame(s, steps[0]);
      }
      UnusedStays(Let(s, mine, steps[0]), mine, steps[1..], id);
    }
  }

  class MemoryProducer {
    const tx: Channel
    const shared: SharedState
    const w: World
    const p: nat

    constructor (w: World, p: nat)
      ensures tx == w.ch && shared == w.shared && this.w == w && this.p == p
    {
      tx, shared, this.w, this.p := w.ch, w.shared, w, p;
    }

    predicate Works()
      reads w
    {
      tx == w.ch && shared == w.shared && TheProducer(p) in w.mine && p in w.s.producers
    }

    /** Task `t` is sending `batch` and has got to message `sent` of it. */
    predicate Sending(t: nat, batch: seq<Envelope>, sent: nat, failed: bool)
      reads w
    {
      Works() && TheTask(t) in w.mine && t < |w.s.tasks| && w.s.tasks[t] == M.Task(p, batch, sent, failed)
    }

    /** One send of a batch, waiting for a slot. `Full`: there never is one. */
    method SendOne(t: nat, batch: seq<Envelope>, sent: nat, ghost c0: Config) returns (o: SendOutcome)
      requires w.Valid() && Sending(t, batch, sent, false) && sent < |batch| && Played(c0, w.Now(), TheTask(t))
      modifies w, w.ch, w.shared, w.shutdown
      ensures w.Valid() && Sending(t, batch, if o == Sent then sent + 1 else sent, o == NoReceiver)
      ensures Played(c0, w.Now(), TheTask(t)) && (o == Full ==> Stalled(w.Now(), TheTask(t)))
      ensures o == NoReceiver ==> !w.ch.open
      ensures old(w.script) == [] ==>
                OnlyPushed(old(w.Now()), w.Now(), if o == Sent then [batch[sent]] else [])
                && (o == Full ==> |w.ch.queue| >= w.ch.capacity)
    {
      var ready := w.AwaitSlot(TheTask(t), false, c0);
      if ready != Go {
        return Full;
      }
      o := SendNow(t, batch, sent, c0);
    }

    method SendNow(t: nat, batch: seq<Envelope>, sent: nat, ghost c0: Config) returns (o: SendOutcome)
      requires w.Valid() && Sending(t, batch, sent, false) && sent < |batch| && w.InTurn(TheTask(t), c0)
      requires !w.ch.open || |w.ch.queue| < w.ch.capacity
      modifies w, w.ch
      ensures w.Valid() && o != Full && Sending(t, batch, if o == Sent then sent + 1 else sent, o == NoReceiver)
      ensures Played(c0, w.Now(), TheTask(t)) && (o == NoReceiver ==> !w.ch.open)
      ensures OnlyPushed(old(w.Now()), w.Now(), if o == Sent then [batch[sent]] else [])
    {
      o := tx.Send(batch[sent]);
      if o == Sent {
        w.Step(M.Producer(M.PushSend(t)), TheTask(t), c0);
      } else {
        w.Step(M.Producer(M.FailSend(t)), TheTask(t), c0);
      }
    }

    /** One message: the id of what is enqueued, an error without a receiver. */
    method Send(message: Message, id: Id, now: Time) returns (r: SendResult)
      requires w.Valid() && Works() && Fresh([id], w.s)
      modifies w, w.ch, w.shared, w.shutdown
      ensures var t, batch := |old(w.s.tasks)|, Envelop([message], [id], now);
              && w.Valid() && M.CanProduce(old(w.s), M.StartBatch(p, batch))
              && Played(Started(old(w.Now()), p, batch), w.Now(), TheTask(t))
              && (match r
                  case SentAs(i) => i == id && Sending(t, batch, 1, false)
                  case SendFailed(kind) => kind == ConnectionLost && Sending(t, batch, 0, true) && !w.ch.open
                  case WaitsForever => Stalled(w.Now(), TheTask(t)) && Sending(t, batch, 0, false))
              && O.SentBy(w.s.log, t) == if r.SentAs? then batch else []
      ensures old(w.script) == [] ==>
                var e := Envelop([message], [id], now);
                && OnlyPushed(old(w.Now()), w.Now(), if r.SentAs? then e else [])
                && (r == WaitsForever ==> |w.ch.queue| >= w.ch.capacity)
    {
      var result, sent := SendBatch([message], [id], now);
      assert Envelop([message], [id], now)[..1] == Envelop([message], [id], now);
      match result
      case SentAll(_) => r := SentAs(id);
      case BatchFailed(kind) => r := SendFailed(kind);
      case BatchWaitsForever => r := WaitsForever;
    }

    /** The default `send_batch`: one message after the other, waiting for a slot each time, until one finds no
        receiver. The ids come back in input order; what it enqueued are exactly the messages before the one it
        stopped at. */
    method SendBatch(messages: seq<Message>, ids: seq<Id>, now: Time) returns (r: BatchResult, sent: nat)
      requires w.Valid() && Works() && |messages| == |ids| && Fresh(ids, w.s)
      modifies w, w.ch, w.shared, w.shutdown
      ensures var t, batch := |old(w.s.tasks)|, Envelop(messages, ids, now);
              && w.Valid() && M.CanProduce(old(w.s), M.StartBatch(p, batch))
              && Played(Started(old(w.Now()), p, batch), w.Now(), TheTask(t))
              && sent <= |batch| && O.SentBy(w.s.log, t) == batch[..sent]
              && match r
                 case SentAll(done) => done == ids && sent == |batch| && Sending(t, batch, sent, false)
                 case BatchFailed(kind) =>
                   kind == ConnectionLost && sent < |batch| && Sending(t, batch, sent, true) && !w.ch.open
                 case BatchWaitsForever =>
                   sent < |batch| && Stalled(w.Now(), TheTask(t)) && Sending(t, batch, sent, false)
      ensures old(w.script) == [] ==>
                OnlyPushed(old(w.Now()), w.Now(), Envelop(messages, ids, now)[..sent])
                && (r.BatchWaitsForever? ==> |w.ch.queue| >= w.ch.capacity)
    {
      var batch := Envelop(messages, ids, now);
      var t := w.Start(p, batch);
      PlayedNothing(w.Now(), TheTask(t));
      var o;
      sent, o := SendEach(t, batch, w.Now());
      O.BatchInOrder(w.s, t);
      match o
      case Sent => r := SentAll(ids[..sent]);
      case NoReceiver => r := BatchFailed(ConnectionLost);
      case Full => r := BatchWaitsForever;
    }

    /** The loop of it: `sent` messages of the batch are in the channel when it ends with `o`. */
    method SendEach(t: nat, batch: seq<Envelope>, ghost c0: Config) returns (sent: nat, o: SendOutcome)
      requires w.Valid() && Sending(t, batch, 0, false) && Played(c0, w.Now(), TheTask(t))
      modifies w, w.ch, w.shared, w.shutdown
      ensures w.Valid() && sent <= |batch| && Sending(t, batch, sent, o == NoReceiver)
      ensures Played(c0, w.Now(), TheTask(t))
      ensures o == Sent <==> sent == |batch|
      ensures (o == Full ==> Stalled(w.Now(), TheTask(t))) && (o == NoReceiver ==> !w.ch.open)
      ensures old(w.script) == [] ==>
                OnlyPushed(old(w.Now()), w.Now(), batch[..sent]) && (o == Full ==> |w.ch.queue| >= w.ch.capacity)
    {
      ghost var c := w.Now();
      sent, o := 0, Sent;
      while sent < |batch|
        invariant w.Valid() && sent <= |batch| && o == Sent
        invariant Sending(t, batch, sent, false) && Played(c0, w.Now(), TheTask(t))
        invariant c.script == [] ==> OnlyPushed(c, w.Now(), batch[..sent])
      {
        ghost var mid := w.Now();
        o := SendOne(t, batch, sent, c0);
        PushedOn(c, mid, w.Now(), batch, sent, o);
        if o != Sent {
          return;
        }
        sent := sent + 1;
      }
    }

    /** Needs the lock only, and does not look whether there is still a consumer. */
    method SendAt(message: Message, id: Id, now: Time, at: Time) returns (r: SendResult)
      requires w.Valid() && Works() && Fresh([id], w.s) && Unused(w.script, id)
      modifies w, w.ch, w.shared, w.shutdown
      ensures var c, e := Unlocked(old(w.Now())), Envelope(id, message.body, 1, now);
              && w.Valid() && Works()
              && if c.s.lock == M.Free then
                   && r == SentAs(id)
                   && M.CanProduce(c.s, M.SendAt(p, e, at)) && w.Now() == Took(c, M.Producer(M.SendAt(p, e, at)))
                 else r == WaitsForever && w.Now() == c
    {
      assert [id][0] == id;
      var free := AwaitFree(id);
      if !free {
        return WaitsForever;
      }
      var e := Envelope(id, message.body, 1, now);
      shared.Schedule(e, at);
      w.Take(M.Producer(M.SendAt(p, e, at)));
      r := SentAs(id);
    }

    method AwaitFree(ghost id: Id) returns (free: bool)
      requires w.Valid() && Works() && id !in w.s.issued && Unused(w.script, id)
      modifies w, w.ch, w.shared, w.shutdown
      ensures w.Valid() && Works() && id !in w.s.issued
      ensures w.Now() == Unlocked(old(w.Now())) && free == (w.s.lock == M.Free)
    {
      while true
        invariant w.Valid() && Works() && id !in w.s.issued && Unused(w.script, id)
        invariant Unlocked(w.Now()) == Unlocked(old(w.Now()))
        decreases |w.script|
      {
        if w.script != [] {
          UnusedStays(w.s, w.mine, w.script[0].steps, id);
        }
        var over := w.script == [];
        w.Others();
        if over || shared.lock == M.Free {
          return shared.lock == M.Free;
        }
        w.waited := true;
      }
    }
  }
}
