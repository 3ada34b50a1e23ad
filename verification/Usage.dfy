/** Short programs against the interface of the backend: what its operations come to when they are put together. */
module Usage {
  import opened Core
  import opened Worlds
  import opened Memory
  import opened Endpoints
  import opened Consuming
  import opened Streams
  import opened Building
  import B = Broker
  import M = Machine
  import At = Attempts
  import Sa = Safety
  import Se = Senders
  import St = Stopping

  /** A pair built with a dead letter queue: the limit asked for is the number of attempts in force. `None` stands
      for a panic, on a limit or on a capacity of 0. */
  method BuildWithLimit(capacity: Option<nat>, max: U32, now: Time, script: seq<Gap>)
    returns (r: Option<(MemoryProducer, MemoryConsumer)>)
    ensures r == None <==> max == 0 || capacity == Some(0)
    ensures r.Some? ==>
              var (p, c) := r.value;
              && c.Valid() && p.w == c.w && p.Works() && c.w.s.dlq == Some(max) && MaxAttempts(c.w.s.dlq) == max
  {
    var config := NewDlqConfig(max);
    if config.None? {
      return None;
    }
    var builder := new MemoryBuilder(capacity);
    builder.DeadLetterQueue(config.value);
    r := builder.BuildPair(now, script);
  }

  method Signal(c: MemoryConsumer)
    requires c.Valid()
    modifies c.w, c.shutdown
    ensures c.Valid() && c.shutdown.signalled && c.w.Now() == Took(old(c.w.Now()), M.Shutdown)
  {
    c.shutdown.Shutdown();
    c.w.Take(M.Shutdown);
  }

  /** After the signal, by whoever holds the handle, both ways to receive refuse, whatever the others do, and nothing is
      handed out. */
  method SignalStops(c: MemoryConsumer) returns (graceful: Option<Outcome>, plain: Outcome)
    requires c.Valid() && c.w.s.consumer.pc == M.Idle
    modifies c`answers, c.w, c.ch, c.shared, c.shutdown
    ensures graceful == None && plain == Failed(ConsumerShutdown) && c.Valid()
    ensures |c.w.s.receipts| == |old(c.w.s.receipts)|
  {
    Signal(c);
    graceful := RefuseGraceful(c);
    ghost var mid := c.w.Now();
    plain := c.Receive();
    c.NothingHandedOut(mid, M.Plain, M.ConsumerShutdown);
  }

  method RefuseGraceful(c: MemoryConsumer) returns (graceful: Option<Outcome>)
    requires c.Valid() && c.w.s.consumer.pc == M.Idle && c.shutdown.signalled
    modifies c`answers, c.w, c.ch, c.shared, c.shutdown
    ensures graceful == None && c.Valid() && c.w.s.consumer.pc == M.Idle && c.shutdown.signalled
    ensures |c.w.s.receipts| == |old(c.w.s.receipts)|
  {
    ghost var before := c.w.Now();
    graceful := c.ReceiveGraceful();
    c.NothingHandedOut(before, M.Graceful, M.Stopped);
    StaysSignalled(before, c.w.Now(), M.Graceful);
  }

  lemma StaysSignalled(c: Config, c': Config, mode: M.Mode)
    requires Called(c, c', mode) && c.s.shutdown
    ensures c'.s.shutdown
  {
    var c0 := Begun(c, mode);
    PlayedIsRun(c0, c', TheConsumer);
    var steps: seq<M.Step> :| M.CanRun(c0.s, steps) && M.Run(c0.s, steps) == c'.s;
    St.ShutdownIsFinal(c0.s, steps);
  }

  /** One message from a stream, nacked below the limit: its redelivery is in the log of the very same backend,
      enqueued by this nack and once, unless the nack waits for ever. */
  method NackFromStream(stream: MessageStream) returns (r: Option<Outcome>, done: bool)
    requires stream.Ready() && stream.live
    modifies stream, stream.consumer`answers, stream.consumer.w, stream.consumer.ch, stream.consumer.shared,
             stream.consumer.shutdown
    ensures var w := stream.consumer.w;
            r.Some? && r.value.Received? && done ==>
              var d := r.value.delivery;
              var i := d.ackHandle.number;
              && i < |w.s.receipts| && w.s.receipts[i].env == d.envelope && d.resolved
              && (BelowLimit(w.s.dlq, d.envelope.count) ==>
                    && B.Record(d.envelope.(count := d.envelope.count + 1), B.ByNack(i)) in w.s.log
                    && At.EnqueuedBy(w.s.log, i) == 1)
  {
    done := false;
    r := stream.Next();
    if r.Some? && r.value.Received? {
      var d := r.value.delivery;
      ghost var before := stream.consumer.w.Now();
      done := d.Nack();
      if done {
        NackedInPlace(stream.consumer.w, before, d.ackHandle.number);
      }
    }
  }

  /** With its consumer in the same hands a nack is not too late. */
  lemma NackedInPlace(w: World, before: Config, i: nat)
    requires w.Valid() && M.Reachable(before.s) && TheConsumer in before.mine && !before.s.closed
    requires Played(before, w.Now(), TheDelivery(i)) && Judged(w.s, i)
    ensures BelowLimit(w.s.dlq, w.s.receipts[i].env.count) ==>
                At.WasRequeued(w.s, i) && B.Record(Redelivery(w.s.receipts[i].env), B.ByNack(i)) in w.s.log
                && At.EnqueuedBy(w.s.log, i) == 1
  {
    PlayedLeavesConsumer(before, w.Now(), TheDelivery(i));
    At.RequeuedOnce(w.s, i);
    if w.s.receipts[i].phase == M.Settled(B.ClosedDropped) {
      At.DroppedOnlyClosed(w.s, i);
    }
    if At.WasRequeued(w.s, i) {
      At.RedeliveryInTheLog(w.s, i);
    }
  }

  /** Resolving a delivery gives up a sender of the channel, but not the consumer's: it can go on receiving. */
  method ReceiveAndAck(c: MemoryConsumer) returns (r: Outcome)
    requires c.Valid() && c.w.s.consumer.pc == M.Idle
    modifies c.w, c.ch, c.shared, c.shutdown
    ensures c.w.Valid()
    ensures r.Received? ==> c.Valid() && c.w.s.consumer.pc == M.Idle && c.ch.senders >= 1 && r.delivery.resolved
    ensures r.Received? ==> var i := r.delivery.ackHandle.number;
                            && i == |old(c.w.s.receipts)| < |c.w.s.receipts|
                            && c.w.s.receipts[i] == M.Receipt(r.delivery.envelope, M.Settled(B.Acked))
  {
    r := c.Receive();
    if r.Received? {
      r.delivery.Ack();
      Se.DisconnectedExactly(c.w.s);
    }
  }

  /** A quiet send of a message there is room for. */
  method SendQuietly(p: MemoryProducer, c: MemoryConsumer, message: Message, id: Id, now: Time)
    returns (sent: SendResult)
    requires c.Valid() && c.w.s.consumer.pc == M.Idle && p.w == c.w && p.Works() && Fresh([id], c.w.s)
    requires Quiet(c.w.Now()) && c.ch.queue == []
    modifies c.w, c.ch, c.shared, c.shutdown
    ensures sent == SentAs(id) && c.Valid() && c.w.s.consumer.pc == M.Idle && Quiet(c.w.Now())
    ensures c.ch.queue == [Envelope(id, message.body, 1, now)]
  {
    Sa.ReachableConserved(c.w.s);
    ghost var before := c.w.Now();
    sent := p.Send(message, id, now);
    assert [] + Envelop([message], [id], now) == [Envelope(id, message.body, 1, now)];
    assert c.w.s.capacity == before.s.capacity;
  }

  /** What is sent while nobody interferes is what is received. */
  method SendAndReceive(p: MemoryProducer, c: MemoryConsumer, message: Message, id: Id, now: Time)
    returns (sent: SendResult, r: Outcome)
    requires c.Valid() && c.w.s.consumer.pc == M.Idle && p.w == c.w && p.Works() && Fresh([id], c.w.s)
    requires Quiet(c.w.Now()) && c.ch.queue == []
    modifies c.w, c.ch, c.shared, c.shutdown
    ensures sent == SentAs(id) && r.Received? && r.delivery.envelope == Envelope(id, message.body, 1, now)
  {
    sent := SendQuietly(p, c, message, id, now);
    ghost var mid := c.w.Now();
    r := c.Receive();
    c.ReceivedQuietly(r, mid);
  }

  /** From the builder on: the first message sent is the first message received. */
  method FromScratch(message: Message, id: Id, now: Time) returns (sent: SendResult, r: Outcome)
    ensures sent == SentAs(id) && r.Received? && r.delivery.envelope == Envelope(id, message.body, 1, now)
  {
    var builder := new MemoryBuilder(None);
    var pair := builder.BuildPair(now, []);
    var (p, c) := pair.value;
    sent, r := SendAndReceive(p, c, message, id, now);
  }
}
