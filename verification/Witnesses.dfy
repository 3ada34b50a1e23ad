/** Runs that show what the machine can do: the states the exact conditions elsewhere are about do occur. */
module Witnesses {
  import opened Core
  import opened Schedule
  import opened Machine
  import opened Refinement
  import opened Blocking

  // ---------- Building runs ----------

  lemma Go(s: State, st: Step) returns (s': State)
    requires Reachable(s) && Can(s, st)
    ensures s' == Do(s, st) && Reachable(s')
  {
    ReachableStep(s, st);
    s' := Do(s, st);
  }

  lemma Start(capacity: nat, dlq: Option<U32>, clock: Time) returns (s: State)
    requires capacity >= 1
    ensures s == Init(capacity, dlq, clock) && Reachable(s)
  {
    s := Init(capacity, dlq, clock);
    assert Reaches(capacity, dlq, clock, [], s);
  }

  lemma FlattenOne(t: Time, e: Envelope)
    ensures Flatten(map[t := [e]]) == [Entry(t, e)]
  {
    var m := map[t := [e]];
    assert m.Keys == {t} && Least(m.Keys) == t;
    assert (m - {t}).Keys == {};
  }

  lemma InsertFirst(t: Time, e: Envelope)
    ensures Insert(map[], t, e) == map[t := [e]]
  {
    assert [] + [e] == [e];
  }

  function Message(id: Id): Envelope {
    Envelope(id, "", 1, 0)
  }

  /** A call of `receive` or `receive_graceful`, up to the point where it waits for the lock. */
  lemma Enter(s: State, mode: Mode) returns (s': State)
    requires Reachable(s) && s.consumer.pc == Idle && !s.closed && !s.shutdown && mode != Polling
    ensures Reachable(s') && s' == s.(consumer := Consumer(AwaitFlushLock, mode, 1, None, 0))
  {
    s' := Go(s, Call(Begin(mode)));
    if mode == Graceful {
      s' := Go(s', Call(CheckGraceful));
    }
    s' := Go(s', Call(CheckShutdown));
  }

  lemma StartFlush(s: State) returns (s': State)
    requires Reachable(s) && s.consumer.pc == AwaitFlushLock && s.lock == Free
    ensures Reachable(s')
    ensures var c := s.consumer.(backs := s.consumer.backs + if ReadsBack(s) then 1 else 0);
            s' == s.(consumer := c.(pc := Flushing(Flatten(Due(s.scheduled, s.clock)), s.clock)),
            lock := ByConsumer, scheduled := Later(s.scheduled, s.clock))
  {
    s' := Go(s, Flush(LockFlush));
    s' := Go(s', Flush(SplitDue));
  }

  lemma FinishFlush(s: State) returns (s': State)
    requires Reachable(s) && s.consumer.pc.Flushing? && s.consumer.pc.due == []
    ensures Reachable(s') && s' == s.(consumer := s.consumer.(pc := TryRecv), lock := Free)
  {
    s' := Go(s, Flush(EndFlush));
  }

  // ---------- The consumer's own flush fills the channel ----------

  /** `n` messages, no two of which have the same id. */
  function Messages(n: nat): seq<Envelope> {
    seq(n, i requires 0 <= i < n => Message(seq(i, _ => 'n')))
  }

  lemma MessagesDiffer(n: nat)
    ensures DistinctIds(Messages(n))
    ensures forall k :: 0 <= k < n ==> Messages(n)[k].id != "late"
  {
    var batch := Messages(n);
    forall i, j | 0 <= i < j < n ensures batch[i].id != batch[j].id {
      assert |batch[i].id| == i && |batch[j].id| == j;
    }
    forall k | 0 <= k < n ensures batch[k].id != "late" {
      assert "late"[0] == 'l' && (k > 0 ==> batch[k].id[0] == 'n');
    }
  }

  /** A message on the schedule that is due, and `n` messages in the channel out of as many as fit. */
  ghost predicate Filling(s: State, capacity: nat, n: nat) {
    && s.consumer.pc == Idle && !s.closed && !s.shutdown && s.lock == Free && s.lost == [] && s.receipts == []
    && s.capacity == capacity && s.scheduled == map[5 := [Message("late")]] && s.clock == 5
    && n <= capacity && s.channel == Messages(capacity)[..n]
    && s.tasks == [Task(0, Messages(capacity), n, false)]
  }

  lemma {:induction false} Fill(capacity: nat, n: nat) returns (s: State)
    requires capacity >= 1 && n <= capacity
    ensures Reachable(s) && Filling(s, capacity, n)
  {
    var batch := Messages(capacity);
    if n == 0 {
      s := Start(capacity, None, 5);
      InsertFirst(5, Message("late"));
      s := Go(s, Producer(SendAt(0, Message("late"), 5)));
      MessagesDiffer(capacity);
      s := Go(s, Producer(StartBatch(0, batch)));
    } else {
      s := Fill(capacity, n - 1);
      s := Go(s, Producer(PushSend(0)));
      assert batch[..n] == batch[..n - 1] + [batch[n - 1]];
    }
  }

  /** The consumer in the middle of flushing into the full channel. */
  lemma FlushIntoFullChannel(capacity: nat, mode: Mode) returns (s: State)
    requires capacity >= 1 && mode != Polling
    ensures Reachable(s) && Stuck(s) && s.capacity == capacity && s.lost == []
    ensures s.consumer.mode == mode && s.consumer.pc == Flushing([Entry(5, Message("late"))], 5)
    ensures s.scheduled == map[] && |s.channel| == capacity && s.receipts == []
    ensures s.tasks == [Task(0, Messages(capacity), capacity, false)]
  {
    s := Fill(capacity, capacity);
    FlattenOne(5, Message("late"));
    assert Due(s.scheduled, s.clock) == s.scheduled;
    s := Enter(s, mode);
    s := StartFlush(s);
    assert s.scheduled.Keys == {};
  }

  /** The backend can get stuck on itself, with any capacity, and as soon as it holds one message more than the
      channel does: what `CapacityGuarantee` allows is all that can be allowed. */
  lemma StuckHappens(capacity: nat) returns (s: State)
    requires capacity >= 1
    ensures Reachable(s) && Stuck(s) && s.capacity == capacity && Load(s) == capacity + 1
  {
    s := FlushIntoFullChannel(capacity, Plain);
    assert FlushBuffer(s) + Flatten(s.scheduled) == [Entry(5, Message("late"))];
    assert Unsent(s.tasks) == Unsent(s.tasks[1..]) + ToSend(s.tasks[0]) && s.tasks[1..] == [];
  }

  /** A shutdown that cancels `receive_graceful` there loses the message that was due: it was accepted, but
      it is neither queued, nor scheduled, nor delivered. */
  lemma CancelLosesMessage() returns (s: State)
    ensures Reachable(s) && s.lost == [Entry(5, Message("late"))]
  {
    s := FlushIntoFullChannel(1, Graceful);
    s := Go(s, Shutdown);
    s := Go(s, Call(CancelReceive));
  }

  // ---------- A poll that looks away ----------

  /** `try_receive` can report that there is nothing while something is due: it was scheduled, for a time that had
      come already, between the flush and the look at the channel. */
  lemma PollLooksAway() returns (s: State)
    ensures Reachable(s) && s.calls == [Ended(Polling, NoMessage)] && s.channel == []
    ensures Flatten(Due(s.scheduled, s.clock)) == [Entry(5, Message("late"))]
  {
    s := PollFlushed();
    InsertFirst(5, Message("late"));
    s := Go(s, Producer(SendAt(0, Message("late"), 5)));
    s := Go(s, Await(Pop));
    FlattenOne(5, Message("late"));
    assert Due(s.scheduled, s.clock) == s.scheduled;
  }

  lemma PollFlushed() returns (s: State)
    ensures Reachable(s) && s == Init(1, None, 5).(consumer := Consumer(TryRecv, Polling, 0, None, 0))
  {
    s := Start(1, None, 5);
    assert Due(s.scheduled, s.clock).Keys == {} && Later(s.scheduled, s.clock) == s.scheduled;
    s := Go(s, Call(Begin(Polling)));
    s := StartFlush(s);
    s := FinishFlush(s);
  }

  // ---------- Producers gone, schedule not empty ----------

  /** A round with nothing to flush and nothing in the channel ends in the select. */
  lemma FallAsleep(s: State) returns (s': State)
    requires Reachable(s) && s.consumer.pc == AwaitFlushLock && s.consumer.mode == Plain && s.lock == Free
    requires s.channel == [] && Due(s.scheduled, s.clock).Keys == {}
    ensures Reachable(s')
    ensures var c := s.consumer.(backs := s.consumer.backs + if ReadsBack(s) then 1 else 0);
            s' == s.(consumer := c.(pc := Selecting(NextScheduledAt(s.scheduled))))
  {
    assert Later(s.scheduled, s.clock) == s.scheduled by {
      assert forall t :: t in s.scheduled ==> t !in Due(s.scheduled, s.clock).Keys;
    }
    s' := StartFlush(s);
    s' := FinishFlush(s');
    s' := Go(s', Await(Pop));
    s' := Go(s', Await(Peek));
  }

  /** Asleep until time 10, in the round after `n` flushes that were due to find something and did not. */
  ghost predicate Asleep(s: State, n: nat) {
    && s.scheduled == map[10 := [Message("late")]] && s.channel == [] && s.clock == 0 && s.lock == Free
    && s.consumer == Consumer(Selecting(Some(10)), Plain, n + 1, if n == 0 then None else Some(10), n)
    && !s.shutdown && s.producers == {0} && s.senders == 2 && s.tasks == []
  }

  lemma SleepUntilTen() returns (s: State)
    ensures Reachable(s) && Asleep(s, 0)
  {
    s := Start(1, None, 0);
    InsertFirst(10, Message("late"));
    s := Go(s, Producer(SendAt(0, Message("late"), 10)));
    s := Enter(s, Plain);
    assert s.scheduled.Keys == {10} && Least(s.scheduled.Keys) == 10;
    s := FallAsleep(s);
  }

  /** `receive` reports a lost connection although a scheduled message is still to come. */
  lemma ScheduleLeftBehind() returns (s: State)
    ensures Reachable(s) && CanAwait(s, WakeByLiveness) && Flatten(s.scheduled) != []
  {
    s := SleepUntilTen();
    s := Go(s, Await(FindEmpty));
    s := Go(s, Producer(DropProducer(0)));
    FlattenOne(10, Message("late"));
  }

  /** So it does although a message was sent, and is in the channel, when the last producer was dropped: the select
      had looked at the channel just before. */
  lemma MessageLeftBehind() returns (s: State)
    ensures Reachable(s) && CanAwait(s, WakeByLiveness) && s.channel == [Message("now")]
  {
    s := FoundEmpty();
    s := Go(s, Producer(StartBatch(0, [Message("now")])));
    assert s.tasks == [Task(0, [Message("now")], 0, false)];
    s := Go(s, Producer(PushSend(0)));
    s := Go(s, Producer(DropProducer(0)));
  }

  lemma FoundEmpty() returns (s: State)
    ensures Reachable(s)
    ensures s == Init(1, None, 0).(consumer := Consumer(PastChannel(None, 0), Plain, 1, None, 0))
  {
    s := Start(1, None, 0);
    s := Enter(s, Plain);
    assert Due(s.scheduled, s.clock).Keys == {};
    s := FallAsleep(s);
    s := Go(s, Await(FindEmpty));
  }

  // ---------- A clock that goes back ----------

  /** The timer fires on time, and the clock is set back. */
  lemma WakeUp(s: State, n: nat) returns (s': State)
    requires Reachable(s) && Asleep(s, n)
    ensures Reachable(s')
    ensures s' == s.(consumer := Consumer(AwaitFlushLock, Plain, n + 2, Some(10), n))
  {
    s' := Go(s, Await(FindEmpty));
    s' := Go(s', Tick(10));
    s' := Go(s', Await(WakeByTimer));
    s' := Go(s', Tick(0));
    s' := Go(s', Call(CheckShutdown));
  }

  /** So the flush finds nothing. */
  lemma SetBack(s: State, n: nat) returns (s': State)
    requires Reachable(s) && Asleep(s, n)
    ensures Reachable(s') && Asleep(s', n + 1)
  {
    s' := WakeUp(s, n);
    assert s'.scheduled.Keys == {10} && Least(s'.scheduled.Keys) == 10;
    s' := FallAsleep(s');
  }

  /** The bound on the rounds of the receive loop is met exactly, for any number of set-backs. */
  lemma RoundsReached(n: nat) returns (s: State)
    ensures Reachable(s) && s.consumer.backs == n && s.consumer.rounds == n + 2
  {
    s := AsleepAgain(n);
    s := Go(s, Await(FindEmpty));
    s := Go(s, Tick(10));
    s := Go(s, Await(WakeByTimer));
    s := Go(s, Call(CheckShutdown));
  }

  lemma {:induction false} AsleepAgain(n: nat) returns (s: State)
    ensures Reachable(s) && Asleep(s, n)
  {
    if n == 0 {
      s := SleepUntilTen();
    } else {
      s := AsleepAgain(n - 1);
      s := SetBack(s, n - 1);
    }
  }

  // ---------- Nacked every time ----------

  /** One message, `n` times nacked, waiting in the channel; everybody else at rest. */
  ghost predicate Quiescent(s: State, dlq: Option<U32>, e: Envelope, n: nat) {
    && s.dlq == dlq && s.capacity == 1 && s.consumer.pc == Idle && s.lock == Free
    && !s.closed && !s.shutdown && s.scheduled == map[]
    && s.channel == [e] && e.id == "poison" && e.count == n + 1
    && Tally(s.nackCounts, e.id) == n && |s.receipts| == n
  }

  lemma DeliverOnce(s: State, e: Envelope) returns (s': State)
    requires Reachable(s) && s.consumer.pc == Idle && s.lock == Free && !s.closed && !s.shutdown
    requires s.scheduled == map[] && s.channel == [e]
    ensures Reachable(s')
    ensures s' == s.(consumer := s'.consumer, calls := s'.calls, channel := [], senders := s.senders + 1,
                     receipts := s.receipts + [Receipt(e, Held)])
    ensures s'.consumer.pc == Idle
  {
    s' := Enter(s, Plain);
    assert Due(s.scheduled, s.clock).Keys == {} && Later(s.scheduled, s.clock) == s.scheduled;
    s' := StartFlush(s');
    s' := FinishFlush(s');
    s' := Go(s', Await(Pop));
  }

  lemma BeginNack(s: State, i: nat) returns (s': State)
    requires Reachable(s) && i < |s.receipts| && s.receipts[i].phase == Held && s.lock == Free
    ensures Reachable(s')
    ensures s' == s.(receipts := s.receipts[i := Receipt(s.receipts[i].env, Counting)], lock := ByNack(i))
  {
    s' := Go(s, Handle(i, NackCall));
    s' := Go(s', Handle(i, NackLock));
  }

  lemma NackAgain(s: State, dlq: Option<U32>, e: Envelope, n: nat) returns (s': State)
    requires Reachable(s) && Quiescent(s, dlq, e, n) && n + 1 < MaxAttempts(dlq)
    ensures Reachable(s') && Quiescent(s', dlq, Redelivery(e), n + 1)
  {
    s' := DeliverOnce(s, e);
    s' := BeginNack(s', n);
    s' := Go(s', Nack(n, NackCount));
    s' := Go(s', Nack(n, NackPush));
    s' := Go(s', Handle(n, NackRelease));
  }

  lemma {:induction false} NackedTimes(dlq: Option<U32>, n: nat) returns (s: State, e: Envelope)
    requires n < MaxAttempts(dlq)
    ensures Reachable(s) && Quiescent(s, dlq, e, n)
  {
    if n == 0 {
      e := Message("poison");
      s := Start(1, dlq, 0);
      s := Go(s, Producer(StartBatch(0, [e])));
      assert s.tasks == [Task(0, [e], 0, false)];
      s := Go(s, Producer(PushSend(0)));
    } else {
      s, e := NackedTimes(dlq, n - 1);
      s := NackAgain(s, dlq, e, n - 1);
      e := Redelivery(e);
    }
  }

  /** For every configured limit there is a run in which a message is nacked each time and dead-lettered at
      exactly the last attempt; with the largest u32 as the limit, the count of the dead letter wraps to 0. */
  lemma NackedEveryTime(max: U32) returns (s: State, d: Envelope)
    ensures Reachable(s) && s.dlq == Some(max) && s.deadLetters != [] && d in s.deadLetters
    ensures |s.receipts| == MaxAttempts(Some(max))
    ensures d.count == if max == U32_MAX then 0 else MaxAttempts(Some(max)) + 1
  {
    var dlq := Some(max);
    var n: nat := MaxAttempts(dlq) - 1;
    var e: Envelope;
    s, e := NackedTimes(dlq, n);
    s := DeliverOnce(s, e);
    s := BeginNack(s, n);
    s := Go(s, Nack(n, NackCount));
    d := Redelivery(e);
    assert s.deadLetters[|s.deadLetters| - 1] == d;
  }
}
