/** The consumer of the in-memory backend, and the batches every consumer inherits. */
module Consuming {
  import opened Core
  import opened Schedule
  import opened Worlds
  import opened Memory
  import opened Endpoints
  import Ca = Calls
  import M = Machine
  import P = Progress
  import R = Refinement
  import Sa = Safety
  import Se = Senders

  datatype Outcome = Received(delivery: Delivery) | Failed(kind: ErrorKind) | Interrupted | StillWaiting

  /** What `try_receive` comes to. */
  datatype Tried = One(delivery: Delivery) | Nothing | Refused(kind: ErrorKind) | Unfinished

  /** How one look at the channel comes out; `HungUp` if it has no sender any more. */
  datatype Look = Popped(delivery: Delivery) | HungUp | NothingThere

  datatype Rounded = Again | Ended(outcome: Outcome)

  datatype Batch = Batch(deliveries: seq<Delivery>) | BatchError(kind: ErrorKind) | BatchWaits

  /** What one call of `receive_graceful` comes to; `StillPending` if it never returns. */
  datatype Answer = Item(env: Envelope) | Error(kind: ErrorKind) | End | StillPending

  // ---------- Calls ----------

  function Begun(c: Config, mode: M.Mode): Config
    requires M.CanCall(c.s, M.Begin(mode))
  {
    Took(c, M.Call(M.Begin(mode)))
  }

  /** A call of the consumer from its beginning in `c` to where it is in `c'`. */
  ghost predicate Called(c: Config, c': Config, mode: M.Mode) {
    M.CanCall(c.s, M.Begin(mode)) && Played(Begun(c, mode), c', TheConsumer)
  }

  /** The calls of a batch, from one of these stops to the next: a `receive`, then `try_receive` again and again. */
  ghost predicate StopAt(stops: seq<Config>, k: nat) {
    k + 1 < |stops| && Called(stops[k], stops[k + 1], if k == 0 then M.Plain else M.Polling)
  }

  ghost predicate BatchPath(stops: seq<Config>, c: Config, c': Config, polls: nat) {
    && |stops| == polls + 2 && stops[0] == c && stops[polls + 1] == c'
    && forall k: nat {:trigger StopAt(stops, k)} :: k + 1 < |stops| ==> StopAt(stops, k)
  }

  /** A `receive`, and then `polls` times `try_receive`, lead from `c` to `c'`. */
  ghost predicate BatchCalled(c: Config, c': Config, polls: nat) {
    exists stops: seq<Config> :: BatchPath(stops, c, c', polls)
  }

  lemma FirstCall(c: Config, c': Config)
    requires Called(c, c', M.Plain)
    ensures BatchCalled(c, c', 0)
  {
    var stops := [c, c'];
    assert StopAt(stops, 0) && BatchPath(stops, c, c', 0);
  }

  lemma OneMoreCall(c: Config, mid: Config, c': Config, polls: nat)
    requires BatchCalled(c, mid, polls) && Called(mid, c', M.Polling)
    ensures BatchCalled(c, c', polls + 1)
  {
    var stops: seq<Config> :| BatchPath(stops, c, mid, polls);
    var more := stops + [c'];
    forall k: nat | k + 1 < |more| ensures StopAt(more, k) {
      if k + 1 < |stops| {
        assert StopAt(stops, k) && more[k] == stops[k] && more[k + 1] == stops[k + 1];
      } else {
        assert more[k] == mid && more[k + 1] == c';
      }
    }
    assert BatchPath(more, c, c', polls + 1);
  }

  /** What the calls of a batch came to, of which the first `n` delivered: the deliveries from `from` on. */
  function BatchCalls(from: nat, n: nat): seq<M.Ended> {
    if n == 0 then []
    else BatchCalls(from, n - 1) + [M.Ended(if n == 1 then M.Plain else M.Polling, M.Delivered(from + n - 1))]
  }

  /** Something on the schedule is due. */
  ghost predicate DueNow(s: M.State) {
    exists t :: t in s.scheduled && t <= s.clock
  }

  // ---------- Calls nobody interferes with ----------

  /** Nobody else does anything, nothing is due, and there was no shutdown. */
  ghost predicate Quiet(c: Config) {
    c.script == [] && c.s.lock == M.Free && !c.s.shutdown && !DueNow(c.s)
  }

  lemma QuietTurn(c0: Config, c: Config, st: M.Step)
    requires Played(c0, c, TheConsumer) && c.script == [] && Next(c.s, TheConsumer, c.waited) == Some(st)
    requires c.s.consumer.pc != M.Idle && !Dozing(c.s)
    ensures M.Can(c.s, st) && Played(c0, Took(c, st), TheConsumer)
  {
    StepIsTurn(c, st, TheConsumer);
    PlayedTurn(c0, c, TheConsumer);
  }

  /** A quiet flush pushes nothing. */
  lemma QuietSplit(c0: Config, c: Config) returns (c': Config)
    requires Played(c0, c, TheConsumer) && Quiet(c) && c.s.consumer.pc == M.AwaitFlushLock
    ensures Played(c0, c', TheConsumer) && c'.script == [] && c'.mine == c.mine
    ensures c'.s == c.s.(consumer := c.s.consumer.(pc := M.Flushing([], c.s.clock), backs := c'.s.consumer.backs),
                         lock := M.ByConsumer)
  {
    QuietTurn(c0, c, M.Flush(M.LockFlush));
    var mid := Took(c, M.Flush(M.LockFlush));
    QuietTurn(c0, mid, M.Flush(M.SplitDue));
    assert Due(c.s.scheduled, c.s.clock).Keys == {} && Later(c.s.scheduled, c.s.clock) == c.s.scheduled;
    c' := Took(mid, M.Flush(M.SplitDue));
  }

  lemma QuietFlush(c0: Config, c: Config) returns (c': Config)
    requires Played(c0, c, TheConsumer) && Quiet(c) && c.s.consumer.pc == M.AwaitFlushLock
    ensures Played(c0, c', TheConsumer) && c'.script == [] && c'.mine == c.mine
    ensures c'.s == c.s.(consumer := c.s.consumer.(pc := M.TryRecv, backs := c'.s.consumer.backs))
  {
    c' := QuietSplit(c0, c);
    QuietTurn(c0, c', M.Flush(M.EndFlush));
    c' := Took(c', M.Flush(M.EndFlush));
  }

  /** The next message of the channel is handed out, and nothing else happens. */
  ghost predicate HandsOutNext(c: Config, c': Config, mode: M.Mode) {
    && c.s.channel != [] && c'.s.channel == c.s.channel[1..]
    && c'.s.receipts == c.s.receipts + [M.Receipt(c.s.channel[0], M.Held)]
    && c'.s.calls == c.s.calls + [M.Ended(mode, M.Delivered(|c.s.receipts|))]
    && Undisturbed(c, c')
  }

  ghost predicate Undisturbed(c: Config, c': Config) {
    && c'.script == c.script && c'.s.lock == c.s.lock && c'.s.shutdown == c.s.shutdown && c'.s.clock == c.s.clock
    && c'.s.scheduled == c.s.scheduled && c'.s.consumer.pc == M.Idle && c'.s.closed == c.s.closed
  }

  /** A quiet call takes the next message there is; a poll of an empty channel takes none. */
  lemma QuietPop(c0: Config, c: Config) returns (c': Config)
    requires Played(c0, c, TheConsumer) && Quiet(c) && c.s.consumer.pc == M.AwaitFlushLock
    requires c.s.channel != [] || (c.s.consumer.mode == M.Polling && c.s.senders != 0)
    ensures Played(c0, c', TheConsumer) && Undisturbed(c, c')
    ensures c.s.channel != [] ==> HandsOutNext(c, c', c.s.consumer.mode)
    ensures c.s.channel == [] ==> c'.s.calls == c.s.calls + [M.Ended(M.Polling, M.NoMessage)]
    ensures c.s.channel == [] ==> c'.s.channel == [] && c'.s.receipts == c.s.receipts
  {
    c' := QuietFlush(c0, c);
    QuietTurn(c0, c', M.Await(M.Pop));
    c' := Took(c', M.Await(M.Pop));
  }

  /** So there is one thing only that a quiet `receive` with a message in the channel can come to. */
  lemma QuietReceive(c: Config, c': Config)
    requires M.CanCall(c.s, M.Begin(M.Plain)) && Quiet(c) && c.s.channel != []
    requires Called(c, c', M.Plain) && Over(c', TheConsumer)
    ensures HandsOutNext(c, c', M.Plain)
  {
    var c0 := Begun(c, M.Plain);
    PlayedNothing(c0, TheConsumer);
    QuietTurn(c0, c0, M.Call(M.CheckShutdown));
    var c1 := Took(c0, M.Call(M.CheckShutdown));
    var c2 := QuietPop(c0, c1);
    PlayedOnce(c0, c', c2, TheConsumer);
  }

  /** And likewise a quiet `try_receive`. */
  lemma QuietPoll(c: Config, c': Config)
    requires M.CanCall(c.s, M.Begin(M.Polling)) && Quiet(c) && c.s.senders != 0
    requires Called(c, c', M.Polling) && Over(c', TheConsumer)
    ensures c.s.channel != [] ==> HandsOutNext(c, c', M.Polling)
    ensures c.s.channel == [] ==> Undisturbed(c, c') && c'.s.channel == []
    ensures c.s.channel == [] ==> c'.s.calls == c.s.calls + [M.Ended(M.Polling, M.NoMessage)]
  {
    var c0 := Begun(c, M.Polling);
    PlayedNothing(c0, TheConsumer);
    var c2 := QuietPop(c0, c0);
    PlayedOnce(c0, c', c2, TheConsumer);
  }

  /** The same call, and nothing handed out in it yet. */
  predicate Ongoing(s: M.State, s': M.State) {
    && s'.calls == s.calls && |s'.receipts| == |s.receipts| && s'.closed == s.closed
    && s'.consumer.mode == s.consumer.mode
  }

  class MemoryConsumer {
    const w: World
    const ch: Channel
    const shared: SharedState
    const shutdown: ShutdownHandle
    ghost var answers: seq<Answer>

    constructor (w: World)
      ensures this.w == w && ch == w.ch && shared == w.shared && shutdown == w.shutdown && answers == []
    {
      this.w, ch, shared, shutdown, answers := w, w.ch, w.shared, w.shutdown, [];
    }

    ghost predicate Valid()
      reads this, w, w.ch, w.shared, w.shutdown
    {
      && ch == w.ch && shared == w.shared && shutdown == w.shutdown
      && w.Valid() && TheConsumer in w.mine && !w.s.closed
    }

    /** In the call that began in `c0`. */
    ghost predicate Calling(raced: bool, c0: Config)
      reads this, w, w.ch, w.shared, w.shutdown
    {
      Valid() && Ongoing(c0.s, w.s) && raced == (c0.s.consumer.mode == M.Graceful)
    }

    /** At `pc`, with its turns played so far. */
    ghost predicate At(pc: M.Pc, raced: bool, c0: Config)
      reads this, w, w.ch, w.shared, w.shutdown
    {
      Calling(raced, c0) && w.s.consumer.pc == pc && Played(c0, w.Now(), TheConsumer)
    }

    /** The same with others having run, and the next step to be taken. */
    ghost predicate TurnAt(pc: M.Pc, raced: bool, c0: Config)
      reads this, w, w.ch, w.shared, w.shutdown
    {
      Calling(raced, c0) && w.s.consumer.pc == pc && w.InTurn(TheConsumer, c0)
    }

    /** The call has returned. */
    ghost predicate Returned(outcome: M.Outcome, c0: Config)
      reads this, w, w.ch, w.shared, w.shutdown
    {
      && Valid() && w.s.consumer.pc == M.Idle && Played(c0, w.Now(), TheConsumer)
      && w.s.calls == c0.s.calls + [M.Ended(c0.s.consumer.mode, outcome)]
    }

    /** A delivery handed out by the call: the newest receipt, in the hands of this task. */
    ghost predicate HandedOut(d: Delivery, c0: Config)
      reads this, d, w, w.ch, w.shared, w.shutdown
    {
      && Returned(M.Delivered(|c0.s.receipts|), c0)
      && d.Open(w) && d.ackHandle.number == |c0.s.receipts| && |w.s.receipts| == |c0.s.receipts| + 1
    }

    // ---------- The steps of a call ----------

    /** `make_delivery`: the handle of the delivery gets a sender of its own. */
    method MakeDelivery(e: Envelope) returns (d: Delivery)
      requires ch == w.ch
      modifies ch`senders
      ensures fresh(d) && fresh(d.ackHandle) && ch.senders == old(ch.senders) + 1
      ensures !d.resolved && d.envelope == e && d.ackHandle.envelope == e && d.ackHandle.w == w
      ensures d.ackHandle.number == |w.s.receipts| && d.ackHandle.requeueTx == w.ch && d.ackHandle.shared == w.shared
    {
      d := new Delivery(e, w, |w.s.receipts|);
    }

    method TakeLock(raced: bool, ghost c0: Config)
      requires TurnAt(M.AwaitFlushLock, raced, c0) && shared.lock == M.Free
      requires Next(w.s, TheConsumer, w.waited) == Some(M.Flush(M.LockFlush))
      modifies w, shared
      ensures At(M.FlushLocked, raced, c0) && w.script == old(w.script)
      ensures w.s == M.FlushDo(old(w.s), M.LockFlush)
    {
      shared.lock := M.ByConsumer;
      w.Step(M.Flush(M.LockFlush), TheConsumer, c0);
    }

    method GiveUpLock(raced: bool, ghost c0: Config)
      requires Calling(raced, c0) && w.InTurn(TheConsumer, c0) && M.CanFlush(w.s, M.EndFlush)
      modifies w, shared
      ensures At(M.TryRecv, raced, c0) && w.script == old(w.script)
      ensures w.s == M.FlushDo(old(w.s), M.EndFlush)
    {
      shared.lock := M.Free;
      w.Step(M.Flush(M.EndFlush), TheConsumer, c0);
    }

    /** `try_recv`. */
    method Pop(raced: bool, ghost c0: Config) returns (o: Look)
      requires TurnAt(M.TryRecv, raced, c0)
      modifies w, ch
      ensures w.s == M.AwaitDo(old(w.s), M.Pop) && w.script == old(w.script)
      ensures match o
              case Popped(d) => old(ch.queue) != [] && HandedOut(d, c0) && fresh(d) && fresh(d.ackHandle)
              case HungUp => old(ch.queue) == [] && old(ch.senders) == 0
              case NothingThere => old(ch.queue) == [] && old(ch.senders) != 0
      ensures !o.Popped? ==>
                if c0.s.consumer.mode != M.Polling then At(M.AwaitPeekLock, raced, c0)
                else Returned(if o == HungUp then M.ConnectionLost else M.NoMessage, c0)
    {
      var popped := ch.Recv();
      if popped.Got? {
        var d := Hand(popped.env, M.Pop, raced, c0);
        return Popped(d);
      }
      o := if popped.Empty? then NothingThere else HungUp;
      PopNothing(raced, c0);
    }

    method PopNothing(raced: bool, ghost c0: Config)
      requires TurnAt(M.TryRecv, raced, c0) && ch.queue == []
      modifies w
      ensures w.s == M.AwaitDo(old(w.s), M.Pop) && w.script == old(w.script)
      ensures if c0.s.consumer.mode != M.Polling then At(M.AwaitPeekLock, raced, c0)
              else Returned(if ch.senders == 0 then M.ConnectionLost else M.NoMessage, c0)
    {
      w.Step(M.Await(M.Pop), TheConsumer, c0);
    }

    method Peek(raced: bool, ghost c0: Config) returns (wake: Option<Time>)
      requires TurnAt(M.AwaitPeekLock, raced, c0) && shared.lock == M.Free
      requires Next(w.s, TheConsumer, w.waited) == Some(M.Await(M.Peek))
      modifies w
      ensures At(M.Selecting(wake), raced, c0) && w.script == old(w.script)
      ensures w.s == M.AwaitDo(old(w.s), M.Peek)
    {
      wake := shared.NextDue();
      w.Step(M.Await(M.Peek), TheConsumer, c0);
    }

    /** The message just popped is handed out. */
    method Hand(e: Envelope, st: M.AwaitStep, raced: bool, ghost c0: Config) returns (d: Delivery)
      requires ch == w.ch && w.Coupled(w.s.(channel := ch.queue)) && w.s.channel == [e] + ch.queue
      requires Ongoing(c0.s, w.s) && M.Reachable(w.s) && TheConsumer in w.mine && !w.s.closed
      requires shared == w.shared && shutdown == w.shutdown
      requires w.InTurn(TheConsumer, c0) && Next(w.s, TheConsumer, w.waited) == Some(M.Await(st)) && M.Delivers(w.s, st)
      modifies w, ch
      ensures HandedOut(d, c0) && fresh(d) && fresh(d.ackHandle)
      ensures w.s == M.Deliver(old(w.s)) && w.script == old(w.script)
      ensures w.connected == old(w.connected) && w.clock == old(w.clock)
    {
      ghost var after := M.Deliver(w.s);
      assert after.channel == ch.queue;
      d := MakeDelivery(e);
      assert w.Coupled(after) && M.Do(w.s, M.Await(st)) == after;
      w.Step(M.Await(st), TheConsumer, c0);
    }

    /** The first look of the select. */
    method LookAtChannel(wake: Option<Time>, raced: bool, ghost c0: Config) returns (o: Look)
      requires TurnAt(M.Selecting(wake), raced, c0)
      requires Next(w.s, TheConsumer, w.waited) != Some(M.Call(M.CancelReceive))
      modifies w, ch
      ensures w.script == old(w.script) && w.connected == old(w.connected) && w.clock == old(w.clock)
      ensures match o
              case Popped(d) => HandedOut(d, c0) && fresh(d) && fresh(d.ackHandle)
              case HungUp => old(ch.senders) == 0 && Returned(M.ConnectionLost, c0)
              case NothingThere =>
                && old(ch.queue) == [] && old(ch.senders) != 0
                && At(M.PastChannel(wake, |old(w.s.log)|), raced, c0)
    {
      SelectingNext(w.s, w.waited);
      var popped := ch.Recv();
      if popped.Got? {
        var d := Hand(popped.env, M.WakeByMessage, raced, c0);
        return Popped(d);
      }
      if popped.Empty? {
        MoveOn(wake, raced, c0);
        return NothingThere;
      }
      HangUp(wake, raced, c0);
      o := HungUp;
    }

    method HangUp(wake: Option<Time>, raced: bool, ghost c0: Config)
      requires TurnAt(M.Selecting(wake), raced, c0) && ch.queue == [] && ch.senders == 0
      requires Next(w.s, TheConsumer, w.waited) != Some(M.Call(M.CancelReceive))
      modifies w
      ensures Returned(M.ConnectionLost, c0) && w.script == old(w.script)
      ensures w.connected == old(w.connected) && w.clock == old(w.clock)
    {
      SelectingNext(w.s, w.waited);
      w.Step(M.Await(M.WakeByClosed), TheConsumer, c0);
    }

    method MoveOn(wake: Option<Time>, raced: bool, ghost c0: Config)
      requires TurnAt(M.Selecting(wake), raced, c0) && ch.queue == [] && ch.senders != 0
      requires Next(w.s, TheConsumer, w.waited) != Some(M.Call(M.CancelReceive))
      modifies w
      ensures At(M.PastChannel(wake, |old(w.s.log)|), raced, c0) && w.script == old(w.script)
      ensures w.s == M.AwaitDo(old(w.s), M.FindEmpty) && w.connected == old(w.connected) && w.clock == old(w.clock)
    {
      SelectingNext(w.s, w.waited);
      w.Step(M.Await(M.FindEmpty), TheConsumer, c0);
    }

    /** The select, past the channel: the timer is due. */
    method WakeByTimer(wake: Option<Time>, ghost seen: nat, raced: bool, ghost c0: Config)
      requires TurnAt(M.PastChannel(wake, seen), raced, c0) && wake.Some? && wake.value <= w.clock
      modifies w
      ensures At(M.ShutdownCheck, raced, c0) && w.script == old(w.script)
      ensures DueNow(w.s) && w.s.consumer.rounds >= 1
    {
      WakeIsScheduled(w.s);
      PastChannelNext(w.s, w.waited);
      w.Step(M.Await(M.WakeByTimer), TheConsumer, c0);
    }

    method LoseConnection(wake: Option<Time>, ghost seen: nat, raced: bool, ghost c0: Config)
      requires TurnAt(M.PastChannel(wake, seen), raced, c0) && !w.connected && (wake.Some? ==> w.clock < wake.value)
      modifies w
      ensures Returned(M.ConnectionLost, c0) && w.script == old(w.script)
    {
      PastChannelNext(w.s, w.waited);
      w.Step(M.Await(M.WakeByLiveness), TheConsumer, c0);
    }

    method Sleep(wake: Option<Time>, ghost seen: nat, raced: bool, ghost c0: Config)
      requires TurnAt(M.PastChannel(wake, seen), raced, c0) && w.connected && (wake.Some? ==> w.clock < wake.value)
      modifies w
      ensures At(M.Selecting(wake), raced, c0) && w.script == old(w.script) && w.waited
      ensures w.s == M.AwaitDo(old(w.s), M.Sleep)
    {
      PastChannelNext(w.s, w.waited);
      w.Step(M.Await(M.Sleep), TheConsumer, c0);
    }

    /** The check at the top of the receive loop. */
    method CheckShutdown(raced: bool, ghost c0: Config) returns (stop: bool)
      requires TurnAt(M.ShutdownCheck, raced, c0)
      requires Next(w.s, TheConsumer, w.waited) == Some(M.Call(M.CheckShutdown))
      modifies w
      ensures w.script == old(w.script) && w.s == M.CallDo(old(w.s), M.CheckShutdown)
      ensures if stop then Returned(M.ConsumerShutdown, c0) else At(M.AwaitFlushLock, raced, c0)
    {
      stop := shutdown.IsShutdown();
      w.Step(M.Call(M.CheckShutdown), TheConsumer, c0);
    }

    /** The check of `receive_graceful` before the race. */
    method CheckGraceful(ghost c0: Config) returns (stop: bool)
      requires TurnAt(M.GracefulCheck, true, c0)
      modifies w
      ensures w.script == old(w.script)
      ensures stop == old(shutdown.signalled)
      ensures if stop then Returned(M.Stopped, c0)
              else At(M.ShutdownCheck, true, c0) && w.s.consumer.rounds == old(w.s.consumer.rounds)
    {
      stop := shutdown.IsShutdown();
      w.Step(M.Call(M.CheckGraceful), TheConsumer, c0);
    }

    /** The race is lost: the `receive` is dropped where it is, and with it the lock if it holds it. */
    method Drop(ghost c0: Config)
      requires Calling(true, c0) && w.CancelDue(c0)
      modifies w, shared
      ensures Returned(M.Stopped, c0)
    {
      Sa.ReachableLocking(w.s);
      if shared.lock == M.ByConsumer {
        shared.lock := M.Free;
      }
      w.Step(M.Call(M.CancelReceive), TheConsumer, c0);
    }

    // ---------- Calls ----------

    /** How a stretch of a call came out that did not end in the step after it. */
    ghost predicate Broken(o: Wakeup, raced: bool, c0: Config)
      reads this, w, w.ch, w.shared, w.shutdown
    {
      Calling(raced, c0) && o != Go && w.Came(o, TheConsumer, c0) && (o == Cancelled ==> raced)
    }

    /** How a call came out. */
    ghost predicate Outcome(o: Outcome, raced: bool, c0: Config)
      reads this, w, w.ch, w.shared, w.shutdown, if o.Received? then {o.delivery} else {}
    {
      match o
      case Received(d) => HandedOut(d, c0)
      case Failed(ConsumerShutdown) => Returned(M.ConsumerShutdown, c0)
      case Failed(ConnectionLost) => Returned(M.ConnectionLost, c0)
      case Interrupted => Calling(raced, c0) && w.CancelDue(c0)
      case StillWaiting => Calling(raced, c0) && Played(c0, w.Now(), TheConsumer) && Stalled(w.Now(), TheConsumer)
    }

    /** The flush itself, with the lock held. */
    method FlushLocked(raced: bool, ghost c0: Config) returns (o: Wakeup)
      requires At(M.FlushLocked, raced, c0)
      modifies w, ch, shared, shutdown
      ensures |w.script| <= |old(w.script)|
      ensures if o == Go then w.s.consumer.pc.Flushing? && w.s.consumer.pc.due == [] && At(w.s.consumer.pc, raced, c0)
              else Broken(o, raced, c0)
      ensures o == Go && old(w.script) == [] && DueNow(old(w.s)) ==> ch.queue != []
    {
      ghost var before := w.Now();
      o := shared.FlushDueScheduled(w, raced, c0);
      if o == Go && before.script == [] && DueNow(before.s) {
        FlushedSome(before.s, w.s);
      }
    }

    method EndFlush(raced: bool, ghost c0: Config)
      requires w.s.consumer.pc.Flushing? && w.s.consumer.pc.due == [] && At(w.s.consumer.pc, raced, c0)
      modifies w, ch, shared, shutdown
      ensures At(M.TryRecv, raced, c0) && |w.script| <= |old(w.script)| && (old(ch.queue) != [] ==> ch.queue != [])
    {
      w.Begin(TheConsumer, c0);
      GiveUpLock(raced, c0);
    }

    /** The lock, at either of the places where a call takes it. */
    method GetLock(raced: bool, ghost c0: Config) returns (o: Wakeup)
      requires At(w.s.consumer.pc, raced, c0) && WaitsForLock(w.s, TheConsumer)
      modifies w, ch, shared, shutdown
      ensures Less(|w.script|, |old(w.script)|) && (old(w.script) == [] ==> w.s == old(w.s))
      ensures if o == Go then TurnAt(old(w.s.consumer.pc), raced, c0) && shared.lock == M.Free
                              && Next(w.s, TheConsumer, w.waited).Some?
                              && Next(w.s, TheConsumer, w.waited) != Some(M.Call(M.CancelReceive))
              else Broken(o, raced, c0)
    {
      o := w.AwaitLock(TheConsumer, raced, c0);
    }

    /** `flush_scheduled`. */
    method FlushScheduled(raced: bool, ghost c0: Config) returns (o: Wakeup)
      requires At(M.AwaitFlushLock, raced, c0)
      modifies w, ch, shared, shutdown
      ensures Less(|w.script|, |old(w.script)|)
      ensures if o == Go then At(M.TryRecv, raced, c0) else Broken(o, raced, c0)
      ensures o == Go && old(w.script) == [] && DueNow(old(w.s)) ==> ch.queue != []
    {
      o := GetLock(raced, c0);
      if o == Go {
        TakeLock(raced, c0);
        o := FlushLocked(raced, c0);
        if o == Go {
          EndFlush(raced, c0);
        }
      }
    }

    /** The looks at the shutdown and at the channel. `None`: neither has anything. */
    method LookFirst(wake: Option<Time>, raced: bool, ghost c0: Config) returns (o: Option<Outcome>)
      requires At(M.Selecting(wake), raced, c0) && !Over(w.Now(), TheConsumer)
      modifies w, ch, shared, shutdown
      ensures Less(|w.script|, |old(w.script)|)
      ensures match o
              case None =>
                && w.s.consumer.pc.PastChannel? && w.s.consumer.pc.wake == wake && At(w.s.consumer.pc, raced, c0)
                && (old(w.script) == [] ==>
                      && old(ch.queue) == [] && old(ch.senders) != 0 && w.connected == old(w.connected)
                      && w.clock == old(w.clock) && !(raced && old(shutdown.signalled) && old(w.waited)))
              case Some(r) =>
                Outcome(r, raced, c0) && (r.Received? ==> fresh(r.delivery) && fresh(r.delivery.ackHandle))
    {
      w.Others();
      o := LookFirstNow(wake, raced, c0);
    }

    method LookFirstNow(wake: Option<Time>, raced: bool, ghost c0: Config) returns (o: Option<Outcome>)
      requires TurnAt(M.Selecting(wake), raced, c0)
      modifies w, ch
      ensures w.script == old(w.script) && w.connected == old(w.connected) && w.clock == old(w.clock)
      ensures match o
              case None =>
                && w.s.consumer.pc.PastChannel? && w.s.consumer.pc.wake == wake && At(w.s.consumer.pc, raced, c0)
                && old(ch.queue) == [] && old(ch.senders) != 0 && !(raced && old(shutdown.signalled) && old(w.waited))
              case Some(r) =>
                Outcome(r, raced, c0) && (r.Received? ==> fresh(r.delivery) && fresh(r.delivery.ackHandle))
    {
      if raced && w.waited && shutdown.signalled {
        return Some(Interrupted);
      }
      var look := LookAtChannel(wake, raced, c0);
      match look
      case Popped(d) => o := Some(Received(d));
      case HungUp => o := Some(Failed(ConnectionLost));
      case NothingThere => o := None;
    }

    /** The looks at the timer and at the producers. `None`: neither has anything, and it sleeps. */
    method LookOn(wake: Option<Time>, ghost seen: nat, raced: bool, ghost c0: Config) returns (o: Option<Rounded>)
      requires At(M.PastChannel(wake, seen), raced, c0)
      modifies w, ch, shared, shutdown
      ensures |w.script| <= |old(w.script)|
      ensures match o
              case None =>
                && At(M.Selecting(wake), raced, c0) && w.waited
                && (old(w.script) == [] ==> old(w.connected) && (wake.Some? ==> old(w.clock) < wake.value))
              case Some(Again) => At(M.ShutdownCheck, raced, c0) && DueNow(w.s) && w.s.consumer.rounds >= 1
              case Some(Ended(r)) => r == Failed(ConnectionLost) && Returned(M.ConnectionLost, c0)
    {
      w.Begin(TheConsumer, c0);
      o := LookOnNow(wake, seen, raced, c0);
    }

    method LookOnNow(wake: Option<Time>, ghost seen: nat, raced: bool, ghost c0: Config) returns (o: Option<Rounded>)
      requires TurnAt(M.PastChannel(wake, seen), raced, c0)
      modifies w
      ensures w.script == old(w.script)
      ensures match o
              case None =>
                && At(M.Selecting(wake), raced, c0) && w.waited
                && old(w.connected) && (wake.Some? ==> old(w.clock) < wake.value)
              case Some(Again) => At(M.ShutdownCheck, raced, c0) && DueNow(w.s) && w.s.consumer.rounds >= 1
              case Some(Ended(r)) => r == Failed(ConnectionLost) && Returned(M.ConnectionLost, c0)
    {
      if wake.Some? && wake.value <= w.clock {
        WakeByTimer(wake, seen, raced, c0);
        return Some(Again);
      }
      if !w.connected {
        LoseConnection(wake, seen, raced, c0);
        return Some(Ended(Failed(ConnectionLost)));
      }
      Sleep(wake, seen, raced, c0);
      o := None;
    }

    /** One pass through the looks of the select. `None`: nothing was ready, and it sleeps. */
    method SelectOnce(wake: Option<Time>, raced: bool, ghost c0: Config) returns (o: Option<Rounded>)
      requires At(M.Selecting(wake), raced, c0) && !Over(w.Now(), TheConsumer)
      modifies w, ch, shared, shutdown
      ensures |w.script| <= |old(w.script)|
      ensures match o
              case None =>
                At(M.Selecting(wake), raced, c0) && (|w.script| < |old(w.script)| || (w.waited && !old(w.waited)))
              case Some(Again) => At(M.ShutdownCheck, raced, c0) && DueNow(w.s) && w.s.consumer.rounds >= 1
              case Some(Ended(r)) =>
                Outcome(r, raced, c0) && (r.Received? ==> fresh(r.delivery) && fresh(r.delivery.ackHandle))
    {
      var first := LookFirst(wake, raced, c0);
      if first.Some? {
        return Some(Ended(first.value));
      }
      o := LookOn(wake, w.s.consumer.pc.seen, raced, c0);
    }

    /** The select, biased: the channel, the timer, the producers, and a shutdown before them if it is raced and the
        task was suspended. It sleeps with nothing ready, and for ever if nothing can wake it up. */
    method Select(wake: Option<Time>, raced: bool, ghost c0: Config) returns (o: Rounded)
      requires At(M.Selecting(wake), raced, c0)
      modifies w, ch, shared, shutdown
      ensures |w.script| <= |old(w.script)|
      ensures match o
              case Again => At(M.ShutdownCheck, raced, c0) && DueNow(w.s) && w.s.consumer.rounds >= 1
              case Ended(r) =>
                Outcome(r, raced, c0) && (r.Received? ==> fresh(r.delivery) && fresh(r.delivery.ackHandle))
    {
      while true
        invariant At(M.Selecting(wake), raced, c0) && |w.script| <= |old(w.script)|
        decreases |w.script|, if w.waited then 0 else 1
      {
        var ready := ch.queue != [] || ch.senders == 0 || (wake.Some? && wake.value <= w.clock) || !w.connected
        || (raced && shutdown.signalled);
        if w.script == [] && !ready {
          return Ended(StillWaiting);
        }
        var turn := SelectOnce(wake, raced, c0);
        if turn.Some? {
          return turn.value;
        }
      }
    }

    /** The second half of the loop body: look for the next delivery time, then select. */
    method Wait(raced: bool, ghost c0: Config) returns (o: Rounded)
      requires At(M.AwaitPeekLock, raced, c0)
      modifies w, ch, shared, shutdown
      ensures |w.script| <= |old(w.script)|
      ensures match o
              case Again => At(M.ShutdownCheck, raced, c0) && DueNow(w.s) && w.s.consumer.rounds >= 1
              case Ended(r) =>
                Outcome(r, raced, c0) && (r.Received? ==> fresh(r.delivery) && fresh(r.delivery.ackHandle))
    {
      var got := GetLock(raced, c0);
      if got != Go {
        return Ended(if got == Cancelled then Interrupted else StillWaiting);
      }
      o := PeekAndSelect(raced, c0);
    }

    method PeekAndSelect(raced: bool, ghost c0: Config) returns (o: Rounded)
      requires TurnAt(M.AwaitPeekLock, raced, c0) && shared.lock == M.Free
      requires Next(w.s, TheConsumer, w.waited) == Some(M.Await(M.Peek))
      modifies w, ch, shared, shutdown
      ensures |w.script| <= |old(w.script)|
      ensures match o
              case Again => At(M.ShutdownCheck, raced, c0) && DueNow(w.s) && w.s.consumer.rounds >= 1
              case Ended(r) =>
                Outcome(r, raced, c0) && (r.Received? ==> fresh(r.delivery) && fresh(r.delivery.ackHandle))
    {
      var wake := Peek(raced, c0);
      o := Select(wake, raced, c0);
    }

    method FlushAndPop(raced: bool, ghost c0: Config) returns (o: Wakeup, look: Look)
      requires At(M.AwaitFlushLock, raced, c0)
      modifies w, ch, shared, shutdown
      ensures Less(|w.script|, |old(w.script)|)
      ensures o != Go ==> Broken(o, raced, c0)
      ensures o == Go ==>
                match look
                case Popped(d) => HandedOut(d, c0) && fresh(d) && fresh(d.ackHandle)
                case _ =>
                  && (old(w.script) == [] ==> !DueNow(old(w.s)))
                  && if c0.s.consumer.mode != M.Polling then At(M.AwaitPeekLock, raced, c0)
                     else Returned(if look == HungUp then M.ConnectionLost else M.NoMessage, c0)
      ensures o == Go ==> look != HungUp
    {
      look := NothingThere;
      o := FlushScheduled(raced, c0);
      if o == Go {
        w.Begin(TheConsumer, c0);
        Se.DisconnectedExactly(w.s);
        look := Pop(raced, c0);
      }
    }

    /** The loop body after the shutdown check. It goes round `Again` only if others did something, or nothing was due
        at its start; and then something is. */
    method Round(raced: bool, ghost c0: Config) returns (o: Rounded)
      requires At(M.AwaitFlushLock, raced, c0) && c0.s.consumer.mode != M.Polling
      modifies w, ch, shared, shutdown
      ensures match o
              case Again =>
                && At(M.ShutdownCheck, raced, c0) && DueNow(w.s) && w.s.consumer.rounds >= 1
                && (|w.script| < |old(w.script)| || !DueNow(old(w.s)))
              case Ended(r) =>
                Outcome(r, raced, c0) && (r.Received? ==> fresh(r.delivery) && fresh(r.delivery.ackHandle))
      ensures |w.script| <= |old(w.script)|
    {
      var flushed, look := FlushAndPop(raced, c0);
      if flushed != Go {
        return Ended(if flushed == Cancelled then Interrupted else StillWaiting);
      }
      if look.Popped? {
        return Ended(Received(look.delivery));
      }
      o := Wait(raced, c0);
    }

    /** The looks at the shutdown that come before the loop body. */
    method CheckNow(first: bool, raced: bool, ghost c0: Config) returns (o: Option<Outcome>)
      requires TurnAt(M.ShutdownCheck, raced, c0) && first == (w.s.consumer.rounds == 0)
      modifies w
      ensures w.script == old(w.script) && w.s.scheduled == old(w.s.scheduled) && w.s.clock == old(w.s.clock)
      ensures match o
              case None => At(M.AwaitFlushLock, raced, c0) && !old(shutdown.signalled)
              case Some(r) => (r.Interrupted? || r == Failed(ConsumerShutdown)) && Outcome(r, raced, c0)
    {
      if raced && shutdown.signalled && (w.waited || first) {
        return Some(Interrupted);
      }
      var stop := CheckShutdown(raced, c0);
      o := if stop then Some(Failed(ConsumerShutdown)) else None;
    }

    /** One time round the receive loop. `None`: it goes round again. */
    method LoopOnce(first: bool, raced: bool, ghost c0: Config) returns (o: Option<Outcome>)
      requires At(M.ShutdownCheck, raced, c0) && c0.s.consumer.mode != M.Polling && first == (w.s.consumer.rounds == 0)
      modifies w, ch, shared, shutdown
      ensures |w.script| <= |old(w.script)|
      ensures match o
              case None =>
                && At(M.ShutdownCheck, raced, c0) && DueNow(w.s) && w.s.consumer.rounds >= 1
                && (|w.script| < |old(w.script)| || !DueNow(old(w.s)))
              case Some(r) =>
                Outcome(r, raced, c0) && (r.Received? ==> fresh(r.delivery) && fresh(r.delivery.ackHandle))
      ensures old(shutdown.signalled) ==> o.Some? && (o.value.Interrupted? || o.value == Failed(ConsumerShutdown))
    {
      w.Begin(TheConsumer, c0);
      o := CheckNow(first, raced, c0);
      if o.Some? {
        return;
      }
      var round := Round(raced, c0);
      o := if round.Ended? then Some(round.outcome) else None;
    }

    /** The receive loop, raced against a shutdown or not. */
    method ReceiveLoop(raced: bool, ghost c0: Config) returns (o: Outcome)
      requires At(M.ShutdownCheck, raced, c0) && c0.s.consumer.mode != M.Polling && w.s.consumer.rounds == 0
      modifies w, ch, shared, shutdown
      ensures Outcome(o, raced, c0) && (o.Received? ==> fresh(o.delivery) && fresh(o.delivery.ackHandle))
      ensures old(shutdown.signalled) ==> o.Interrupted? || o == Failed(ConsumerShutdown)
    {
      var first := true;
      while true
        invariant At(M.ShutdownCheck, raced, c0) && first == (w.s.consumer.rounds == 0)
        invariant old(shutdown.signalled) ==> shutdown.signalled && first
        decreases |w.script|, if DueNow(w.s) then 0 else 1
      {
        var once := LoopOnce(first, raced, c0);
        if once.Some? {
          return once.value;
        }
        first := false;
      }
    }

    /** A call begins. */
    method Enter(mode: M.Mode)
      requires Valid() && w.s.consumer.pc == M.Idle
      modifies w
      ensures w.Now() == Begun(old(w.Now()), mode) && w.s.consumer.rounds == 0
      ensures var pc := match mode
                        case Plain => M.ShutdownCheck
                        case Graceful => M.GracefulCheck
                        case Polling => M.AwaitFlushLock;
              At(pc, mode == M.Graceful, w.Now())
    {
      w.Take(M.Call(M.Begin(mode)));
      PlayedNothing(w.Now(), TheConsumer);
    }

    lemma OutcomeIsOver(o: Outcome, raced: bool, c0: Config)
      requires Outcome(o, raced, c0) && !o.Interrupted?
      ensures Played(c0, w.Now(), TheConsumer) && Over(w.Now(), TheConsumer)
    {
    }

    /** A call of `receive`. */
    method Receive() returns (r: Outcome)
      requires Valid() && w.s.consumer.pc == M.Idle
      modifies w, ch, shared, shutdown
      ensures Called(old(w.Now()), w.Now(), M.Plain)
      ensures Outcome(r, false, Begun(old(w.Now()), M.Plain)) && r != Interrupted
      ensures old(shutdown.signalled) ==> r == Failed(ConsumerShutdown)
      ensures r.Received? ==> fresh(r.delivery) && fresh(r.delivery.ackHandle)
      ensures Quiet(old(w.Now())) && old(ch.queue) != [] ==> HandsOutNext(old(w.Now()), w.Now(), M.Plain)
    {
      ghost var c, queue := w.Now(), ch.queue;
      Enter(M.Plain);
      ghost var c0 := w.Now();
      r := ReceiveLoop(false, c0);
      OutcomeIsOver(r, false, c0);
      if Quiet(c) && queue != [] {
        QuietReceive(c, w.Now());
      }
    }

    /** What `try_receive` comes to. */
    ghost predicate Polled(r: Tried, c0: Config)
      reads this, w, w.ch, w.shared, w.shutdown, if r.One? then {r.delivery} else {}
    {
      match r
      case One(d) => HandedOut(d, c0)
      case Nothing => Returned(M.NoMessage, c0)
      case Refused(kind) => kind == ConnectionLost && Returned(M.ConnectionLost, c0)
      case Unfinished => Outcome(StillWaiting, false, c0)
    }

    /** A call of `try_receive`. It does not look at the shutdown signal, and never fails: an error would mean that
        the channel has no sender left, but the consumer holds one. */
    method TryReceive() returns (r: Tried)
      requires Valid() && w.s.consumer.pc == M.Idle
      modifies w, ch, shared, shutdown
      ensures Called(old(w.Now()), w.Now(), M.Polling) && Polled(r, Begun(old(w.Now()), M.Polling)) && !r.Refused?
      ensures r.One? ==> fresh(r.delivery) && fresh(r.delivery.ackHandle)
      ensures Quiet(old(w.Now())) && old(ch.queue) != [] ==> HandsOutNext(old(w.Now()), w.Now(), M.Polling)
      ensures Quiet(old(w.Now())) && old(ch.queue) == [] ==>
                r == Nothing && Undisturbed(old(w.Now()), w.Now()) && ch.queue == []
    {
      ghost var c := w.Now();
      Se.DisconnectedExactly(w.s);
      Enter(M.Polling);
      ghost var c0 := w.Now();
      r := PollOnce(c0);
      if Quiet(c) {
        QuietlyPolled(r, c);
      }
    }

    /** A quiet poll takes the next message if there is one, and finds nothing otherwise. */
    lemma QuietlyPolled(r: Tried, c: Config)
      requires M.CanCall(c.s, M.Begin(M.Polling)) && Quiet(c) && c.s.senders != 0
      requires Polled(r, Begun(c, M.Polling))
      ensures c.s.channel != [] ==> HandsOutNext(c, w.Now(), M.Polling)
      ensures c.s.channel == [] ==> r == Nothing && Undisturbed(c, w.Now()) && ch.queue == []
    {
      PolledIsOver(r, Begun(c, M.Polling));
      QuietPoll(c, w.Now());
      if c.s.channel == [] {
        assert w.s.calls[|c.s.calls|] == M.Ended(M.Polling, M.NoMessage);
      }
    }

    lemma PolledIsOver(r: Tried, c0: Config)
      requires Polled(r, c0)
      ensures Played(c0, w.Now(), TheConsumer) && Over(w.Now(), TheConsumer)
    {
    }

    method PollOnce(ghost c0: Config) returns (r: Tried)
      requires At(M.AwaitFlushLock, false, c0) && c0.s.consumer.mode == M.Polling
      modifies w, ch, shared, shutdown
      ensures Polled(r, c0) && !r.Refused? && (r.One? ==> fresh(r.delivery) && fresh(r.delivery.ackHandle))
    {
      var o, look := FlushAndPop(false, c0);
      if o != Go {
        return Unfinished;
      }
      match look
      case Popped(d) => r := One(d);
      case HungUp => r := Refused(ConnectionLost);
      case NothingThere => r := Nothing;
    }

    /** A call of `receive_graceful`; `None` ends a loop over it. */
    method ReceiveGraceful() returns (r: Option<Outcome>)
      requires Valid() && w.s.consumer.pc == M.Idle
      modifies this`answers, w, ch, shared, shutdown
      ensures Called(old(w.Now()), w.Now(), M.Graceful)
      ensures Graceful(r, Begun(old(w.Now()), M.Graceful)) && (old(shutdown.signalled) ==> r == None)
      ensures r.Some? && r.value.Received? ==> fresh(r.value.delivery) && fresh(r.value.delivery.ackHandle)
      ensures answers == old(answers) + [AnswerOf(r)]
    {
      Enter(M.Graceful);
      r := ReceiveRaced(w.Now());
      answers := answers + [AnswerOf(r)];
    }

    /** What `receive_graceful` comes to. */
    ghost predicate Graceful(r: Option<Outcome>, c0: Config)
      reads this, w, w.ch, w.shared, w.shutdown, if r.Some? && r.value.Received? then {r.value.delivery} else {}
    {
      match r
      case None => Returned(M.Stopped, c0)
      case Some(o) => o != Interrupted && Outcome(o, true, c0)
    }

    method ReceiveRaced(ghost c0: Config) returns (r: Option<Outcome>)
      requires At(M.GracefulCheck, true, c0) && w.s.consumer.rounds == 0
      modifies w, ch, shared, shutdown
      ensures Graceful(r, c0) && (old(shutdown.signalled) ==> r == None)
      ensures r.Some? && r.value.Received? ==> fresh(r.value.delivery) && fresh(r.value.delivery.ackHandle)
    {
      w.Begin(TheConsumer, c0);
      var stop := CheckGraceful(c0);
      if stop {
        return None;
      }
      var inner := ReceiveLoop(true, c0);
      if inner == Interrupted {
        Drop(c0);
        return None;
      }
      r := Some(inner);
    }

    // ---------- Batches ----------

    /** The deliveries gathered since `s`: the next receipts, in the hands of this task. */
    ghost predicate Gathered(ds: seq<Delivery>, s: M.State)
      reads w, set d | d in ds
    {
      && |w.s.receipts| == |s.receipts| + |ds|
      && forall k :: 0 <= k < |ds| ==> ds[k].Open(w) && ds[k].ackHandle.number == |s.receipts| + k
    }

    /** A batch under way: the calls so far, one after the other, each of which has delivered. */
    ghost predicate Gathering(ds: seq<Delivery>, c: Config)
      reads this, w, w.ch, w.shared, w.shutdown, set d | d in ds
    {
      && Valid() && w.s.consumer.pc == M.Idle && |ds| >= 1 && Gathered(ds, c.s)
      && BatchCalled(c, w.Now(), |ds| - 1)
      && w.s.calls == c.s.calls + BatchCalls(|c.s.receipts|, |ds|)
    }

    /** As long as nobody interferes, the batch is what was in the channel. */
    ghost predicate Draining(ds: seq<Delivery>, c: Config)
      reads this, w, w.ch, w.shared, w.shutdown, set d | d in ds
    {
      && Quiet(w.Now()) && |ds| <= |c.s.channel| && w.s.channel == c.s.channel[|ds|..]
      && EnvelopesOf(ds) == c.s.channel[..|ds|]
    }

    lemma GatheredFirst(d: Delivery, c: Config)
      requires Called(c, w.Now(), M.Plain) && HandedOut(d, Begun(c, M.Plain))
      ensures Gathering([d], c)
    {
      FirstCall(c, w.Now());
      assert BatchCalls(|c.s.receipts|, 1) == [] + [M.Ended(M.Plain, M.Delivered(|c.s.receipts|))];
    }

    lemma QuietStays(c: Config)
      requires Quiet(c) && Undisturbed(c, w.Now())
      ensures Quiet(w.Now())
    {
    }

    lemma DrainedFirst(d: Delivery, c: Config)
      requires Quiet(c) && HandsOutNext(c, w.Now(), M.Plain) && d.Open(w) && d.ackHandle.number == |c.s.receipts|
      ensures Draining([d], c)
    {
      QuietStays(c);
      assert d.envelope == c.s.channel[0] && c.s.channel[..1] == [c.s.channel[0]];
    }

    lemma ReceivedQuietly(r: Outcome, c: Config)
      requires M.CanCall(c.s, M.Begin(M.Plain)) && Outcome(r, false, Begun(c, M.Plain)) && !r.Interrupted?
      requires HandsOutNext(c, w.Now(), M.Plain)
      ensures r.Received?
    {
      assert w.s.calls[|c.s.calls|] == M.Ended(M.Plain, M.Delivered(|c.s.receipts|));
    }

    lemma PolledQuietly(r: Tried, c: Config)
      requires M.CanCall(c.s, M.Begin(M.Polling)) && Polled(r, Begun(c, M.Polling))
      requires HandsOutNext(c, w.Now(), M.Polling)
      ensures r.One?
    {
      assert w.s.calls[|c.s.calls|] == M.Ended(M.Polling, M.Delivered(|c.s.receipts|));
    }

    method FirstOfBatch() returns (r: Outcome)
      requires Valid() && w.s.consumer.pc == M.Idle
      modifies w, ch, shared, shutdown
      ensures Called(old(w.Now()), w.Now(), M.Plain)
      ensures Outcome(r, false, Begun(old(w.Now()), M.Plain)) && r != Interrupted
      ensures r.Received? ==> fresh(r.delivery) && fresh(r.delivery.ackHandle) && Gathering([r.delivery], old(w.Now()))
      ensures Quiet(old(w.Now())) && old(ch.queue) != [] ==> r.Received? && Draining([r.delivery], old(w.Now()))
    {
      ghost var c, queue := w.Now(), ch.queue;
      r := Receive();
      if r.Received? {
        GatheredFirst(r.delivery, c);
      }
      if Quiet(c) && queue != [] {
        ReceivedQuietly(r, c);
        DrainedFirst(r.delivery, c);
      }
    }

    /** What the deliveries gathered so far are after another call. */
    lemma StillGathered(ds: seq<Delivery>, s0: M.State, c: Config, mode: M.Mode)
      requires M.Reachable(c.s) && M.CanCall(c.s, M.Begin(mode)) && Called(c, w.Now(), mode)
      requires |c.s.receipts| == |s0.receipts| + |ds|
      requires forall k :: 0 <= k < |ds| ==> ds[k].ackHandle.number == |s0.receipts| + k && StillOpen(ds[k], c)
      ensures forall k :: 0 <= k < |ds| ==> ds[k].Open(w)
    {
      M.ReachableStep(c.s, M.Call(M.Begin(mode)));
      forall k | 0 <= k < |ds| ensures ds[k].Open(w) {
        PlayedKeeps(Begun(c, mode), w.Now(), ds[k].ackHandle.number);
      }
    }

    /** An open delivery of `c`, whatever happened to the world since. */
    predicate StillOpen(d: Delivery, c: Config)
      reads d
    {
      var h := d.ackHandle;
      && !d.resolved && h.w == w && h.envelope == d.envelope && h.requeueTx == w.ch && h.shared == w.shared
      && TheDelivery(h.number) in c.mine && h.number < |c.s.receipts|
      && c.s.receipts[h.number] == M.Receipt(d.envelope, M.Held)
    }

    /** The batch with one more call behind it, which did not deliver. */
    ghost predicate EndsWith(ds: seq<Delivery>, c: Config)
      reads this, w, w.ch, w.shared, w.shutdown, set d | d in ds
    {
      && Valid() && w.s.consumer.pc == M.Idle && Gathered(ds, c.s)
      && BatchCalled(c, w.Now(), |ds|)
      && w.s.calls == c.s.calls + BatchCalls(|c.s.receipts|, |ds|) + [M.Ended(M.Polling, M.NoMessage)]
    }

    /** What one more poll came to. */
    ghost predicate Extends(r: Tried, ds: seq<Delivery>, c: Config)
      reads this, w, w.ch, w.shared, w.shutdown, set d | d in ds, if r.One? then {r.delivery} else {}
    {
      match r
      case One(d) => Gathering(ds + [d], c)
      case Nothing => EndsWith(ds, c)
      case Unfinished => Valid() && BatchCalled(c, w.Now(), |ds|) && Stalled(w.Now(), TheConsumer)
      case Refused(_) => false
    }

    /** One more poll for a batch. */
    method NextOfBatch(ds: seq<Delivery>, ghost c: Config) returns (r: Tried)
      requires Gathering(ds, c)
      modifies w, ch, shared, shutdown
      ensures Extends(r, ds, c) && (r.One? ==> fresh(r.delivery))
      ensures old(Draining(ds, c)) ==> if old(ch.queue) == [] then r == Nothing
                                       else r.One? && Draining(ds + [r.delivery], c)
    {
      ghost var mid, queue, quiet := w.Now(), ch.queue, Draining(ds, c);
      assert M.Reachable(mid.s) && MidBatch(ds, c, mid);
      r := TryReceive();
      BatchGoesOn(ds, c, mid);
      match r {
        case One(d) => Extended(d, ds, c, mid);
        case _ => StayGathered(r, ds, c, mid);
      }
      if quiet && queue != [] {
        PolledQuietly(r, mid);
        DrainedMore(ds, r.delivery, c, mid);
      }
    }

    /** The batch was under way in `mid`. */
    ghost predicate MidBatch(ds: seq<Delivery>, c: Config, mid: Config)
      reads set d | d in ds
    {
      && |ds| >= 1 && |mid.s.receipts| == |c.s.receipts| + |ds| && M.CanCall(mid.s, M.Begin(M.Polling))
      && BatchCalled(c, mid, |ds| - 1)
      && mid.s.calls == c.s.calls + BatchCalls(|c.s.receipts|, |ds|)
      && forall k :: 0 <= k < |ds| ==> ds[k].ackHandle.number == |c.s.receipts| + k && StillOpen(ds[k], mid)
    }

    /** What the batch is after one more call, if nothing else is known of it. */
    lemma BatchGoesOn(ds: seq<Delivery>, c: Config, mid: Config)
      requires M.Reachable(mid.s) && MidBatch(ds, c, mid) && Called(mid, w.Now(), M.Polling)
      ensures BatchCalled(c, w.Now(), |ds|)
      ensures forall k :: 0 <= k < |ds| ==> ds[k].Open(w) && ds[k].ackHandle.number == |c.s.receipts| + k
    {
      OneMoreCall(c, mid, w.Now(), |ds| - 1);
      StillGathered(ds, c.s, mid, M.Polling);
    }

    lemma GatheringOf(ds: seq<Delivery>, polls: nat, c: Config, mid: M.State)
      requires Valid() && w.s.consumer.pc == M.Idle && |ds| == polls + 1 && polls >= 1 && Gathered(ds, c.s)
      requires |mid.receipts| == |c.s.receipts| + polls && mid.calls == c.s.calls + BatchCalls(|c.s.receipts|, polls)
      requires w.s.calls == mid.calls + [M.Ended(M.Polling, M.Delivered(|mid.receipts|))]
      requires BatchCalled(c, w.Now(), polls)
      ensures Gathering(ds, c)
    {
      CallsMore(c.s.calls, |c.s.receipts|, polls, mid.calls, w.s.calls);
    }

    lemma Extended(d: Delivery, ds: seq<Delivery>, c: Config, mid: Config)
      requires |ds| >= 1 && |mid.s.receipts| == |c.s.receipts| + |ds| && M.CanCall(mid.s, M.Begin(M.Polling))
      requires mid.s.calls == c.s.calls + BatchCalls(|c.s.receipts|, |ds|)
      requires HandedOut(d, Begun(mid, M.Polling)) && BatchCalled(c, w.Now(), |ds|)
      requires forall k :: 0 <= k < |ds| ==> ds[k].Open(w) && ds[k].ackHandle.number == |c.s.receipts| + k
      ensures Gathering(ds + [d], c)
    {
      PolledOne(d, mid);
      GatheredOne(ds, d, c.s);
      GatheringOf(ds + [d], |ds|, c, mid.s);
    }

    lemma PolledOne(d: Delivery, mid: Config)
      requires M.CanCall(mid.s, M.Begin(M.Polling)) && HandedOut(d, Begun(mid, M.Polling))
      ensures Valid() && w.s.consumer.pc == M.Idle && d.Open(w)
      ensures d.ackHandle.number == |mid.s.receipts| && |w.s.receipts| == |mid.s.receipts| + 1
      ensures w.s.calls == mid.s.calls + [M.Ended(M.Polling, M.Delivered(|mid.s.receipts|))]
    {
    }

    lemma CallsMore(calls: seq<M.Ended>, from: nat, n: nat, mid: seq<M.Ended>, more: seq<M.Ended>)
      requires n >= 1 && mid == calls + BatchCalls(from, n)
      requires more == mid + [M.Ended(M.Polling, M.Delivered(from + n))]
      ensures more == calls + BatchCalls(from, n + 1)
    {
    }

    lemma StayGathered(r: Tried, ds: seq<Delivery>, c: Config, mid: Config)
      requires MidBatch(ds, c, mid) && Polled(r, Begun(mid, M.Polling)) && (r.Nothing? || r.Unfinished?)
      requires BatchCalled(c, w.Now(), |ds|) && Called(mid, w.Now(), M.Polling) && M.Reachable(mid.s)
      requires forall k :: 0 <= k < |ds| ==> ds[k].Open(w)
      ensures Extends(r, ds, c)
    {
      if r.Nothing? {
        NothingHandedOut(mid, M.Polling, M.NoMessage);
      }
    }

    /** A call that returned without a delivery has handed nothing out. */
    lemma NothingHandedOut(c: Config, mode: M.Mode, o: M.Outcome)
      requires M.Reachable(c.s) && M.CanCall(c.s, M.Begin(mode)) && Valid() && !o.Delivered?
      requires Returned(o, Begun(c, mode))
      ensures |w.s.receipts| == |c.s.receipts|
    {
      Ca.CallsInTurn(c.s);
      Ca.CallsInTurn(w.s);
      Ca.HandedOutAppend(c.s.calls, M.Ended(mode, o));
    }

    lemma GatheredOne(ds: seq<Delivery>, d: Delivery, s0: M.State)
      requires |w.s.receipts| == |s0.receipts| + |ds| + 1
      requires forall k :: 0 <= k < |ds| ==> ds[k].Open(w) && ds[k].ackHandle.number == |s0.receipts| + k
      requires d.Open(w) && d.ackHandle.number == |s0.receipts| + |ds|
      ensures Gathered(ds + [d], s0)
    {
    }

    lemma DrainedMore(ds: seq<Delivery>, d: Delivery, c: Config, mid: Config)
      requires Quiet(mid) && |ds| <= |c.s.channel| && mid.s.channel == c.s.channel[|ds|..]
      requires EnvelopesOf(ds) == c.s.channel[..|ds|]
      requires HandsOutNext(mid, w.Now(), M.Polling) && d.Open(w) && d.ackHandle.number == |mid.s.receipts|
      ensures Draining(ds + [d], c)
    {
      QuietStays(mid);
      assert d.envelope == c.s.channel[|ds|];
      assert c.s.channel[..|ds| + 1] == c.s.channel[..|ds|] + [c.s.channel[|ds|]];
      assert EnvelopesOf(ds + [d]) == EnvelopesOf(ds) + [d.envelope];
    }

    /** What `receive_batch` comes to: the next entries of the log, of which it gets as many as asked for unless a
        poll finds nothing; or what its first receive comes to; or it waits for ever in one of its calls. */
    ghost predicate Batched(r: Batch, max: nat, c: Config)
      reads this, w, w.ch, w.shared, w.shutdown, if r.Batch? then set d | d in r.deliveries else {}
    {
      match r
      case Batch(ds) =>
        && 1 <= |ds| <= (if max > 1 then max else 1)
        && (if |ds| < max then EndsWith(ds, c) else Gathering(ds, c))
        && InTheLog(ds, c.s)
      case BatchError(kind) => Called(c, w.Now(), M.Plain) && Outcome(Failed(kind), false, Begun(c, M.Plain))
      case BatchWaits =>
        Valid() && Stalled(w.Now(), TheConsumer) && exists polls: nat :: BatchCalled(c, w.Now(), polls)
    }

    ghost predicate InTheLog(ds: seq<Delivery>, s: M.State)
      reads w
    {
      && |s.receipts| + |ds| <= |w.s.log|
      && EnvelopesOf(ds) == Sa.Enqueued(w.s.log[|s.receipts|..|s.receipts| + |ds|])
    }

    /** Without anybody interfering the batch is what was in the channel, as much of it as asked for. */
    ghost predicate BatchDrains(r: Batch, max: nat, queue: seq<Envelope>) {
      && r.Batch? && |r.deliveries| <= |queue| && EnvelopesOf(r.deliveries) == queue[..|r.deliveries|]
      && (|r.deliveries| == |queue| || |r.deliveries| >= max)
    }

    /** The default `receive_batch`: one receive, then polls until the batch is full or a poll finds nothing. A poll
        that failed would drop what was gathered with its error; but only the first receive can fail. */
    method ReceiveBatch(max: nat) returns (r: Batch)
      requires Valid() && w.s.consumer.pc == M.Idle
      modifies w, ch, shared, shutdown
      ensures Batched(r, max, old(w.Now()))
      ensures Quiet(old(w.Now())) && old(ch.queue) != [] ==> BatchDrains(r, max, old(ch.queue))
    {
      ghost var c := w.Now();
      var first := FirstOfBatch();
      match first
      case Failed(kind) => r := BatchError(kind);
      case StillWaiting =>
        FirstCall(c, w.Now());
        r := BatchWaits;
      case Received(d) => r := Gather(d, max, c);
    }

    /** The loop of it. */
    method Gather(first: Delivery, max: nat, ghost c: Config) returns (r: Batch)
      requires Gathering([first], c)
      modifies w, ch, shared, shutdown
      ensures Batched(r, max, c) && !r.BatchError?
      ensures old(Draining([first], c)) ==> BatchDrains(r, max, c.s.channel)
    {
      var ds := [first];
      ghost var quiet := Draining(ds, c);
      while |ds| < max
        invariant Gathering(ds, c) && |ds| <= (if max > 1 then max else 1)
        invariant forall k :: 0 < k < |ds| ==> fresh(ds[k])
        invariant quiet ==> Draining(ds, c)
        decreases max - |ds|
      {
        var next := NextOfBatch(ds, c);
        match next {
          case One(d) => ds := ds + [d];
          case Nothing =>
            GatheredAreLog(ds, c);
            return Batch(ds);
          case Refused(kind) => return BatchError(kind);
          case Unfinished => return BatchWaits;
        }
      }
      GatheredAreLog(ds, c);
      r := Batch(ds);
    }

    lemma GatheredAreLog(ds: seq<Delivery>, c: Config)
      requires Valid() && Gathered(ds, c.s)
      ensures InTheLog(ds, c.s)
    {
      Sa.ReachableConserved(w.s);
      assert R.Fifo(w.s);
      forall k | 0 <= k < |ds| ensures ds[k].envelope == w.s.log[|c.s.receipts| + k].env {
        assert ds[k].Open(w);
      }
    }
  }

  function EnvelopesOf(ds: seq<Delivery>): seq<Envelope> {
    seq(|ds|, i requires 0 <= i < |ds| => ds[i].envelope)
  }

  function AnswerOf(r: Option<Outcome>): Answer {
    match r
    case None => End
    case Some(o) =>
      match o
      case Received(d) => Item(d.envelope)
      case Failed(kind) => Error(kind)
      case Interrupted => End
      case StillWaiting => StillPending
  }

  /** The bucket that set the timer is still there. */
  lemma WakeIsScheduled(s: M.State)
    requires M.Reachable(s) && s.consumer.pc.PastChannel? && s.consumer.pc.wake.Some?
    ensures s.consumer.pc.wake.value in s.scheduled
    ensures s.consumer.rounds >= 1
  {
    P.ReachableProgress(s);
  }

  /** A flush that had something to push has left something in the channel. */
  lemma FlushedSome(s: M.State, s': M.State)
    requires M.Reachable(s) && M.Reachable(s') && DueNow(s) && !s'.closed && |s'.receipts| == |s.receipts|
    requires Pushed(Flatten(Due(s.scheduled, s.clock)), [], s, s')
    ensures s'.channel != []
  {
    var t :| t in s.scheduled && t <= s.clock;
    P.ReachableProgress(s);
    FlattenNonempty(Due(s.scheduled, s.clock), t);
    Sa.ReachableConserved(s);
    Sa.ReachableConserved(s');
  }
}
