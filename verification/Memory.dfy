/** The shared objects of the in-memory backend, and the world they are in. A method works on the objects; the world
    keeps account of it: each step the code takes is a step of the machine, and whenever others may run, the next gap
    of the script is played and shows in the objects. */
module Memory {
  import opened Core
  import opened Schedule
  import opened Worlds
  import M = Machine
  import R = Refinement
  import Sa = Safety

  datatype ErrorKind = ConnectionLost | ConsumerShutdown

  // ---------- tokio::sync::mpsc ----------

  datatype SendOutcome = Sent | Full | NoReceiver

  datatype RecvOutcome = Got(env: Envelope) | Empty | Disconnected

  /** A bounded channel: `queue` between its two ends, `senders` counting the handles that can still send,
      `open` while the receiver lives. */
  class Channel {
    const capacity: nat
    var queue: seq<Envelope>
    var senders: int
    var open: bool

    constructor (n: nat)
      ensures capacity == n && queue == [] && senders == 1 && open
    {
      capacity, queue, senders, open := n, [], 1, true;
    }

    method CloneSender()
      modifies this`senders
      ensures senders == old(senders) + 1
    {
      senders := senders + 1;
    }

    method DropSender()
      modifies this`senders
      ensures senders == old(senders) - 1
    {
      senders := senders - 1;
    }

    /** One poll of `send`. */
    method Send(e: Envelope) returns (o: SendOutcome)
      modifies this`queue
      ensures o == if !open then NoReceiver else if |old(queue)| < capacity then Sent else Full
      ensures queue == if o == Sent then old(queue) + [e] else old(queue)
    {
      if !open {
        return NoReceiver;
      }
      if |queue| >= capacity {
        return Full;
      }
      queue := queue + [e];
      return Sent;
    }

    /** `try_recv`, and one poll of `recv`. */
    method Recv() returns (o: RecvOutcome)
      modifies this`queue
      ensures o.Got? <==> old(queue) != []
      ensures o.Got? ==> old(queue) == [o.env] + queue
      ensures !o.Got? ==> o == (if senders == 0 then Disconnected else Empty) && queue == []
    {
      if queue == [] {
        return if senders == 0 then Disconnected else Empty;
      }
      o := Got(queue[0]);
      queue := queue[1..];
    }
  }

  // ---------- shutdown.rs ----------

  class ShutdownHandle {
    var signalled: bool

    constructor ()
      ensures !signalled
    {
      signalled := false;
    }

    method Shutdown()
      modifies this
      ensures signalled
    {
      signalled := true;
    }

    method IsShutdown() returns (b: bool)
      ensures b == signalled
    {
      b := signalled;
    }
  }

  // ---------- The world ----------

  /** How waiting comes out: it is over, or a shutdown wins the race first, or it never ends. */
  datatype Wakeup = Go | Cancelled | Never

  /** The objects, the clock and whether there is a producer (`connected`), beside the machine they are the state of.
      `from` is where the turn began that is under way. */
  class World {
    const ch: Channel
    const shared: SharedState
    const shutdown: ShutdownHandle
    var connected: bool
    var clock: Time
    var s: M.State
    var script: seq<Gap>
    var mine: set<Actor>
    var waited: bool
    ghost var from: Config

    function Now(): Config
      reads this
    {
      Config(s, script, mine, waited)
    }

    ghost predicate Coupled(x: M.State)
      reads this, ch, shared, shutdown
    {
      && ch.capacity == x.capacity && ch.queue == x.channel && ch.open == !x.closed && ch.senders == x.senders
      && shared.dlq == x.dlq && shared.nackCounts == x.nackCounts && shared.scheduled == x.scheduled
      && shared.lock == x.lock && shutdown.signalled == x.shutdown
      && connected == (x.producers != {}) && clock == x.clock
    }

    ghost predicate Valid()
      reads this, ch, shared, shutdown
    {
      Coupled(s) && M.Reachable(s)
    }

    /** The objects of a freshly built pair: the consumer and the first producer are in the hands of this task. */
    constructor (capacity: nat, dlq: Option<U32>, now: Time, script: seq<Gap>)
      requires capacity >= 1
      ensures Valid() && fresh(ch) && fresh(shared) && fresh(shutdown)
      ensures Now() == Config(M.Init(capacity, dlq, now), script, {TheConsumer, TheProducer(0)}, false)
    {
      ch := new Channel(capacity);
      shared := new SharedState(dlq);
      shutdown := new ShutdownHandle();
      connected, clock, waited := true, now, false;
      s, this.script, mine := M.Init(capacity, dlq, now), script, {TheConsumer, TheProducer(0)};
      new;
      ch.CloneSender();
      assert M.Reaches(capacity, dlq, now, [], s);
    }

    /** Others may run: the next gap of the script is played. */
    method Others()
      requires Valid()
      modifies this`connected, this`clock, this`s, this`script, this`waited, this`from, ch, shared, shutdown
      ensures Valid() && from == old(Now()) && Now() == AfterGap(from)
      ensures Untouched(old(s), s, mine) && Less(|script|, |old(script)|)
    {
      from := Now();
      var g := AfterGap(Now());
      GapFacts(from);
      s, script, waited := g.s, g.script, g.waited;
      Show();
    }

    /** What others did shows in the objects. */
    method Show()
      requires ch.capacity == s.capacity && shared.dlq == s.dlq
      modifies this`connected, this`clock, ch, shared, shutdown
      ensures Coupled(s)
    {
      ch.queue, ch.open, ch.senders := s.channel, !s.closed, s.senders;
      shared.scheduled, shared.nackCounts, shared.lock := s.scheduled, s.nackCounts, s.lock;
      shutdown.signalled, connected, clock := s.shutdown, s.producers != {}, s.clock;
    }

    /** The turn of `a` that is under way: the others have run, and `a` has yet to take its step. */
    ghost predicate InTurn(a: Actor, c0: Config)
      reads this
    {
      Played(c0, from, a) && !Over(from, a) && Now() == AfterGap(from)
    }

    /** The code has just taken its step; the machine takes it too. */
    method Step(st: M.Step, a: Actor, ghost c0: Config)
      requires InTurn(a, c0) && M.Reachable(s) && Next(s, a, waited) == Some(st) && Coupled(M.Do(s, st))
      modifies this`s, this`mine, this`waited
      ensures Valid() && Played(c0, Now(), a) && Now() == Took(old(Now()), st)
    {
      M.ReachableStep(s, st);
      PlayedTurn(c0, from, a);
      StepIsTurn(from, st, a);
      var next := Took(Now(), st);
      s, mine, waited := next.s, next.mine, next.waited;
    }

    /** A step the program takes of its own accord: the beginning of a call, an acknowledgement, a shutdown. */
    method Take(st: M.Step)
      requires M.Reachable(s) && M.Can(s, st) && Coupled(M.Do(s, st))
      modifies this`s, this`mine, this`waited
      ensures Valid() && Now() == Took(old(Now()), st)
    {
      M.ReachableStep(s, st);
      var next := Took(Now(), st);
      s, mine, waited := next.s, next.mine, next.waited;
    }

    /** A batch is begun; sending it is in the hands of this task. */
    method Start(p: nat, batch: seq<Envelope>) returns (t: nat)
      requires Valid() && M.CanProduce(s, M.StartBatch(p, batch))
      modifies this`s, this`mine, this`waited
      ensures Valid() && t == |old(s.tasks)| && Now() == Started(old(Now()), p, batch)
    {
      M.ReachableStep(s, M.Producer(M.StartBatch(p, batch)));
      t := |s.tasks|;
      s, mine, waited := M.Produce(s, M.StartBatch(p, batch)), mine + {TheTask(t)}, false;
    }

    /** A turn that leads to a step in any case. */
    method Begin(a: Actor, ghost c0: Config)
      requires Valid() && Busy(s, a) && Played(c0, Now(), a)
      modifies this`connected, this`clock, this`s, this`script, this`waited, this`from, ch, shared, shutdown
      ensures Valid() && InTurn(a, c0) && Untouched(old(s), s, mine) && from == old(Now())
      ensures Less(|script|, |old(script)|)
    {
      BusyGoesOn(Now(), a);
      Others();
    }

    /** How the race against a shutdown is lost in the middle of a turn. */
    ghost predicate CancelDue(c0: Config)
      reads this
    {
      InTurn(TheConsumer, c0) && Next(s, TheConsumer, waited) == Some(M.Call(M.CancelReceive))
    }

    /** How a stretch of turns came out. */
    ghost predicate Came(o: Wakeup, a: Actor, c0: Config)
      reads this
    {
      match o
      case Go => Played(c0, Now(), a)
      case Cancelled => a == TheConsumer && CancelDue(c0)
      case Never => Played(c0, Now(), a) && Stalled(Now(), a)
    }

    /** One poll of the lock. */
    method TryLock(a: Actor, raced: bool, ghost c0: Config) returns (o: Option<Wakeup>)
      requires Valid() && a in mine && WaitsForLock(s, a) && raced == RacedBy(s, a) && Played(c0, Now(), a)
      modifies this`connected, this`clock, this`s, this`script, this`waited, this`from, ch, shared, shutdown
      ensures Valid() && Untouched(old(s), s, mine) && WaitsForLock(s, a) && Less(|script|, |old(script)|)
      ensures (old(script) == [] ==> o.Some? && s == old(s)) && (o == Some(Cancelled) ==> raced)
      ensures match o
              case None => Played(c0, Now(), a) && |script| < |old(script)|
              case Some(Go) =>
                InTurn(a, c0) && (shared.lock == M.Free) && Next(s, a, waited).Some?
                && Next(s, a, waited) != Some(M.Call(M.CancelReceive))
              case Some(wakeup) => Came(wakeup, a, c0)
    {
      var over := script == [];
      Others();
      LockTurn(from, a);
      var ready := shared.lock == M.Free;
      var signalled := shutdown.IsShutdown();
      if raced && signalled && (waited || !ready) {
        return Some(Cancelled);
      }
      if ready {
        return Some(Go);
      }
      if over {
        return Some(Never);
      }
      waited := true;
      PlayedTurn(c0, from, a);
      o := None;
    }

    /** `lock().await`. `Go`: it is free, and the turn to take it is under way. */
    method AwaitLock(a: Actor, raced: bool, ghost c0: Config) returns (o: Wakeup)
      requires Valid() && a in mine && WaitsForLock(s, a) && raced == RacedBy(s, a) && Played(c0, Now(), a)
      modifies this`connected, this`clock, this`s, this`script, this`waited, this`from, ch, shared, shutdown
      ensures Valid() && Untouched(old(s), s, mine) && WaitsForLock(s, a) && Less(|script|, |old(script)|)
      ensures (old(script) == [] ==> s == old(s)) && (o == Cancelled ==> raced)
      ensures if o == Go then InTurn(a, c0) && (shared.lock == M.Free) && Next(s, a, waited).Some?
                              && Next(s, a, waited) != Some(M.Call(M.CancelReceive))
              else Came(o, a, c0)
      decreases |script|
    {
      var turn := TryLock(a, raced, c0);
      if turn.Some? {
        return turn.value;
      }
      ghost var mid := s;
      o := AwaitLock(a, raced, c0);
      UntouchedTwice(old(s), mid, s, mine);
    }

    /** One poll for a slot. */
    method TrySlot(a: Actor, raced: bool, ghost c0: Config) returns (o: Option<Wakeup>)
      requires Valid() && a in mine && WaitsForSlot(s, a) && raced == RacedBy(s, a) && Played(c0, Now(), a)
      requires a == TheConsumer ==> !s.closed
      modifies this`connected, this`clock, this`s, this`script, this`waited, this`from, ch, shared, shutdown
      ensures Valid() && Untouched(old(s), s, mine) && WaitsForSlot(s, a) && Less(|script|, |old(script)|)
      ensures (old(script) == [] ==> o.Some? && s == old(s)) && (o == Some(Cancelled) ==> raced)
      ensures match o
              case None => Played(c0, Now(), a) && |script| < |old(script)|
              case Some(Go) =>
                InTurn(a, c0) && (!ch.open || |ch.queue| < ch.capacity) && Next(s, a, waited).Some?
                && Next(s, a, waited) != Some(M.Call(M.CancelReceive))
              case Some(wakeup) => Came(wakeup, a, c0)
    {
      var over := script == [];
      Others();
      SlotTurn(from, a);
      var ready := !ch.open || |ch.queue| < ch.capacity;
      var signalled := shutdown.IsShutdown();
      if raced && signalled && (waited || !ready) {
        return Some(Cancelled);
      }
      if ready {
        return Some(Go);
      }
      if over {
        return Some(Never);
      }
      waited := true;
      PlayedTurn(c0, from, a);
      o := None;
    }

    /** `send(..).await`, up to the point where there is a slot or no receiver. */
    method AwaitSlot(a: Actor, raced: bool, ghost c0: Config) returns (o: Wakeup)
      requires Valid() && a in mine && WaitsForSlot(s, a) && raced == RacedBy(s, a) && Played(c0, Now(), a)
      requires a == TheConsumer ==> !s.closed
      modifies this`connected, this`clock, this`s, this`script, this`waited, this`from, ch, shared, shutdown
      ensures Valid() && Untouched(old(s), s, mine) && WaitsForSlot(s, a) && Less(|script|, |old(script)|)
      ensures (old(script) == [] ==> s == old(s)) && (o == Cancelled ==> raced)
      ensures if o == Go then InTurn(a, c0) && (!ch.open || |ch.queue| < ch.capacity) && Next(s, a, waited).Some?
                              && Next(s, a, waited) != Some(M.Call(M.CancelReceive))
              else Came(o, a, c0)
      decreases |script|
    {
      var turn := TrySlot(a, raced, c0);
      if turn.Some? {
        return turn.value;
      }
      ghost var mid := s;
      o := AwaitSlot(a, raced, c0);
      UntouchedTwice(old(s), mid, s, mine);
    }
  }

  // ---------- envelope.rs ----------

  /** What the mutex protects, and the mutex. */
  class SharedState {
    const dlq: Option<U32>
    var nackCounts: map<Id, U32>
    var scheduled: Buckets
    var lock: M.Lock

    constructor (config: Option<U32>)
      ensures dlq == config && nackCounts == map[] && scheduled == map[] && lock == M.Free
    {
      dlq, nackCounts, scheduled, lock := config, map[], map[], M.Free;
    }

    /** Behind everything scheduled for no later time, in front of everything scheduled for a later one. */
    method Schedule(e: Envelope, at: Time)
      modifies this`scheduled
      ensures scheduled == Insert(old(scheduled), at, e)
      ensures Flatten(scheduled) == InsertByTime(Flatten(old(scheduled)), Entry(at, e))
      ensures forall t: Time :: AtTime(Flatten(scheduled), t) == AtTime(Flatten(old(scheduled)) + [Entry(at, e)], t)
    {
      FlattenSorted(scheduled);
      FlattenInsert(scheduled, at, e);
      InsertIsStable(Flatten(scheduled), Entry(at, e));
      var bucket := if at in scheduled then scheduled[at] else [];
      scheduled := scheduled[at := bucket + [e]];
    }

    method NextDue() returns (at: Option<Time>)
      ensures at == NextScheduledAt(scheduled)
      ensures at == None <==> scheduled == map[]
      ensures at.Some? ==> at.value in scheduled && forall t :: t in scheduled ==> at.value <= t
    {
      at := NextScheduledAt(scheduled);
      assert scheduled.Keys == {} ==> scheduled == map[];
    }

    /** There is a slot: the next due message goes into it. */
    method Push(w: World, e: Envelope, ghost c0: Config)
      requires w.Valid() && w.InTurn(TheConsumer, c0) && M.CanFlush(w.s, M.PushDue) && w.s.consumer.pc.due[0].env == e
      requires Next(w.s, TheConsumer, w.waited) == Some(M.Flush(M.PushDue)) && !w.s.closed
      modifies w, w.ch
      ensures w.Valid() && Played(c0, w.Now(), TheConsumer)
      ensures w.mine == old(w.mine) && w.script == old(w.script) && w.s == M.FlushDo(old(w.s), M.PushDue)
    {
      ghost var after := M.FlushDo(w.s, M.PushDue);
      M.FlushFrame(w.s, M.PushDue);
      var sent := w.ch.Send(e);
      w.Step(M.Flush(M.PushDue), TheConsumer, c0);
    }

    /** The flush waits for a slot. */
    method AwaitPush(w: World, raced: bool, ghost due: seq<Entry>, ghost s0: M.State, ghost c0: Config)
      returns (o: Wakeup)
      requires w.Valid() && w.shared == this && TheConsumer in w.mine && raced == RacedBy(w.s, TheConsumer)
      requires WaitsForSlot(w.s, TheConsumer) && !w.s.closed
      requires Played(c0, w.Now(), TheConsumer) && Pushed(due, w.s.consumer.pc.due, s0, w.s)
      modifies w, w.ch, this, w.shutdown
      ensures w.Valid() && w.mine == old(w.mine) && |w.script| <= |old(w.script)|
      ensures if o == Go then w.InTurn(TheConsumer, c0) && Next(w.s, TheConsumer, w.waited) == Some(M.Flush(M.PushDue))
              else w.Came(o, TheConsumer, c0) && (o == Cancelled ==> raced)
      ensures w.s.consumer == old(w.s.consumer) && w.s.calls == old(w.s.calls) && !w.s.closed
      ensures |w.s.receipts| == |old(w.s.receipts)| && Pushed(due, w.s.consumer.pc.due, s0, w.s)
    {
      ghost var before := w.s;
      o := w.AwaitSlot(TheConsumer, raced, c0);
      PushedNotFlushed(due, before.consumer.pc.due, s0, before, w.s);
      SlotNext(w.s, TheConsumer, w.waited);
    }

    /** One push of the flush, once there is a slot for it. */
    method PushOne(w: World, e: Envelope, raced: bool, ghost due: seq<Entry>, ghost s0: M.State, ghost c0: Config)
      returns (o: Wakeup)
      requires w.Valid() && w.shared == this && TheConsumer in w.mine && raced == RacedBy(w.s, TheConsumer)
      requires WaitsForSlot(w.s, TheConsumer) && !w.s.closed && w.s.consumer.pc.due[0].env == e
      requires Played(c0, w.Now(), TheConsumer) && Pushed(due, w.s.consumer.pc.due, s0, w.s)
      modifies w, w.ch, this, w.shutdown
      ensures w.Valid() && w.mine == old(w.mine) && w.Came(o, TheConsumer, c0) && |w.script| <= |old(w.script)|
      ensures o == Cancelled ==> raced
      ensures FlushOn(old(w.s), w.s) && Pushed(due, w.s.consumer.pc.due, s0, w.s)
      ensures w.s.consumer.pc.due == if o == Go then old(w.s.consumer.pc.due[1..]) else old(w.s.consumer.pc.due)
    {
      o := AwaitPush(w, raced, due, s0, c0);
      if o == Go {
        PushedOne(due, w.s.consumer.pc.due, s0, w.s);
        Push(w, e, c0);
      }
    }

    /** One bucket in its order, in front of the `others` that are due. */
    method PushBucket(w: World, at: Time, bucket: seq<Envelope>, raced: bool, ghost others: seq<Entry>,
                      ghost due: seq<Entry>, ghost s0: M.State, ghost c0: Config) returns (o: Wakeup)
      requires w.Valid() && w.shared == this && TheConsumer in w.mine && raced == RacedBy(w.s, TheConsumer)
      requires w.s.consumer.pc.Flushing? && w.s.consumer.pc.due == Tagged(at, bucket) + others && !w.s.closed
      requires Played(c0, w.Now(), TheConsumer) && Pushed(due, Tagged(at, bucket) + others, s0, w.s)
      modifies w, w.ch, this, w.shutdown
      ensures w.Valid() && w.mine == old(w.mine) && w.Came(o, TheConsumer, c0) && |w.script| <= |old(w.script)|
      ensures o == Cancelled ==> raced
      ensures FlushOn(old(w.s), w.s) && Pushed(due, w.s.consumer.pc.due, s0, w.s)
      ensures if o == Go then w.s.consumer.pc.due == others else w.s.consumer.pc.due != []
    {
      var i := 0;
      while i < |bucket|
        invariant w.Valid() && w.mine == old(w.mine) && i <= |bucket| && FlushOn(old(w.s), w.s)
        invariant |w.script| <= |old(w.script)|
        invariant Played(c0, w.Now(), TheConsumer)
        invariant w.s.consumer.pc.due == Tagged(at, bucket[i..]) + others && Pushed(due, w.s.consumer.pc.due, s0, w.s)
      {
        FirstOfBucket(at, bucket[i..], others);
        o := PushOne(w, bucket[i], raced, due, s0, c0);
        if o != Go {
          return;
        }
        i := i + 1;
      }
      o := Go;
    }

    /** The drain of the buckets split off, earliest first and in bucket order. */
    method DrainBuckets(w: World, buckets: Buckets, raced: bool, ghost s0: M.State, ghost c0: Config)
      returns (o: Wakeup)
      requires w.Valid() && w.shared == this && TheConsumer in w.mine && raced == RacedBy(w.s, TheConsumer)
      requires w.s.consumer.pc.Flushing? && w.s.consumer.pc.due == Flatten(buckets) && !w.s.closed
      requires Played(c0, w.Now(), TheConsumer) && Pushed(Flatten(buckets), Flatten(buckets), s0, w.s)
      modifies w, w.ch, this, w.shutdown
      ensures w.Valid() && w.mine == old(w.mine) && w.Came(o, TheConsumer, c0) && |w.script| <= |old(w.script)|
      ensures o == Cancelled ==> raced
      ensures FlushOn(old(w.s), w.s) && Pushed(Flatten(buckets), w.s.consumer.pc.due, s0, w.s)
      ensures o == Go <==> w.s.consumer.pc.due == []
    {
      var todo := buckets;
      while todo.Keys != {}
        invariant w.Valid() && w.mine == old(w.mine) && FlushOn(old(w.s), w.s) && |w.script| <= |old(w.script)|
        invariant Played(c0, w.Now(), TheConsumer)
        invariant w.s.consumer.pc.due == Flatten(todo) && Pushed(Flatten(buckets), w.s.consumer.pc.due, s0, w.s)
        decreases todo.Keys
      {
        var at := Least(todo.Keys);
        var bucket := todo[at];
        todo := todo - {at};
        o := PushBucket(w, at, bucket, raced, Flatten(todo), Flatten(buckets), s0, c0);
        if o != Go {
          return;
        }
      }
      o := Go;
    }

    /** Splits the due buckets off at the clock as it is read, and drains them, with the lock held. Whatever the
        others do in between, the flush itself pushes exactly a prefix of what was due, and what is left of it is off
        the schedule. */
    method FlushDueScheduled(w: World, raced: bool, ghost c0: Config) returns (o: Wakeup)
      requires w.Valid() && w.shared == this && TheConsumer in w.mine && raced == RacedBy(w.s, TheConsumer)
      requires w.s.consumer.pc == M.FlushLocked && Played(c0, w.Now(), TheConsumer)
      modifies w, w.ch, this, w.shutdown
      ensures w.Valid() && w.mine == old(w.mine) && w.Came(o, TheConsumer, c0) && |w.script| <= |old(w.script)|
      ensures o == Cancelled ==> raced
      ensures var split := AfterGap(old(w.Now())).s;
              && w.s.consumer.pc.Flushing? && w.s.consumer.pc.now == split.clock && SameCall(old(w.s), w.s)
              && Pushed(Flatten(Due(split.scheduled, split.clock)), w.s.consumer.pc.due, split, w.s)
      ensures o == Go <==> w.s.consumer.pc.due == []
    {
      Sa.ReachableLocking(w.s);
      w.Begin(TheConsumer, c0);
      ghost var split := w.s;
      var todo := SplitDue(w, c0);
      o := DrainBuckets(w, todo, raced, split, c0);
    }

    /** The split itself, at the clock as it is read. */
    method SplitDue(w: World, ghost c0: Config) returns (due: Buckets)
      requires w.Valid() && w.shared == this && w.InTurn(TheConsumer, c0) && w.s.consumer.pc == M.FlushLocked
      modifies w, this`scheduled
      ensures w.Valid() && Played(c0, w.Now(), TheConsumer) && w.mine == old(w.mine) && w.script == old(w.script)
      ensures w.s == M.FlushDo(old(w.s), M.SplitDue) && due == Due(old(scheduled), old(w.clock))
      ensures Pushed(Flatten(due), Flatten(due), old(w.s), w.s)
    {
      ghost var before := w.s;
      var now := w.clock;
      due := Due(scheduled, now);
      scheduled := Later(scheduled, now);
      w.Step(M.Flush(M.SplitDue), TheConsumer, c0);
      assert before.log[|before.log|..] == [];
      assert Flatten(due)[..0] == [];
    }
  }

  /** What a turn leaves of the script: less, unless there was nothing left. */
  predicate Less(now: nat, before: nat) {
    now < before || now == before == 0
  }

  /** The same call of the consumer, with nothing handed out in between. */
  predicate SameCall(s: M.State, s': M.State) {
    && s'.calls == s.calls && |s'.receipts| == |s.receipts| && s'.closed == s.closed
    && s'.consumer.mode == s.consumer.mode && s'.consumer.rounds == s.consumer.rounds
    && s'.consumer.armed == s.consumer.armed
  }

  /** The same flush of it. */
  predicate FlushOn(s: M.State, s': M.State)
    requires s.consumer.pc.Flushing?
  {
    s'.consumer.pc.Flushing? && s'.consumer.pc.now == s.consumer.pc.now && SameCall(s, s')
  }

  lemma FirstOfBucket(at: Time, bucket: seq<Envelope>, others: seq<Entry>)
    requires bucket != []
    ensures var rest := Tagged(at, bucket) + others;
            rest[0] == Entry(at, bucket[0]) && rest[1..] == Tagged(at, bucket[1..]) + others
  {
  }
}
