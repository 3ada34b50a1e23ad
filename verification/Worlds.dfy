/** The machine seen from one task: what the task does itself, in the order its code has it, and what everybody else
    does in between. What the others do is written down in a script before, so that it can be told apart from what the
    task does, and determines, with the code, what comes out. */
module Worlds {
  import opened Core
  import opened Schedule
  import M = Machine
  import R = Refinement
  import E = Exclusion
  import opened Iteration

  /** What is in the hands of one task: the consumer, a producer, a batch being sent, or a delivery. */
  datatype Actor = TheConsumer | TheProducer(p: nat) | TheTask(t: nat) | TheDelivery(i: nat)

  predicate By(a: Actor, st: M.Step) {
    match a
    case TheConsumer => M.ConsumerStep(st)
    case TheTask(t) => st == M.Producer(M.PushSend(t)) || st == M.Producer(M.FailSend(t))
    case TheDelivery(i) => (st.Handle? || st.Nack?) && st.i == i
    case TheProducer(p) =>
      st.Producer? &&
      match st.p
      case Clone(from, _) => from == p
      case DropProducer(q) => q == p
      case StartBatch(q, _) => q == p
      case SendAt(q, _, _) => q == p
      case _ => false
  }

  predicate Foreign(mine: set<Actor>, st: M.Step) {
    forall a :: a in mine ==> !By(a, st)
  }

  // ---------- What the others do ----------

  /** What the others try to do before the next step of the task, and whether the task is suspended meanwhile. */
  datatype Gap = Gap(steps: seq<M.Step>, suspends: bool)

  /** `waited`: the task was suspended since its last step, so that a race it is part of is looked at anew. */
  datatype Config = Config(s: M.State, script: seq<Gap>, mine: set<Actor>, waited: bool)

  /** Others take a step if they can, and only with what is theirs. */
  function Let(s: M.State, mine: set<Actor>, st: M.Step): M.State {
    if M.Can(s, st) && Foreign(mine, st) then M.Do(s, st) else s
  }

  function Replay(s: M.State, mine: set<Actor>, steps: seq<M.Step>): M.State
    decreases |steps|
  {
    if steps == [] then s else Replay(Let(s, mine, steps[0]), mine, steps[1..])
  }

  /** The steps of a gap that are really taken. */
  function Taken(s: M.State, mine: set<Actor>, steps: seq<M.Step>): seq<M.Step>
    decreases |steps|
  {
    if steps == [] then []
    else
      var rest := Taken(Let(s, mine, steps[0]), mine, steps[1..]);
      if M.Can(s, steps[0]) && Foreign(mine, steps[0]) then [steps[0]] + rest else rest
  }

  lemma {:induction false} ReplayIsRun(s: M.State, mine: set<Actor>, steps: seq<M.Step>)
    ensures var taken := Taken(s, mine, steps);
            && M.CanRun(s, taken) && M.Run(s, taken) == Replay(s, mine, steps)
            && forall k :: 0 <= k < |taken| ==> Foreign(mine, taken[k])
    decreases |steps|
  {
    if steps != [] {
      var s1 := Let(s, mine, steps[0]);
      ReplayIsRun(s1, mine, steps[1..]);
      var rest := Taken(s1, mine, steps[1..]);
      if M.Can(s, steps[0]) && Foreign(mine, steps[0]) {
        assert ([steps[0]] + rest)[1..] == rest;
      }
    }
  }

  function AfterGap(c: Config): Config {
    if c.script == [] then c
    else Config(Replay(c.s, c.mine, c.script[0].steps), c.script[1..], c.mine, c.waited || c.script[0].suspends)
  }

  /** What the script says is what happens: others who can take their steps, and only use what is theirs, do. */
  lemma ScriptIsPlayed(c: Config)
    requires c.script != [] && M.CanRun(c.s, c.script[0].steps)
    requires forall k :: 0 <= k < |c.script[0].steps| ==> Foreign(c.mine, c.script[0].steps[k])
    ensures AfterGap(c).s == M.Run(c.s, c.script[0].steps) && AfterGap(c).script == c.script[1..]
  {
    ReplayIsExact(c.s, c.mine, c.script[0].steps);
  }

  lemma {:induction false} ReplayIsExact(s: M.State, mine: set<Actor>, steps: seq<M.Step>)
    requires M.CanRun(s, steps) && forall k :: 0 <= k < |steps| ==> Foreign(mine, steps[k])
    ensures Replay(s, mine, steps) == M.Run(s, steps)
    decreases |steps|
  {
    if steps != [] {
      ReplayIsExact(M.Do(s, steps[0]), mine, steps[1..]);
    }
  }

  /** To a task with the consumer, and the deliveries `held`, in its hands, everything is foreign but the steps of
      these. */
  lemma ForeignToConsumer(held: set<nat>, st: M.Step)
    ensures Foreign({TheConsumer} + set i | i in held :: TheDelivery(i), st) <==>
            && !st.Call? && !st.Flush? && !st.Await?
            && ((st.Handle? || st.Nack?) ==> st.i !in held)
  {
    var mine: set<Actor> := {TheConsumer} + set i | i in held :: TheDelivery(i);
    assert TheConsumer in mine;
    if (st.Handle? || st.Nack?) && st.i in held {
      assert TheDelivery(st.i) in mine && By(TheDelivery(st.i), st);
    }
  }

  // ---------- What the task does ----------

  /** The race of `receive_graceful` has been lost to a shutdown. */
  predicate Lost(s: M.State) {
    s.consumer.mode == M.Graceful && s.shutdown
  }

  /** The next step of the consumer by its code. A shutdown it is raced against is looked at first whenever the task
      was suspended, at its first poll, and instead of waiting. */
  function ConsumerNext(s: M.State, waited: bool): (r: Option<M.Step>)
    ensures r.Some? ==> M.Can(s, r.value)
  {
    var c := s.consumer;
    var cancel := Some(M.Call(M.CancelReceive));
    if Lost(s) && waited && M.Suspended(c.pc) && (c.pc.Flushing? ==> c.pc.due != []) then cancel
    else
      match c.pc
      case Idle => None
      case GracefulCheck => Some(M.Call(M.CheckGraceful))
      case ShutdownCheck => if Lost(s) && c.rounds == 0 then cancel else Some(M.Call(M.CheckShutdown))
      case AwaitFlushLock =>
        if s.lock == M.Free then Some(M.Flush(M.LockFlush)) else if Lost(s) then cancel else None
      case FlushLocked => Some(M.Flush(M.SplitDue))
      case Flushing(due, _) =>
        if due == [] then Some(M.Flush(M.EndFlush))
        else if M.HasSlot(s) then Some(M.Flush(M.PushDue))
        else if Lost(s) then cancel else None
      case TryRecv => Some(M.Await(M.Pop))
      case AwaitPeekLock => if s.lock == M.Free then Some(M.Await(M.Peek)) else if Lost(s) then cancel else None
      case Selecting(_) =>
        Some(M.Await(
          if s.channel != [] then M.WakeByMessage else if s.senders == 0 then M.WakeByClosed else M.FindEmpty))
      case PastChannel(wake, _) =>
        if wake.Some? && wake.value <= s.clock then Some(M.Await(M.WakeByTimer))
        else Some(M.Await(if s.producers == {} then M.WakeByLiveness else M.Sleep))
  }

  function NackNext(s: M.State, i: nat): (r: Option<M.Step>)
    ensures r.Some? ==> M.Can(s, r.value)
  {
    if i >= |s.receipts| then None
    else
      match s.receipts[i].phase
      case Held => Some(M.Handle(i, M.NackCall))
      case AwaitLock => if s.lock == M.Free then Some(M.Handle(i, M.NackLock)) else None
      case Counting => Some(M.Nack(i, M.NackCount))
      case Requeueing(_) => if s.closed || M.HasSlot(s) then Some(M.Nack(i, M.NackPush)) else None
      case Settled(_) => if s.lock == M.ByNack(i) then Some(M.Handle(i, M.NackRelease)) else None
  }

  function SendNext(s: M.State, t: nat): (r: Option<M.Step>)
    ensures r.Some? ==> M.Can(s, r.value)
  {
    if t >= |s.tasks| || !M.Running(s.tasks[t]) then None
    else if s.closed then Some(M.Producer(M.FailSend(t)))
    else if M.HasSlot(s) then Some(M.Producer(M.PushSend(t)))
    else None
  }

  function Next(s: M.State, a: Actor, waited: bool): (r: Option<M.Step>)
    ensures r.Some? ==> M.Can(s, r.value)
  {
    match a
    case TheConsumer => ConsumerNext(s, waited)
    case TheDelivery(i) => NackNext(s, i)
    case TheTask(t) => SendNext(s, t)
    case TheProducer(_) => None
  }

  /** A delivery that is handed out is in the hands of the task that received it. */
  function Took(c: Config, st: M.Step): Config
    requires M.Can(c.s, st)
  {
    var s' := M.Do(c.s, st);
    Config(s', c.script, if |s'.receipts| > |c.s.receipts| then c.mine + {TheDelivery(|c.s.receipts|)} else c.mine,
           st == M.Await(M.Sleep))
  }

  function Started(c: Config, p: nat, batch: seq<Envelope>): Config
    requires M.CanProduce(c.s, M.StartBatch(p, batch))
  {
    Config(M.Produce(c.s, M.StartBatch(p, batch)), c.script, c.mine + {TheTask(|c.s.tasks|)}, false)
  }

  /** The others first, then the next step of the task, if it can take it; otherwise it waits. */
  function Turn(c: Config, a: Actor): Config {
    var g := AfterGap(c);
    var next := Next(g.s, a, g.waited);
    if next.Some? then Took(g, next.value) else g.(waited := true)
  }

  lemma StepIsTurn(c: Config, st: M.Step, a: Actor)
    requires var g := AfterGap(c); Next(g.s, a, g.waited) == Some(st)
    ensures M.Can(AfterGap(c).s, st) && Turn(c, a) == Took(AfterGap(c), st)
  {
  }

  // ---------- Where it ends ----------

  predicate Finished(s: M.State, a: Actor) {
    match a
    case TheConsumer => s.consumer.pc == M.Idle
    case TheDelivery(i) => i < |s.receipts| && s.receipts[i].phase.Settled? && s.lock != M.ByNack(i)
    case TheTask(t) => t < |s.tasks| && !M.Running(s.tasks[t])
    case TheProducer(_) => true
  }

  /** Asleep in the select, and nothing to be woken up by. */
  predicate Dozing(s: M.State) {
    && s.consumer.pc.Selecting? && s.channel == [] && s.senders != 0 && s.producers != {} && !Lost(s)
    && (s.consumer.pc.wake.Some? ==> s.clock < s.consumer.pc.wake.value)
  }

  /** The others are done for good, and the task still has something to wait for. */
  predicate Stalled(c: Config, a: Actor) {
    && c.script == [] && !Finished(c.s, a)
    && (Next(c.s, a, c.waited) == None || (a == TheConsumer && Dozing(c.s)))
  }

  predicate Over(c: Config, a: Actor) {
    Finished(c.s, a) || Stalled(c, a)
  }

  /** `c'` is where the task is some turns after `c`, and it was not over before. */
  ghost predicate Played(c: Config, c': Config, a: Actor) {
    Reached((x: Config) => Turn(x, a), (x: Config) => Over(x, a), c, c')
  }

  /** What comes after being stalled: the same again, or once through the looks of the select and back. */
  ghost predicate Idles(c: Config, a: Actor) {
    && c.script == [] && !Finished(c.s, a)
    && (|| Next(c.s, a, c.waited) == None
        || (a == TheConsumer && Dozing(c.s))
        || (a == TheConsumer && c.s.consumer.pc.PastChannel? && c.s.producers != {} && c.s.channel == []
            && c.s.senders != 0 && !Lost(c.s)
            && (c.s.consumer.pc.wake.Some? ==> c.s.clock < c.s.consumer.pc.wake.value)))
  }

  lemma IdlesOn(c: Config, a: Actor)
    requires Idles(c, a)
    ensures Idles(Turn(c, a), a)
  {
    if Next(c.s, a, c.waited) == None {
      WaitedOn(c.s, a, c.waited);
    } else {
      DozesOn(c);
    }
  }

  /** Once through the looks of the select and back. */
  lemma DozesOn(c: Config)
    requires Idles(c, TheConsumer) && Next(c.s, TheConsumer, c.waited) != None
    ensures Idles(Turn(c, TheConsumer), TheConsumer)
  {
    if c.s.consumer.pc.PastChannel? {
      PastChannelNext(c.s, c.waited);
    }
  }

  /** Being suspended makes a difference only to a race that was lost. */
  lemma WaitedOn(s: M.State, a: Actor, waited: bool)
    requires Next(s, a, waited) == None
    ensures Next(s, a, true) == None
  {
  }

  /** A stalled task never comes to an end: with nobody else doing anything it does not get anywhere. */
  lemma StalledForGood(c: Config, a: Actor, n: nat)
    requires Stalled(c, a)
    ensures !Finished(Iterate((x: Config) => Turn(x, a), c, n).s, a)
  {
    forall x: Config | Idles(x, a) ensures Idles(Turn(x, a), a) {
      IdlesOn(x, a);
    }
    Kept((x: Config) => Turn(x, a), (x: Config) => Idles(x, a), c, n);
  }

  lemma PlayedNothing(c: Config, a: Actor)
    ensures Played(c, c, a)
  {
    ReachedNow((x: Config) => Turn(x, a), (x: Config) => Over(x, a), c);
  }

  lemma PlayedTurn(c: Config, c': Config, a: Actor)
    requires Played(c, c', a) && !Over(c', a)
    ensures Played(c, Turn(c', a), a)
  {
    ReachedNext((x: Config) => Turn(x, a), (x: Config) => Over(x, a), c, c');
  }

  /** Script and code determine the outcome. */
  lemma PlayedOnce(c: Config, c1: Config, c2: Config, a: Actor)
    requires Played(c, c1, a) && Over(c1, a) && Played(c, c2, a) && Over(c2, a)
    ensures c1 == c2
  {
    ReachedOnce((x: Config) => Turn(x, a), (x: Config) => Over(x, a), c, c1, c2);
  }

  /** The task has a step to take whatever the others do. */
  predicate Busy(s: M.State, a: Actor) {
    match a
    case TheConsumer =>
      var pc := s.consumer.pc;
      || pc in {M.GracefulCheck, M.ShutdownCheck, M.FlushLocked, M.TryRecv}
      || (pc.Flushing? && pc.due == []) || pc.PastChannel?
    case TheDelivery(i) =>
      && i < |s.receipts|
      && var phase := s.receipts[i].phase;
         phase.Held? || phase.Counting? || (phase.Settled? && s.lock == M.ByNack(i))
    case _ => false
  }

  lemma BusyGoesOn(c: Config, a: Actor)
    requires Busy(c.s, a)
    ensures !Over(c, a)
  {
  }

  predicate WaitsForLock(s: M.State, a: Actor) {
    match a
    case TheConsumer => s.consumer.pc == M.AwaitFlushLock || s.consumer.pc == M.AwaitPeekLock
    case TheDelivery(i) => i < |s.receipts| && s.receipts[i].phase.AwaitLock?
    case _ => false
  }

  predicate WaitsForSlot(s: M.State, a: Actor) {
    match a
    case TheConsumer => s.consumer.pc.Flushing? && s.consumer.pc.due != []
    case TheDelivery(i) => i < |s.receipts| && s.receipts[i].phase.Requeueing?
    case TheTask(t) => t < |s.tasks| && M.Running(s.tasks[t])
    case TheProducer(_) => false
  }

  predicate RacedBy(s: M.State, a: Actor) {
    a == TheConsumer && s.consumer.mode == M.Graceful
  }

  /** The turns of a task that waits: it goes on, or a shutdown wins, or it waits for the next gap, or for ever. */
  predicate WaitingTurn(c: Config, a: Actor, ready: bool) {
    var g := AfterGap(c);
    var next := Next(g.s, a, g.waited);
    if RacedBy(g.s, a) && g.s.shutdown && (g.waited || !ready) then next == Some(M.Call(M.CancelReceive)) && !Over(c, a)
    else if ready then next.Some? && next != Some(M.Call(M.CancelReceive)) && !Over(c, a)
    else if c.script == [] then g == c && Stalled(c, a)
    else !Over(c, a) && Turn(c, a) == g.(waited := true)
  }

  lemma LockNext(s: M.State, a: Actor, waited: bool)
    requires WaitsForLock(s, a)
    ensures var next, ready := Next(s, a, waited), s.lock == M.Free;
            if RacedBy(s, a) && s.shutdown && (waited || !ready) then next == Some(M.Call(M.CancelReceive))
            else if ready then next.Some? && next != Some(M.Call(M.CancelReceive))
            else next == None
    ensures !Finished(s, a) && !(a == TheConsumer && Dozing(s))
  {
  }

  lemma SlotNext(s: M.State, a: Actor, waited: bool)
    requires WaitsForSlot(s, a) && (a == TheConsumer ==> !s.closed)
    ensures var next, ready := Next(s, a, waited), s.closed || M.HasSlot(s);
            if RacedBy(s, a) && s.shutdown && (waited || !ready) then next == Some(M.Call(M.CancelReceive))
            else if ready then next.Some? && next != Some(M.Call(M.CancelReceive))
            else next == None
    ensures !Finished(s, a) && !(a == TheConsumer && Dozing(s))
  {
  }

  lemma PastChannelNext(s: M.State, waited: bool)
    requires s.consumer.pc.PastChannel?
    ensures var wake := s.consumer.pc.wake;
            Next(s, TheConsumer, waited) == Some(M.Await(
              if wake.Some? && wake.value <= s.clock then M.WakeByTimer
              else if s.producers == {} then M.WakeByLiveness else M.Sleep))
  {
  }

  lemma SelectingNext(s: M.State, waited: bool)
    requires s.consumer.pc.Selecting? && Next(s, TheConsumer, waited) != Some(M.Call(M.CancelReceive))
    ensures Next(s, TheConsumer, waited) == Some(M.Await(
              if s.channel != [] then M.WakeByMessage else if s.senders == 0 then M.WakeByClosed else M.FindEmpty))
  {
  }

  lemma LockTurn(c: Config, a: Actor)
    requires WaitsForLock(c.s, a) && WaitsForLock(AfterGap(c).s, a)
    ensures WaitingTurn(c, a, AfterGap(c).s.lock == M.Free)
  {
    LockNext(c.s, a, c.waited);
    LockNext(AfterGap(c).s, a, AfterGap(c).waited);
  }

  lemma SlotTurn(c: Config, a: Actor)
    requires WaitsForSlot(c.s, a) && WaitsForSlot(AfterGap(c).s, a)
    requires a == TheConsumer ==> !c.s.closed && !AfterGap(c).s.closed
    ensures WaitingTurn(c, a, AfterGap(c).s.closed || M.HasSlot(AfterGap(c).s))
  {
    SlotNext(c.s, a, c.waited);
    SlotNext(AfterGap(c).s, a, AfterGap(c).waited);
  }

  /** Of what was `due` in `s0`, in its order, the flush has pushed all but the `rest`, once and nothing else. */
  ghost predicate Pushed(due: seq<Entry>, rest: seq<Entry>, s0: M.State, s: M.State) {
    && |rest| <= |due| && rest == due[|due| - |rest|..]
    && s0.log <= s.log && E.FlushedIn(s.log[|s0.log|..]) == Envelopes(due[..|due| - |rest|])
  }

  lemma PushedNotFlushed(due: seq<Entry>, rest: seq<Entry>, s0: M.State, s: M.State, s': M.State)
    requires Pushed(due, rest, s0, s) && NotFlushed(s, s')
    ensures Pushed(due, rest, s0, s')
  {
    E.LogTwice(s0.log, s.log, s'.log);
  }

  lemma DueOne(due: seq<Entry>, rest: seq<Entry>)
    requires 0 < |rest| <= |due| && rest == due[|due| - |rest|..]
    ensures var n := |due| - |rest|;
            && rest[1..] == due[n + 1..] && Envelopes(due[..n + 1]) == Envelopes(due[..n]) + [rest[0].env]
  {
    var n := |due| - |rest|;
    assert due[..n + 1] == due[..n] + [due[n]] && due[n] == rest[0];
  }

  lemma PushedOne(due: seq<Entry>, rest: seq<Entry>, s0: M.State, s: M.State)
    requires Pushed(due, rest, s0, s) && M.CanFlush(s, M.PushDue) && s.consumer.pc.due == rest
    ensures Pushed(due, rest[1..], s0, M.FlushDo(s, M.PushDue))
  {
    var s' := M.FlushDo(s, M.PushDue);
    var r := s'.log[|s.log|];
    assert s'.log == s.log + [r] && r.via.ByFlush? && r.env == rest[0].env;
    E.LogTwice(s0.log, s.log, s'.log);
    assert s'.log[|s.log|..] == [r];
    E.FlushedOne(r);
    DueOne(due, rest);
  }

  // ---------- What others cannot do ----------

  lemma {:induction false} OthersKeepCalls(s: M.State, steps: seq<M.Step>)
    requires M.CanRun(s, steps) && forall k :: 0 <= k < |steps| ==> !M.ConsumerStep(steps[k])
    ensures var s' := M.Run(s, steps);
            && s'.consumer == s.consumer && s'.calls == s.calls && |s'.receipts| == |s.receipts|
            && s'.closed == s.closed && s.channel <= s'.channel
    decreases |steps|
  {
    if steps != [] {
      M.OthersKeepConsumer(s, steps[0]);
      OthersKeepOpen(s, steps[0]);
      OthersKeepCalls(M.Do(s, steps[0]), steps[1..]);
    }
  }

  lemma OthersKeepOpen(s: M.State, st: M.Step)
    requires M.Can(s, st) && !M.ConsumerStep(st)
    ensures M.Do(s, st).closed == s.closed && s.channel <= M.Do(s, st).channel
  {
    match st
    case Producer(p) =>
    case Handle(i, h) => M.HandleFrame(s, i, h);
    case Nack(i, n) => M.NackFrame(s, i, n);
    case _ =>
  }

  /** A delivery in nobody else's hands. */
  lemma {:induction false} OthersKeepReceipt(s: M.State, steps: seq<M.Step>, i: nat)
    requires M.CanRun(s, steps) && i < |s.receipts|
    requires forall k :: 0 <= k < |steps| ==> !By(TheDelivery(i), steps[k])
    ensures var s' := M.Run(s, steps); i < |s'.receipts| && s'.receipts[i] == s.receipts[i]
    decreases |steps|
  {
    if steps != [] {
      KeepsReceipt(s, steps[0], i);
      OthersKeepReceipt(M.Do(s, steps[0]), steps[1..], i);
    }
  }

  lemma KeepsReceipt(s: M.State, st: M.Step, i: nat)
    requires M.Can(s, st) && i < |s.receipts| && !By(TheDelivery(i), st)
    ensures var s' := M.Do(s, st); i < |s'.receipts| && s'.receipts[i] == s.receipts[i]
  {
    match st
    case Producer(p) =>
    case Call(c) => M.CallFrame(s, c);
    case Flush(f) => M.FlushFrame(s, f);
    case Await(a) => if !M.Delivers(s, a) { M.AwaitSilentFrame(s, a); }
    case Handle(j, h) => HandleKeeps(s, j, h, i);
    case Nack(j, n) => NackKeeps(s, j, n, i);
    case _ =>
  }

  lemma HandleKeeps(s: M.State, j: nat, st: M.HandleStep, i: nat)
    requires M.CanHandle(s, j, st) && i < |s.receipts| && i != j
    ensures i < |M.HandleDo(s, j, st).receipts| && M.HandleDo(s, j, st).receipts[i] == s.receipts[i]
  {
  }

  lemma NackKeeps(s: M.State, j: nat, st: M.NackStep, i: nat)
    requires M.CanNack(s, j, st) && i < |s.receipts| && i != j
    ensures i < |M.NackDo(s, j, st).receipts| && M.NackDo(s, j, st).receipts[i] == s.receipts[i]
  {
    if st == M.NackCount {
      M.CountFrame(s, j);
    }
  }

  /** A batch in nobody else's hands. */
  lemma {:induction false} OthersKeepTask(s: M.State, steps: seq<M.Step>, t: nat)
    requires M.CanRun(s, steps) && t < |s.tasks|
    requires forall k :: 0 <= k < |steps| ==> !By(TheTask(t), steps[k])
    ensures var s' := M.Run(s, steps); t < |s'.tasks| && s'.tasks[t] == s.tasks[t]
    decreases |steps|
  {
    if steps != [] {
      if !steps[0].Producer? {
        M.OthersFrame(s, steps[0]);
      }
      OthersKeepTask(M.Do(s, steps[0]), steps[1..], t);
    }
  }

  /** A producer in nobody else's hands. */
  lemma {:induction false} OthersKeepProducer(s: M.State, steps: seq<M.Step>, p: nat)
    requires M.CanRun(s, steps) && p in s.producers
    requires forall k :: 0 <= k < |steps| ==> !By(TheProducer(p), steps[k])
    ensures p in M.Run(s, steps).producers
    decreases |steps|
  {
    if steps != [] {
      if !steps[0].Producer? {
        M.OthersFrame(s, steps[0]);
      }
      OthersKeepProducer(M.Do(s, steps[0]), steps[1..], p);
    }
  }

  /** The lock, if it is in the hands of this task. */
  predicate Holds(s: M.State, mine: set<Actor>) {
    match s.lock
    case Free => false
    case ByConsumer => TheConsumer in mine
    case ByNack(i) => TheDelivery(i) in mine
  }

  /** The log has grown, and nothing in it since comes from a flush. */
  ghost predicate NotFlushed(s: M.State, s': M.State) {
    s.log <= s'.log && E.FlushedIn(s'.log[|s.log|..]) == []
  }

  lemma NotFlushedTwice(s: M.State, s': M.State, s'': M.State)
    requires NotFlushed(s, s') && NotFlushed(s', s'')
    ensures NotFlushed(s, s'')
  {
    E.LogTwice(s.log, s'.log, s''.log);
  }

  lemma NotFlushedStep(s: M.State, st: M.Step)
    requires M.Can(s, st) && !M.ConsumerStep(st)
    ensures NotFlushed(s, M.Do(s, st))
  {
    var s' := M.Do(s, st);
    if s.closed {
      ClosedLog(s, st);
    } else {
      E.OthersLog(s, st);
    }
    if s'.log != s.log {
      assert s'.log[|s.log|..] == [s'.log[|s.log|]];
      E.FlushedOne(s'.log[|s.log|]);
    } else {
      assert s'.log[|s.log|..] == [];
    }
  }

  lemma ClosedLog(s: M.State, st: M.Step)
    requires M.Can(s, st) && !M.ConsumerStep(st) && s.closed
    ensures M.Do(s, st).log == s.log
  {
    match st
    case Producer(p) =>
    case Handle(i, h) => M.HandleFrame(s, i, h);
    case Nack(i, n) => if n == M.NackCount { M.CountFrame(s, i); }
    case _ =>
  }

  lemma {:induction false} NotFlushedRun(s: M.State, steps: seq<M.Step>)
    requires M.CanRun(s, steps) && forall k :: 0 <= k < |steps| ==> !M.ConsumerStep(steps[k])
    ensures NotFlushed(s, M.Run(s, steps))
    decreases |steps|
  {
    if steps == [] {
      assert s.log[|s.log|..] == [];
    } else {
      NotFlushedStep(s, steps[0]);
      NotFlushedRun(M.Do(s, steps[0]), steps[1..]);
      NotFlushedTwice(s, M.Do(s, steps[0]), M.Run(s, steps));
    }
  }

  /** Nothing in the hands of the task is touched by the others. */
  ghost predicate Untouched(s: M.State, s': M.State, mine: set<Actor>) {
    && s'.dlq == s.dlq && s'.capacity == s.capacity && (s.shutdown ==> s'.shutdown)
    && (TheConsumer in mine ==>
          && s'.consumer == s.consumer && s'.calls == s.calls && |s'.receipts| == |s.receipts|
          && s'.closed == s.closed && s.channel <= s'.channel && NotFlushed(s, s'))
    && (forall i: nat :: i < |s.receipts| && TheDelivery(i) in mine ==>
          i < |s'.receipts| && s'.receipts[i] == s.receipts[i])
    && (forall t: nat :: t < |s.tasks| && TheTask(t) in mine ==> t < |s'.tasks| && s'.tasks[t] == s.tasks[t])
    && (forall p: nat :: p in s.producers && TheProducer(p) in mine ==> p in s'.producers)
    && (Holds(s, mine) ==> s'.lock == s.lock && s'.scheduled == s.scheduled && s'.nackCounts == s.nackCounts)
  }

  lemma {:induction false} SetupStays(s: M.State, steps: seq<M.Step>)
    requires M.CanRun(s, steps)
    ensures M.Run(s, steps).dlq == s.dlq && M.Run(s, steps).capacity == s.capacity
    ensures s.shutdown ==> M.Run(s, steps).shutdown
    decreases |steps|
  {
    if steps != [] {
      SetupStep(s, steps[0]);
      SetupStays(M.Do(s, steps[0]), steps[1..]);
    }
  }

  lemma SetupStep(s: M.State, st: M.Step)
    requires M.Can(s, st)
    ensures M.Do(s, st).dlq == s.dlq && M.Do(s, st).capacity == s.capacity && (s.shutdown ==> M.Do(s, st).shutdown)
  {
    match st
    case Producer(p) =>
    case Call(c) => M.CallFrame(s, c);
    case Flush(f) => M.FlushFrame(s, f);
    case Await(a) => M.AwaitFrame(s, a);
    case Handle(i, h) => M.HandleFrame(s, i, h);
    case Nack(i, n) => M.NackFrame(s, i, n);
    case _ =>
  }

  lemma ForeignToHolder(s: M.State, mine: set<Actor>, st: M.Step)
    requires Holds(s, mine) && Foreign(mine, st)
    ensures !E.ByHolder(s.lock, st)
  {
    assert !By(if s.lock.ByConsumer? then TheConsumer else TheDelivery(s.lock.receipt), st);
  }

  lemma GapKeepsMine(s: M.State, mine: set<Actor>, steps: seq<M.Step>)
    requires M.Reachable(s)
    ensures M.Reachable(Replay(s, mine, steps)) && Untouched(s, Replay(s, mine, steps), mine)
  {
    var taken := Taken(s, mine, steps);
    ReplayIsRun(s, mine, steps);
    M.ReachableRun(s, taken);
    SetupStays(s, taken);
    if TheConsumer in mine {
      assert forall k :: 0 <= k < |taken| ==> !By(TheConsumer, taken[k]);
      OthersKeepCalls(s, taken);
      NotFlushedRun(s, taken);
    }
    forall i: nat | i < |s.receipts| && TheDelivery(i) in mine
      ensures i < |M.Run(s, taken).receipts| && M.Run(s, taken).receipts[i] == s.receipts[i]
    {
      OthersKeepReceipt(s, taken, i);
    }
    forall t: nat | t < |s.tasks| && TheTask(t) in mine
      ensures t < |M.Run(s, taken).tasks| && M.Run(s, taken).tasks[t] == s.tasks[t]
    {
      OthersKeepTask(s, taken, t);
    }
    forall p: nat | p in s.producers && TheProducer(p) in mine ensures p in M.Run(s, taken).producers {
      OthersKeepProducer(s, taken, p);
    }
    if Holds(s, mine) {
      forall k | 0 <= k < |taken| ensures !E.ByHolder(s.lock, taken[k]) {
        ForeignToHolder(s, mine, taken[k]);
      }
      E.LockProtectsRun(s, taken);
    }
  }

  lemma GapFacts(c: Config)
    requires M.Reachable(c.s)
    ensures M.Reachable(AfterGap(c).s) && Untouched(c.s, AfterGap(c).s, c.mine)
  {
    if c.script == [] {
      UntouchedSame(c.s, c.mine);
    } else {
      GapKeepsMine(c.s, c.mine, c.script[0].steps);
    }
  }

  lemma UntouchedTwice(s: M.State, s': M.State, s'': M.State, mine: set<Actor>)
    requires Untouched(s, s', mine) && Untouched(s', s'', mine)
    ensures Untouched(s, s'', mine)
  {
    if TheConsumer in mine {
      NotFlushedTwice(s, s', s'');
    }
    if Holds(s, mine) {
      HoldsStill(s, s', mine);
    }
  }

  lemma HoldsStill(s: M.State, s': M.State, mine: set<Actor>)
    requires Untouched(s, s', mine) && Holds(s, mine)
    ensures Holds(s', mine)
  {
  }

  lemma UntouchedSame(s: M.State, mine: set<Actor>)
    ensures Untouched(s, s, mine)
  {
    assert s.log[|s.log|..] == [];
  }

  // ---------- What stays in the hands of the task ----------

  /** Delivery `i` is in the hands of the task, as it was in `s`. */
  predicate StillHas(c: Config, c': Config, i: nat) {
    && i < |c.s.receipts| && i < |c'.s.receipts|
    && c'.s.receipts[i] == c.s.receipts[i] && TheDelivery(i) in c'.mine
  }

  lemma TurnKeeps(c: Config, i: nat)
    requires M.Reachable(c.s) && i < |c.s.receipts| && TheDelivery(i) in c.mine
    ensures M.Reachable(Turn(c, TheConsumer).s) && StillHas(c, Turn(c, TheConsumer), i)
  {
    var g := AfterGap(c);
    GapFacts(c);
    var next := ConsumerNext(g.s, g.waited);
    if next.Some? {
      NextIsOurs(g.s, g.waited);
      M.ReachableStep(g.s, next.value);
      KeepsReceipt(g.s, next.value, i);
    }
  }

  lemma NextIsOurs(s: M.State, waited: bool)
    requires ConsumerNext(s, waited).Some?
    ensures M.ConsumerStep(ConsumerNext(s, waited).value)
  {
  }

  ghost predicate Has(c: Config, i: nat, r: M.Receipt) {
    M.Reachable(c.s) && i < |c.s.receipts| && c.s.receipts[i] == r && TheDelivery(i) in c.mine
  }

  /** What a call of the consumer leaves to the task that it had before. */
  lemma PlayedKeeps(c: Config, c': Config, i: nat)
    requires M.Reachable(c.s) && i < |c.s.receipts| && TheDelivery(i) in c.mine
    requires Played(c, c', TheConsumer)
    ensures StillHas(c, c', i)
  {
    var r := c.s.receipts[i];
    forall x: Config | Has(x, i, r) ensures Has(Turn(x, TheConsumer), i, r) {
      TurnKeeps(x, i);
    }
    KeptUntil((x: Config) => Turn(x, TheConsumer), (x: Config) => Over(x, TheConsumer), (x: Config) => Has(x, i, r),
              c, c');
  }

  // ---------- What a nack or a send leaves alone ----------

  /** The consumer is in the hands of the task, as it was in `c`, and so are the deliveries it had but for `i`. */
  ghost predicate ConsumerStays(c: Config, c': Config) {
    && TheConsumer in c'.mine && c'.s.consumer == c.s.consumer && c'.s.calls == c.s.calls && c'.s.closed == c.s.closed
    && |c'.s.receipts| == |c.s.receipts|
  }

  lemma StepLeavesConsumer(s: M.State, st: M.Step)
    requires M.Can(s, st) && !M.ConsumerStep(st)
    ensures var s' := M.Do(s, st);
            && s'.consumer == s.consumer && s'.calls == s.calls && s'.closed == s.closed
            && |s'.receipts| == |s.receipts|
  {
    M.OthersKeepConsumer(s, st);
    OthersKeepOpen(s, st);
  }

  lemma NextIsNotConsumers(s: M.State, a: Actor, waited: bool)
    requires a != TheConsumer && Next(s, a, waited).Some?
    ensures !M.ConsumerStep(Next(s, a, waited).value)
  {
  }

  lemma TurnLeavesConsumer(c: Config, a: Actor)
    requires M.Reachable(c.s) && TheConsumer in c.mine && a != TheConsumer
    ensures M.Reachable(Turn(c, a).s) && ConsumerStays(c, Turn(c, a))
  {
    var g := AfterGap(c);
    GapFacts(c);
    var next := Next(g.s, a, g.waited);
    if next.Some? {
      NextIsNotConsumers(g.s, a, g.waited);
      M.ReachableStep(g.s, next.value);
      StepLeavesConsumer(g.s, next.value);
    }
  }

  /** A nack or a send of this task does not touch its consumer. */
  lemma PlayedLeavesConsumer(c: Config, c': Config, a: Actor)
    requires M.Reachable(c.s) && TheConsumer in c.mine && a != TheConsumer && Played(c, c', a)
    ensures ConsumerStays(c, c')
  {
    forall x: Config | M.Reachable(x.s) && ConsumerStays(c, x)
      ensures M.Reachable(Turn(x, a).s) && ConsumerStays(c, Turn(x, a))
    {
      TurnLeavesConsumer(x, a);
    }
    KeptUntil((x: Config) => Turn(x, a), (x: Config) => Over(x, a),
              (x: Config) => M.Reachable(x.s) && ConsumerStays(c, x), c, c');
  }

  // ---------- Turns are runs of the machine ----------

  ghost predicate LeadsTo(s: M.State, s': M.State) {
    exists steps: seq<M.Step> :: M.CanRun(s, steps) && M.Run(s, steps) == s'
  }

  lemma {:induction false} RunTwice(s: M.State, a: seq<M.Step>, b: seq<M.Step>)
    requires M.CanRun(s, a) && M.CanRun(M.Run(s, a), b)
    ensures M.CanRun(s, a + b) && M.Run(s, a + b) == M.Run(M.Run(s, a), b)
    decreases |a|
  {
    if a == [] {
      assert a + b == b;
    } else {
      RunTwice(M.Do(s, a[0]), a[1..], b);
      assert (a + b)[1..] == a[1..] + b;
    }
  }

  lemma LeadsOn(s: M.State, s': M.State, steps: seq<M.Step>)
    requires LeadsTo(s, s') && M.CanRun(s', steps)
    ensures LeadsTo(s, M.Run(s', steps))
  {
    var before: seq<M.Step> :| M.CanRun(s, before) && M.Run(s, before) == s';
    RunTwice(s, before, steps);
    assert M.CanRun(s, before + steps);
  }

  lemma StepLeads(s: M.State, s': M.State, st: M.Step)
    requires LeadsTo(s, s') && M.Can(s', st)
    ensures LeadsTo(s, M.Do(s', st))
  {
    M.RunAppend(s', [], st);
    assert [] + [st] == [st];
    LeadsOn(s, s', [st]);
  }

  lemma TurnLeads(s: M.State, c: Config, a: Actor)
    requires LeadsTo(s, c.s)
    ensures LeadsTo(s, Turn(c, a).s)
  {
    var g := AfterGap(c);
    if c.script != [] {
      ReplayIsRun(c.s, c.mine, c.script[0].steps);
      LeadsOn(s, c.s, Taken(c.s, c.mine, c.script[0].steps));
    }
    var next := Next(g.s, a, g.waited);
    if next.Some? {
      StepLeads(s, g.s, next.value);
    }
  }

  /** What a task and the others do in turn is a run of the machine: whatever holds of every run holds of it. */
  lemma PlayedIsRun(c: Config, c': Config, a: Actor)
    requires Played(c, c', a)
    ensures LeadsTo(c.s, c'.s)
  {
    assert M.CanRun(c.s, []) && M.Run(c.s, []) == c.s;
    forall x: Config | LeadsTo(c.s, x.s) ensures LeadsTo(c.s, Turn(x, a).s) {
      TurnLeads(c.s, x, a);
    }
    KeptUntil((x: Config) => Turn(x, a), (x: Config) => Over(x, a), (x: Config) => LeadsTo(c.s, x.s), c, c');
  }

  // ---------- The log only grows ----------

  lemma LogStep(s: M.State, st: M.Step)
    requires M.Can(s, st)
    ensures s.log <= M.Do(s, st).log
  {
    match st
    case Producer(p) =>
    case Call(c) => M.CallFrame(s, c);
    case Flush(f) => M.FlushFrame(s, f);
    case Await(a) => M.AwaitFrame(s, a);
    case Handle(i, h) => M.HandleFrame(s, i, h);
    case Nack(i, n) => if n == M.NackCount { M.CountFrame(s, i); }
    case _ =>
  }

  lemma {:induction false} ReplayGrows(s: M.State, mine: set<Actor>, steps: seq<M.Step>)
    ensures s.log <= Replay(s, mine, steps).log
    decreases |steps|
  {
    if steps != [] {
      if M.Can(s, steps[0]) {
        LogStep(s, steps[0]);
      }
      ReplayGrows(Let(s, mine, steps[0]), mine, steps[1..]);
    }
  }

  lemma TurnGrows(c: Config, a: Actor)
    ensures c.s.log <= Turn(c, a).s.log
  {
    var g := AfterGap(c);
    if c.script != [] {
      ReplayGrows(c.s, c.mine, c.script[0].steps);
    }
    var next := Next(g.s, a, g.waited);
    if next.Some? {
      LogStep(g.s, next.value);
    }
  }

  lemma PlayedGrows(c: Config, c': Config, a: Actor)
    requires Played(c, c', a)
    ensures c.s.log <= c'.s.log
  {
    forall x: Config | c.s.log <= x.s.log ensures c.s.log <= Turn(x, a).s.log {
      TurnGrows(x, a);
    }
    KeptUntil((x: Config) => Turn(x, a), (x: Config) => Over(x, a), (x: Config) => c.s.log <= x.s.log, c, c');
  }
}
