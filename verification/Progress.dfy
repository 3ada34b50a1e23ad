/** How long `receive` keeps going round: at most twice, plus once for every flush that finds the clock behind
    the timer that led to it. */
module Progress {
  import opened Core
  import opened Schedule
  import opened Machine
  import opened Senders

  // ---------- Any clock ----------

  /** Whatever a later round brings along: the bucket that set the timer is still on the schedule, so unless the
      clock is read behind it, the flush has something to push, and the channel is not empty. */
  ghost predicate Advancing(s: State) {
    var c := s.consumer;
    var armed := c.armed.Some? && c.armed.value in s.scheduled;
    match c.pc
    case Idle => c.rounds <= 2 + c.backs
    case GracefulCheck => c.rounds == 0
    case ShutdownCheck => c.rounds <= 1 + c.backs && (c.rounds > 0 ==> armed)
    case AwaitFlushLock => c.rounds <= 2 + c.backs && (c.rounds > 1 ==> armed)
    case FlushLocked => c.rounds <= 2 + c.backs && (c.rounds > 1 ==> armed)
    case Flushing(due, _) => c.rounds <= 2 + c.backs && (c.rounds == 2 + c.backs ==> due != [] || s.channel != [])
    case TryRecv => c.rounds <= 2 + c.backs && (c.rounds == 2 + c.backs ==> s.channel != [])
    case AwaitPeekLock => c.rounds <= 1 + c.backs
    case Selecting(wake) => c.rounds <= 1 + c.backs && (wake.Some? ==> wake.value in s.scheduled)
    case PastChannel(wake, _) => c.rounds <= 1 + c.backs && (wake.Some? ==> wake.value in s.scheduled)
  }

  predicate InSelect(pc: Pc) {
    pc.Selecting? || pc.PastChannel?
  }

  /** Only `receive` and `receive_graceful` go through the loop. */
  ghost predicate Looping(s: State) {
    s.consumer.mode == Polling ==> s.consumer.rounds == 0 && !InSelect(s.consumer.pc)
                                   && s.consumer.pc !in {GracefulCheck, ShutdownCheck, AwaitPeekLock}
  }

  predicate InLoop(c: Consumer) {
    c.mode != Polling && c.pc !in {Idle, GracefulCheck, ShutdownCheck}
  }

  ghost predicate Progressing(s: State) {
    && Filled(s.scheduled) && Advancing(s) && Looping(s)
    && (InLoop(s.consumer) ==> s.consumer.rounds >= 1)
  }

  lemma ProduceProgress(s: State, st: ProducerStep)
    requires Progressing(s) && CanProduce(s, st)
    ensures Progressing(Produce(s, st))
  {
    assert s.scheduled.Keys <= Produce(s, st).scheduled.Keys;
  }

  lemma CallProgress(s: State, st: CallStep)
    requires Progressing(s) && CanCall(s, st)
    ensures Progressing(CallDo(s, st))
  {
    CallFrame(s, st);
  }

  lemma SplitProgress(s: State)
    requires Progressing(s) && CanFlush(s, SplitDue)
    ensures Progressing(FlushDo(s, SplitDue))
  {
    var c := s.consumer;
    if c.rounds == 2 + c.backs && !ReadsBack(s) {
      FlattenNonempty(Due(s.scheduled, s.clock), c.armed.value);
    }
  }

  lemma FlushProgress(s: State, st: FlushStep)
    requires Progressing(s) && CanFlush(s, st)
    ensures Progressing(FlushDo(s, st))
  {
    if st == SplitDue {
      SplitProgress(s);
    }
  }

  lemma AwaitProgress(s: State, st: AwaitStep)
    requires Progressing(s) && CanAwait(s, st)
    ensures Progressing(AwaitDo(s, st))
  {
    AwaitFrame(s, st);
  }

  lemma OthersProgress(s: State, s': State)
    requires Progressing(s) && s'.scheduled == s.scheduled && s'.consumer == s.consumer
    requires s.channel != [] ==> s'.channel != []
    ensures Progressing(s')
  {
  }

  lemma ProgressStep(s: State, st: Step)
    requires Progressing(s) && Can(s, st)
    ensures Progressing(Do(s, st))
  {
    match st
    case Producer(p) => ProduceProgress(s, p);
    case Call(c) => CallProgress(s, c);
    case Flush(f) => FlushProgress(s, f);
    case Await(a) => AwaitProgress(s, a);
    case Handle(i, h) => HandleFrame(s, i, h); OthersProgress(s, Do(s, st));
    case Nack(i, n) => NackFrame(s, i, n); OthersProgress(s, Do(s, st));
    case _ => OthersProgress(s, Do(s, st));
  }

  lemma {:induction false} ProgressRun(s: State, steps: seq<Step>)
    requires Progressing(s) && CanRun(s, steps)
    ensures Progressing(Run(s, steps))
    decreases |steps|
  {
    if steps != [] {
      ProgressStep(s, steps[0]);
      ProgressRun(Do(s, steps[0]), steps[1..]);
    }
  }

  lemma ReachableProgress(s: State)
    requires Reachable(s)
    ensures Progressing(s)
  {
    var capacity: nat, dlq: Option<U32>, clock: Time, steps: seq<Step> :| Reaches(capacity, dlq, clock, steps, s);
    ProgressRun(Init(capacity, dlq, clock), steps);
  }

  /** For any behaviour of the clock: a call of `receive` goes through its loop body at most twice, and once
      more for each of its flushes that read the clock behind the timer that woke the call up. */
  lemma RoundsBounded(s: State)
    requires Reachable(s)
    ensures s.consumer.rounds <= 2 + s.consumer.backs
    ensures s.consumer.pc == TryRecv && s.consumer.rounds == 2 + s.consumer.backs ==> s.channel != []
    ensures InSelect(s.consumer.pc) ==> s.consumer.rounds <= 1 + s.consumer.backs
  {
    ReachableProgress(s);
  }

  // ---------- One round ----------

  /** Messages in the channel, or due and on their way there. */
  function Ready(s: State): nat {
    |s.channel| + if s.consumer.pc.Flushing? then |s.consumer.pc.due| else 0
  }

  predicate PushedByOthers(st: Step) {
    (st.Producer? && st.p.PushSend?) || (st.Nack? && st.n == NackPush)
  }

  /** The consumer is between its look at the clock and its look at the channel. */
  predicate BeforePop(s: State) {
    !s.closed && (s.consumer.pc.Flushing? || s.consumer.pc == TryRecv)
  }

  lemma ReadyFlush(s: State, st: FlushStep)
    requires BeforePop(s) && CanFlush(s, st)
    ensures var s' := FlushDo(s, st);
            BeforePop(s') && s'.consumer.mode == s.consumer.mode && Ready(s') == Ready(s)
  {
    FlushFrame(s, st);
  }

  lemma ReadyProduce(s: State, st: ProducerStep)
    requires CanProduce(s, st)
    ensures var s' := Produce(s, st);
            && s'.consumer == s.consumer && s'.closed == s.closed
            && |s'.channel| == |s.channel| + if st.PushSend? then 1 else 0
  {
  }

  lemma ReadyStep(s: State, st: Step)
    requires BeforePop(s) && Can(s, st) && !st.Call? && !st.Await?
    ensures var s' := Do(s, st);
            && BeforePop(s') && s'.consumer.mode == s.consumer.mode
            && Ready(s') == Ready(s) + if PushedByOthers(st) then 1 else 0
  {
    match st
    case Producer(p) => ReadyProduce(s, p);
    case Flush(f) => ReadyFlush(s, f);
    case Handle(i, h) => HandleFrame(s, i, h);
    case Nack(i, n) => ReadyNack(s, i, n);
    case _ =>
  }

  lemma ReadyNack(s: State, i: nat, st: NackStep)
    requires BeforePop(s) && CanNack(s, i, st)
    ensures var s' := NackDo(s, i, st);
            && s'.consumer == s.consumer && s'.closed == s.closed
            && |s'.channel| == |s.channel| + if st == NackPush then 1 else 0
  {
    NackFrame(s, i, st);
  }

  lemma {:induction false} ReadyRun(s: State, steps: seq<Step>)
    requires BeforePop(s) && CanRun(s, steps)
    requires forall k :: 0 <= k < |steps| ==> !steps[k].Call? && !steps[k].Await?
    ensures var s' := Run(s, steps);
            && BeforePop(s') && s'.consumer.mode == s.consumer.mode
            && (Ready(s') == 0 <==> Ready(s) == 0 && forall k :: 0 <= k < |steps| ==> !PushedByOthers(steps[k]))
    decreases |steps|
  {
    if steps != [] {
      ReadyStep(s, steps[0]);
      ReadyRun(Do(s, steps[0]), steps[1..]);
      assert forall k :: 0 < k < |steps| ==> steps[k] == steps[1..][k - 1];
    }
  }

  lemma NothingDueExactly(m: Buckets, now: Time)
    requires Filled(m)
    ensures Flatten(Due(m, now)) == [] <==> forall t :: t in m ==> now < t
  {
    if forall t :: t in m ==> now < t {
      assert Due(m, now).Keys == {};
    } else {
      var t :| t in m && t <= now;
      FlattenNonempty(Due(m, now), t);
    }
  }

  /** Nothing is found behind a flush if and only if the clock was read before everything scheduled, the channel was
      empty then, and nobody has pushed since. */
  ghost predicate NothingToFind(s: State, steps: seq<Step>) {
    && s.channel == []
    && (forall t :: t in s.scheduled ==> s.clock < t)
    && forall k :: 0 <= k < |steps| ==> !PushedByOthers(steps[k])
  }

  /** `steps` lead from the clock reading of a flush to the look at the channel behind it, whatever the others do. */
  ghost predicate ToThePop(s: State, steps: seq<Step>) {
    && !s.closed && s.consumer.pc == FlushLocked
    && CanRun(FlushDo(s, SplitDue), steps)
    && (forall k :: 0 <= k < |steps| ==> !steps[k].Call? && !steps[k].Await?)
    && Run(FlushDo(s, SplitDue), steps).consumer.pc == TryRecv
  }

  lemma FindsNothingExactly(s: State, steps: seq<Step>)
    requires Reachable(s) && ToThePop(s, steps)
    ensures var s' := Run(FlushDo(s, SplitDue), steps);
            && (s'.channel == [] <==> NothingToFind(s, steps))
            && !s'.closed && s'.consumer.mode == s.consumer.mode
  {
    ReachableProgress(s);
    ReadyRun(FlushDo(s, SplitDue), steps);
    NothingDueExactly(s.scheduled, s.clock);
  }

  /** A round of the receive loop goes on from its flush to the select exactly then. */
  lemma RoundGoesOnExactly(s: State, steps: seq<Step>)
    requires Reachable(s) && ToThePop(s, steps) && s.consumer.mode != Polling
    ensures AwaitDo(Run(FlushDo(s, SplitDue), steps), Pop).consumer.pc == AwaitPeekLock <==> NothingToFind(s, steps)
  {
    FindsNothingExactly(s, steps);
  }

  /** And exactly then a `try_receive` ends without a message. */
  lemma PollFindsNothingExactly(s: State, steps: seq<Step>)
    requires Reachable(s) && ToThePop(s, steps) && s.consumer.mode == Polling
    ensures var calls := AwaitDo(Run(FlushDo(s, SplitDue), steps), Pop).calls;
            calls != [] && (calls[|calls| - 1] == Ended(Polling, NoMessage) <==> NothingToFind(s, steps))
  {
    FindsNothingExactly(s, steps);
    ReachableStep(s, Flush(SplitDue));
    ReachableRun(FlushDo(s, SplitDue), steps);
    DisconnectedExactly(Run(FlushDo(s, SplitDue), steps));
  }

  // ---------- A clock that behaves ----------

  /** The clock does not go back, and a sleep does not end before the time it was set for. */
  predicate OnTime(s: State, st: Step)
    requires Can(s, st)
  {
    match st
    case Tick(now) => s.clock <= now
    case Await(WakeByTimer) => s.consumer.pc.wake.value <= s.clock
    case _ => true
  }

  predicate Punctual(s: State, steps: seq<Step>)
    requires CanRun(s, steps)
    decreases |steps|
  {
    steps == [] || (OnTime(s, steps[0]) && Punctual(Do(s, steps[0]), steps[1..]))
  }

  predicate UpToDate(s: State) {
    s.consumer.backs == 0 && !ReadsBack(s)
  }

  lemma UpToDateCall(s: State, st: CallStep)
    requires UpToDate(s) && CanCall(s, st)
    ensures UpToDate(CallDo(s, st))
  {
    CallFrame(s, st);
  }

  lemma UpToDateFlush(s: State, st: FlushStep)
    requires UpToDate(s) && CanFlush(s, st)
    ensures UpToDate(FlushDo(s, st))
  {
    FlushFrame(s, st);
  }

  lemma UpToDateAwait(s: State, st: AwaitStep)
    requires UpToDate(s) && CanAwait(s, st) && OnTime(s, Await(st))
    ensures UpToDate(AwaitDo(s, st))
  {
    AwaitFrame(s, st);
  }

  lemma UpToDateOther(s: State, st: Step)
    requires UpToDate(s) && Can(s, st) && OnTime(s, st) && !ConsumerStep(st)
    ensures UpToDate(Do(s, st))
  {
    OthersKeepConsumer(s, st);
    match st
    case Producer(p) =>
    case Handle(i, h) => HandleFrame(s, i, h);
    case Nack(i, n) => NackFrame(s, i, n);
    case _ =>
  }

  lemma UpToDateStep(s: State, st: Step)
    requires UpToDate(s) && Can(s, st) && OnTime(s, st)
    ensures UpToDate(Do(s, st))
  {
    match st
    case Call(c) => UpToDateCall(s, c);
    case Flush(f) => UpToDateFlush(s, f);
    case Await(a) => UpToDateAwait(s, a);
    case _ => UpToDateOther(s, st);
  }

  lemma {:induction false} UpToDateRun(s: State, steps: seq<Step>)
    requires UpToDate(s) && CanRun(s, steps) && Punctual(s, steps)
    ensures UpToDate(Run(s, steps))
    decreases |steps|
  {
    if steps != [] {
      UpToDateStep(s, steps[0]);
      UpToDateRun(Do(s, steps[0]), steps[1..]);
    }
  }

  /** In every punctual run a call of `receive` goes through its loop body at most twice, whatever is sent,
      scheduled or nacked meanwhile; and it goes to sleep at most once. */
  lemma AtMostTwoRounds(capacity: nat, dlq: Option<U32>, clock: Time, steps: seq<Step>)
    requires CanRun(Init(capacity, dlq, clock), steps) && Punctual(Init(capacity, dlq, clock), steps)
    ensures var s := Run(Init(capacity, dlq, clock), steps);
            && s.consumer.rounds <= 2
            && (InSelect(s.consumer.pc) ==> s.consumer.rounds == 1)
            && (s.consumer.pc == TryRecv && s.consumer.rounds == 2 ==> s.channel != [])
  {
    ProgressRun(Init(capacity, dlq, clock), steps);
    UpToDateRun(Init(capacity, dlq, clock), steps);
  }
}
