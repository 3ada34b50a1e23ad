/** How often a message is tried: the nack counters, the delivery counts and the limit. */
module Attempts {
  import opened Core
  import opened Schedule
  import B = Broker
  import L = Ledger
  import opened Machine
  import opened Refinement
  import opened Safety

  lemma ReachableTallied(s: State)
    requires Reachable(s)
    ensures Fifo(s) && Locking(s) && Requeues(s) && L.Shape(Abs(s)) && L.Tallied(Abs(s)) && L.Planned(Abs(s))
    ensures L.Judged(Abs(s)) && L.Faithful(Abs(s))
  {
    ReachableInv(s);
  }

  // ---------- Counter agreement ----------

  /** A delivery that has not counted a nack: its delivery count is one more than the nacks so far. */
  lemma DeliveryAgrees(s: State, i: nat)
    requires Reachable(s) && i < |s.receipts| && (s.receipts[i].phase in {Held, AwaitLock, Counting})
    ensures var e := s.receipts[i].env; 1 <= e.count == Tally(s.nackCounts, e.id) + 1 <= MaxAttempts(s.dlq)
  {
    ReachableTallied(s);
    var a := Abs(s);
    assert L.Live(a, i) && L.AgreesAt(a, i) && L.NumberedAt(a.log, a.dlq, i);
    VisibleElsewhere(s, i);
  }

  /** The message a nack is about is not live anywhere else, so nobody else sees its counter ahead. */
  lemma VisibleElsewhere(s: State, k: nat)
    requires Fifo(s) && Locking(s) && L.Tallied(Abs(s)) && L.Live(Abs(s), k)
    requires !MidNack(s, k)
    ensures Tally(VisibleNacks(s), s.log[k].env.id) == Tally(s.nackCounts, s.log[k].env.id)
  {
    var a := Abs(s);
    if s.lock.ByNack? && MidNack(s, s.lock.receipt) {
      var i := s.lock.receipt;
      assert L.Live(a, i);
      var first: nat := if k < i then k else i;
      assert L.Unique(a) && (s.log[k].env.id == s.log[i].env.id ==> !L.Live(a, first));
    }
  }

  lemma QueuedAgrees(s: State, k: nat)
    requires Reachable(s) && k < |s.channel|
    ensures var e := s.channel[k]; 1 <= e.count == Tally(s.nackCounts, e.id) + 1 <= MaxAttempts(s.dlq)
  {
    ReachableTallied(s);
    var a, j := Abs(s), |s.receipts| + k;
    assert s.channel[k] == s.log[j].env;
    assert L.Live(a, j) && L.AgreesAt(a, j) && L.NumberedAt(a.log, a.dlq, j);
    VisibleElsewhere(s, j);
  }

  /** A message that is scheduled, or due and not pushed yet, has a count of 1 and no counter. */
  lemma ScheduledAgrees(s: State, k: nat)
    requires Reachable(s) && k < |FlushBuffer(s) + Flatten(s.scheduled)|
    ensures var e := (FlushBuffer(s) + Flatten(s.scheduled))[k].env; e.count == 1 && e.id !in s.nackCounts
  {
    ReachableTallied(s);
    var a := Abs(s);
    assert L.Unseen(a, a.schedule[k].env.id);
    if s.lock.ByNack? && MidNack(s, s.lock.receipt) {
      assert s.log[s.lock.receipt].env == s.receipts[s.lock.receipt].env;
    }
  }

  /** A redelivery on its way into the channel: the counter is already one ahead. */
  lemma RequeueAgrees(s: State, i: nat)
    requires Reachable(s) && MidNack(s, i)
    ensures var e, r := s.receipts[i].env, s.receipts[i].phase.requeued;
            && e.count == Tally(s.nackCounts, e.id) < MaxAttempts(s.dlq)
            && r == e.(count := e.count + 1)
  {
    ReachableTallied(s);
    var a := Abs(s);
    assert s.lock == ByNack(i);
    assert L.Live(a, i) && L.AgreesAt(a, i) && L.NumberedAt(a.log, a.dlq, i);
    assert s.log[i].env == s.receipts[i].env;
  }

  /** No counter ever wraps while a nack is counted, except one: the delivery count of a dead letter, and
      that one wraps exactly when the configured limit is the largest u32. */
  lemma IncrementsAreSafe(s: State, i: nat)
    requires Reachable(s) && CanNack(s, i, NackCount)
    ensures var e := s.receipts[i].env;
            && Tally(NackDo(s, i, NackCount).nackCounts, e.id) == Tally(s.nackCounts, e.id) + 1
            && match NackVerdict(s, i)
               case Requeue(r) => r.count == e.count + 1
               case DeadLetter(d) => d.count == e.count + 1 <==> s.dlq != Some(U32_MAX)
               case Discard => s.dlq == None
  {
    DeliveryAgrees(s, i);
  }

  // ---------- Exactly so many attempts ----------

  function OneTo(n: nat): seq<nat> {
    seq(n, i requires 0 <= i < n => i + 1)
  }

  lemma {:induction false} CountsAreNumbers(log: seq<B.Record>, dlq: Option<U32>, id: Id)
    requires L.Numbered(log, dlq)
    ensures B.CountsOf(log, id) == OneTo(B.Occurrences(log, id))
    ensures B.Occurrences(log, id) <= MaxAttempts(dlq)
  {
    if log != [] {
      var n := |log| - 1;
      forall k: nat | k < n ensures L.NumberedAt(log[..n], dlq, k) {
        assert L.NumberedAt(log, dlq, k);
        assert log[..n][..k] == log[..k];
      }
      CountsAreNumbers(log[..n], dlq, id);
      assert L.NumberedAt(log, dlq, n);
    }
  }

  /** The enqueue log carries the attempts of a message as 1, 2, 3, ..., without a gap and never beyond
      the limit. */
  lemma AttemptsInOrder(s: State, id: Id)
    requires Reachable(s)
    ensures B.CountsOf(s.log, id) == OneTo(B.Occurrences(s.log, id))
    ensures B.Occurrences(s.log, id) <= MaxAttempts(s.dlq)
  {
    ReachableTallied(s);
    CountsAreNumbers(s.log, s.dlq, id);
  }

  /** A nack dead-letters (or, without a dead letter queue, drops) its message if and only if it is the
      last of the attempts allowed; any earlier nack requeues. */
  lemma LastNackDeadLetters(s: State, i: nat)
    requires Reachable(s) && CanNack(s, i, NackCount)
    ensures NackVerdict(s, i).Requeue? <==> Tally(s.nackCounts, s.receipts[i].env.id) + 1 < MaxAttempts(s.dlq)
    ensures NackVerdict(s, i).DeadLetter? ==> B.Occurrences(s.log, s.receipts[i].env.id) == MaxAttempts(s.dlq)
    ensures NackVerdict(s, i).DeadLetter? ==> s.dlq.Some?
  {
    DeliveryAgrees(s, i);
    ReachableTallied(s);
    assert L.Live(Abs(s), i) && L.AgreesAt(Abs(s), i);
  }

  /** The limits as the source has them: the configured one, at least 1, or the largest u32 without a dead letter
      queue. Below it a nack requeues with the next count; at it the message is dead-lettered, or dropped. */
  lemma LimitInForce(s: State, i: nat)
    requires Reachable(s) && CanNack(s, i, NackCount)
    ensures var e := s.receipts[i].env;
            match s.dlq
            case None =>
              NackVerdict(s, i) == if e.count < 0xFFFF_FFFF then Requeue(e.(count := e.count + 1)) else Discard
            case Some(max) =>
              if e.count < max then NackVerdict(s, i) == Requeue(e.(count := e.count + 1))
              else NackVerdict(s, i).DeadLetter? && e.count == if max == 0 then 1 else max
  {
    DeliveryAgrees(s, i);
  }

  predicate ForGood(fate: B.Fate) {
    fate != B.Unresolved && fate != B.Requeued
  }

  /** A dead-lettered message was delivered, and nacked, exactly as often as the limit says. */
  lemma DeadLetteredInFull(s: State, i: nat)
    requires Reachable(s) && i < |s.receipts| && s.receipts[i].phase == Settled(B.DeadLettered)
    ensures var id := s.receipts[i].env.id;
            && B.Occurrences(s.log, id) == MaxAttempts(s.dlq)
            && Tally(s.nackCounts, id) == MaxAttempts(s.dlq)
            && s.dlq.Some?
  {
    ReachableTallied(s);
    var a := Abs(s);
    assert a.fates[i] == B.DeadLettered && L.Live(a, i) && L.AgreesAt(a, i);
    VisibleElsewhere(s, i);
  }

  // ---------- Redeliveries ----------

  /** How often the nack of delivery `i` has enqueued something. */
  function EnqueuedBy(log: seq<B.Record>, i: nat): nat {
    if log == [] then 0
    else EnqueuedBy(log[..|log| - 1], i) + if log[|log| - 1].via == B.ByNack(i) then 1 else 0
  }

  lemma EnqueuedByAppend(log: seq<B.Record>, r: B.Record, i: nat)
    ensures EnqueuedBy(log + [r], i) == EnqueuedBy(log, i) + if r.via == B.ByNack(i) then 1 else 0
  {
    assert (log + [r])[..|log|] == log;
  }

  predicate WasRequeued(s: State, i: nat) {
    i < |s.receipts| && s.receipts[i].phase == Settled(B.Requeued)
  }

  ghost predicate RequeuesCounted(s: State) {
    forall i: nat :: EnqueuedBy(s.log, i) == if WasRequeued(s, i) then 1 else 0
  }

  /** Nothing of a nack: the log grows by an entry of another kind, if at all. */
  ghost predicate NotOfNack(s: State, s': State) {
    && (s'.log == s.log || exists r: B.Record :: !r.via.ByNack? && s'.log == s.log + [r])
    && forall i: nat :: WasRequeued(s', i) == WasRequeued(s, i)
  }

  lemma ProducerEntry(s: State, st: ProducerStep)
    requires CanProduce(s, st)
    ensures NotOfNack(s, Produce(s, st))
  {
    if st.PushSend? {
      var r := B.Record(s.tasks[st.t].batch[s.tasks[st.t].sent], B.BySend(st.t));
      assert Produce(s, st).log == s.log + [r];
    }
  }

  lemma FlushEntry(s: State, st: FlushStep)
    requires CanFlush(s, st)
    ensures NotOfNack(s, FlushDo(s, st))
  {
    FlushFrame(s, st);
    if st == PushDue {
      var r := B.Record(s.consumer.pc.due[0].env, B.ByFlush(s.consumer.pc.now));
      assert FlushDo(s, st).log == s.log + [r];
    }
  }

  lemma AwaitEntry(s: State, st: AwaitStep)
    requires CanAwait(s, st)
    ensures NotOfNack(s, AwaitDo(s, st))
  {
    if !Delivers(s, st) {
      AwaitSilentFrame(s, st);
    }
  }

  lemma HandleEntry(s: State, j: nat, st: HandleStep)
    requires CanHandle(s, j, st)
    ensures HandleDo(s, j, st).log == s.log
    ensures forall i: nat :: WasRequeued(HandleDo(s, j, st), i) == WasRequeued(s, i)
  {
  }

  lemma NackEntry(s: State, j: nat, st: NackStep)
    requires CanNack(s, j, st)
    ensures var s' := NackDo(s, j, st);
            var pushes := st == NackPush && !s.closed;
            && s'.log == s.log + (if pushes then [B.Record(s.receipts[j].phase.requeued, B.ByNack(j))] else [])
            && forall i: nat :: WasRequeued(s', i) == (WasRequeued(s, i) || (pushes && i == j))
    ensures !WasRequeued(s, j)
  {
    if st == NackCount {
      CountFrame(s, j);
    }
  }

  lemma RequeuesPlain(s: State, s': State)
    requires RequeuesCounted(s) && NotOfNack(s, s')
    ensures RequeuesCounted(s')
  {
    if s'.log != s.log {
      var r: B.Record :| !r.via.ByNack? && s'.log == s.log + [r];
      forall i: nat ensures EnqueuedBy(s'.log, i) == EnqueuedBy(s.log, i) {
        EnqueuedByAppend(s.log, r, i);
      }
    }
  }

  lemma RequeuesNack(s: State, j: nat, st: NackStep)
    requires RequeuesCounted(s) && CanNack(s, j, st)
    ensures RequeuesCounted(NackDo(s, j, st))
  {
    var s' := NackDo(s, j, st);
    NackEntry(s, j, st);
    if s'.log != s.log {
      forall i: nat ensures EnqueuedBy(s'.log, i) == if WasRequeued(s', i) then 1 else 0 {
        EnqueuedByAppend(s.log, B.Record(s.receipts[j].phase.requeued, B.ByNack(j)), i);
      }
    }
  }

  lemma RequeuesStep(s: State, st: Step)
    requires RequeuesCounted(s) && Can(s, st)
    ensures RequeuesCounted(Do(s, st))
  {
    match st
    case Producer(p) => ProducerEntry(s, p); RequeuesPlain(s, Do(s, st));
    case Call(c) => CallFrame(s, c);
    case Flush(f) => FlushEntry(s, f); RequeuesPlain(s, Do(s, st));
    case Await(a) => AwaitEntry(s, a); RequeuesPlain(s, Do(s, st));
    case Handle(j, h) => HandleEntry(s, j, h);
    case Nack(j, n) => RequeuesNack(s, j, n);
    case _ =>
  }

  lemma {:induction false} RequeuesRun(s: State, steps: seq<Step>)
    requires RequeuesCounted(s) && CanRun(s, steps)
    ensures RequeuesCounted(Run(s, steps))
    decreases |steps|
  {
    if steps != [] {
      RequeuesStep(s, steps[0]);
      RequeuesRun(Do(s, steps[0]), steps[1..]);
    }
  }

  /** A nack enqueues its redelivery once if it requeues, and not at all otherwise. */
  lemma RequeuedOnce(s: State, i: nat)
    requires Reachable(s)
    ensures EnqueuedBy(s.log, i) == if WasRequeued(s, i) then 1 else 0
  {
    var capacity: nat, dlq: Option<U32>, clock: Time, steps: seq<Step> :| Reaches(capacity, dlq, clock, steps, s);
    RequeuesRun(Init(capacity, dlq, clock), steps);
  }

  lemma {:induction false} EnqueuedBySome(log: seq<B.Record>, i: nat) returns (k: nat)
    requires EnqueuedBy(log, i) > 0
    ensures k < |log| && log[k].via == B.ByNack(i)
  {
    var n := |log| - 1;
    if log[n].via == B.ByNack(i) {
      k := n;
    } else {
      k := EnqueuedBySome(log[..n], i);
    }
  }

  /** And what it enqueues is the message of the delivery with the next count. */
  lemma RedeliveryInTheLog(s: State, i: nat)
    requires Reachable(s) && WasRequeued(s, i)
    ensures B.Record(Redelivery(s.receipts[i].env), B.ByNack(i)) in s.log
  {
    RequeuedOnce(s, i);
    var k := EnqueuedBySome(s.log, i);
    ReachableInv(s);
    assert L.Sourced(Abs(s)) && L.SourcedAt(Abs(s), k);
    assert s.log[k].env == Redelivery(s.log[i].env) && s.log[i].env == s.receipts[i].env;
  }

  /** A message is only dropped on its way back if there is no consumer any more. */
  lemma DroppedOnlyClosed(s: State, i: nat)
    requires Reachable(s) && i < |s.receipts| && s.receipts[i].phase == Settled(B.ClosedDropped)
    ensures s.closed
  {
    ReachableTallied(s);
    assert Abs(s).fates[i] == B.ClosedDropped;
  }

  // ---------- Dead letters ----------

  /** As many dead letters of each message as receipts that say so. */
  ghost predicate DeadLettersKept(s: State) {
    forall id :: Queued(s.deadLetters, id) == ReceiptsOf(s.receipts, id, WasDeadLettered)
  }

  lemma QueuedAppend(q: seq<Envelope>, e: Envelope, id: Id)
    ensures Queued(q + [e], id) == Queued(q, id) + if e.id == id then 1 else 0
  {
    assert (q + [e])[..|q|] == q;
  }

  function DeadOf(r: Receipt, id: Id): nat {
    if r.env.id == id && r.phase == Settled(B.DeadLettered) then 1 else 0
  }

  lemma DeadAppend(rs: seq<Receipt>, r: Receipt, id: Id)
    ensures ReceiptsOf(rs + [r], id, WasDeadLettered) == ReceiptsOf(rs, id, WasDeadLettered) + DeadOf(r, id)
  {
    assert (rs + [r])[..|rs|] == rs;
  }

  lemma {:induction false} DeadMove(rs: seq<Receipt>, i: nat, r: Receipt, id: Id)
    requires i < |rs|
    ensures ReceiptsOf(rs[i := r], id, WasDeadLettered) + DeadOf(rs[i], id)
            == ReceiptsOf(rs, id, WasDeadLettered) + DeadOf(r, id)
  {
    var n := |rs| - 1;
    if i < n {
      DeadMove(rs[..n], i, r, id);
      assert rs[i := r][..n] == rs[..n][i := r];
    } else {
      assert rs[i := r][..n] == rs[..n];
    }
  }

  lemma DeadAwait(s: State, st: AwaitStep)
    requires DeadLettersKept(s) && CanAwait(s, st)
    ensures DeadLettersKept(AwaitDo(s, st))
  {
    if Delivers(s, st) {
      forall id ensures ReceiptsOf(Deliver(s).receipts, id, WasDeadLettered) == Queued(s.deadLetters, id) {
        DeadAppend(s.receipts, Receipt(s.channel[0], Held), id);
      }
    } else {
      AwaitSilentFrame(s, st);
    }
  }

  lemma DeadHandle(s: State, i: nat, st: HandleStep)
    requires DeadLettersKept(s) && CanHandle(s, i, st)
    ensures DeadLettersKept(HandleDo(s, i, st))
  {
    var s' := HandleDo(s, i, st);
    HandleFrame(s, i, st);
    assert s'.receipts == s.receipts[i := s'.receipts[i]];
    forall id ensures ReceiptsOf(s'.receipts, id, WasDeadLettered) == Queued(s.deadLetters, id) {
      DeadMove(s.receipts, i, s'.receipts[i], id);
    }
  }

  lemma DeadNack(s: State, i: nat, st: NackStep)
    requires DeadLettersKept(s) && CanNack(s, i, st)
    ensures DeadLettersKept(NackDo(s, i, st))
  {
    var s' := NackDo(s, i, st);
    NackDeadLetters(s, i, st);
    forall id ensures ReceiptsOf(s'.receipts, id, WasDeadLettered) == Queued(s'.deadLetters, id) {
      DeadMove(s.receipts, i, s'.receipts[i], id);
      if s'.deadLetters != s.deadLetters {
        QueuedAppend(s.deadLetters, s'.deadLetters[|s.deadLetters|], id);
      }
    }
  }

  lemma NackDeadLetters(s: State, i: nat, st: NackStep)
    requires CanNack(s, i, st)
    ensures var s', r := NackDo(s, i, st), s.receipts[i];
            && s'.receipts == s.receipts[i := r.(phase := s'.receipts[i].phase)]
            && s'.receipts[i].phase != r.phase && r.phase != Settled(B.DeadLettered)
            && var dead := s'.receipts[i].phase == Settled(B.DeadLettered);
               s'.deadLetters == s.deadLetters + if dead then [Redelivery(r.env)] else []
  {
    if st == NackCount {
      CountFrame(s, i);
    }
  }

  lemma DeadStep(s: State, st: Step)
    requires DeadLettersKept(s) && Can(s, st)
    ensures DeadLettersKept(Do(s, st))
  {
    match st
    case Producer(p) =>
    case Call(c) => CallFrame(s, c);
    case Flush(f) => FlushFrame(s, f);
    case Await(a) => DeadAwait(s, a);
    case Handle(i, h) => DeadHandle(s, i, h);
    case Nack(i, n) => DeadNack(s, i, n);
    case _ =>
  }

  lemma {:induction false} DeadRun(s: State, steps: seq<Step>)
    requires DeadLettersKept(s) && CanRun(s, steps)
    ensures DeadLettersKept(Run(s, steps))
    decreases |steps|
  {
    if steps != [] {
      DeadStep(s, steps[0]);
      DeadRun(Do(s, steps[0]), steps[1..]);
    }
  }

  /** The history of dead letters holds each message exactly as often as it was dead-lettered: at most once. */
  lemma DeadLetteredOnce(s: State, id: Id)
    requires Reachable(s)
    ensures Queued(s.deadLetters, id) == Copies(s, id, WasDeadLettered) <= 1
  {
    var capacity: nat, dlq: Option<U32>, clock: Time, steps: seq<Step> :| Reaches(capacity, dlq, clock, steps, s);
    DeadRun(Init(capacity, dlq, clock), steps);
    Conservation(s, id);
  }

  /** Whatever the broker does, a message that was resolved for good stays out of the log. */
  lemma {:induction false} NeverAgain(b: B.State, evs: seq<B.Event>, i: nat)
    requires L.Inv(b) && B.CanRun(b, evs) && i < |b.fates| && ForGood(b.fates[i])
    ensures var b', id := B.Run(b, evs), b.log[i].env.id;
            && i < |b'.fates| && b'.fates[i] == b.fates[i]
            && i < |b'.log| && b'.log[i] == b.log[i]
            && B.Occurrences(b'.log, id) == B.Occurrences(b.log, id)
    decreases |evs|
  {
    if evs != [] {
      LedgerFacts(b);
      NotThisTime(b, evs[0], i);
      L.StepKeeps(b, evs[0]);
      NeverAgain(B.Apply(b, evs[0]), evs[1..], i);
    }
  }

  lemma LedgerFacts(b: B.State)
    requires L.Inv(b)
    ensures L.Shape(b) && L.Faithful(b) && L.Unique(b) && L.Planned(b)
  {
  }

  lemma NotThisTime(b: B.State, ev: B.Event, i: nat)
    requires L.Shape(b) && L.Faithful(b) && L.Unique(b) && L.Planned(b) && B.Enabled(b, ev)
    requires i < |b.fates| && ForGood(b.fates[i])
    ensures var b', id := B.Apply(b, ev), b.log[i].env.id;
            && i < |b'.fates| && b'.fates[i] == b.fates[i]
            && i < |b'.log| && b'.log[i] == b.log[i]
            && B.Occurrences(b'.log, id) == B.Occurrences(b.log, id)
  {
    var b', id := B.Apply(b, ev), b.log[i].env.id;
    LogAppends(b, ev);
    if b'.log != b.log {
      B.OccurrencesAppend(b.log, b'.log[|b.log|], id);
      OthersOnly(b, ev, i);
    }
  }

  lemma LogAppends(b: B.State, ev: B.Event)
    requires B.Enabled(b, ev)
    ensures var b' := B.Apply(b, ev);
            b'.log == b.log || (|b'.log| == |b.log| + 1 && b'.log == b.log + [b'.log[|b.log|]])
  {
  }

  lemma OthersOnly(b: B.State, ev: B.Event, i: nat)
    requires L.Shape(b) && L.Faithful(b) && L.Unique(b) && L.Planned(b) && B.Enabled(b, ev)
    requires i < |b.fates| && ForGood(b.fates[i]) && |B.Apply(b, ev).log| > |b.log|
    ensures B.Apply(b, ev).log[|b.log|].env.id != b.log[i].env.id
  {
    assert L.Live(b, i);
    match ev
    case Nack(k) =>
      assert L.Live(b, k) && k != i;
      var first: nat := if k < i then k else i;
      assert b.log[k].env.id == b.log[i].env.id ==> !L.Live(b, first);
    case _ =>
  }

  /** Once a delivery was acked, abandoned, dead-lettered or dropped, no run enqueues its message again. */
  lemma ResolvedStaysOut(s: State, steps: seq<Step>, i: nat)
    requires Reachable(s) && CanRun(s, steps)
    requires i < |s.receipts| && ForGood(FateOf(s.receipts[i].phase))
    ensures var s', id := Run(s, steps), s.receipts[i].env.id;
            && i < |s'.receipts| && FateOf(s'.receipts[i].phase) == FateOf(s.receipts[i].phase)
            && B.Occurrences(s'.log, id) == B.Occurrences(s.log, id)
  {
    ReachableInv(s);
    RunRefines(s, steps);
    NeverAgain(Abs(s), Events(s, steps), i);
    assert Abs(Run(s, steps)).fates == Fates(Run(s, steps).receipts);
    assert s.log[i].env == s.receipts[i].env;
  }
}
