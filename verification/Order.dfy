/** What the enqueue log says about who enqueued what and when: batches, delivery times, and how long a queue can
    keep a consumer busy. */
module Order {
  import opened Core
  import opened Schedule
  import B = Broker
  import L = Ledger
  import opened Machine
  import opened Refinement
  import opened Safety

  // ---------- Batches ----------

  /** The envelopes task `t` has enqueued, in log order. */
  function SentBy(log: seq<B.Record>, t: nat): seq<Envelope> {
    if log == [] then []
    else
      var last := log[|log| - 1];
      SentBy(log[..|log| - 1], t) + if last.via == B.BySend(t) then [last.env] else []
  }

  ghost predicate BatchAt(s: State, t: nat) {
    if t < |s.tasks| then
      s.tasks[t].sent <= |s.tasks[t].batch| && SentBy(s.log, t) == s.tasks[t].batch[..s.tasks[t].sent]
    else SentBy(s.log, t) == []
  }

  ghost predicate Batches(s: State) {
    forall t: nat {:trigger BatchAt(s, t)} :: BatchAt(s, t)
  }

  lemma SentByAppend(log: seq<B.Record>, r: B.Record, t: nat)
    ensures SentBy(log + [r], t) == SentBy(log, t) + if r.via == B.BySend(t) then [r.env] else []
  {
    assert (log + [r])[..|log|] == log;
  }

  /** A step other than a producer's enqueues nothing on behalf of a batch. */
  lemma LogGrows(s: State, st: Step)
    requires Can(s, st) && !st.Producer?
    ensures Do(s, st).tasks == s.tasks
    ensures Do(s, st).log == s.log
            || exists r: B.Record :: !r.via.BySend? && Do(s, st).log == s.log + [r]
  {
    OthersFrame(s, st);
    match st
    case Call(c) => CallFrame(s, c);
    case Flush(f) => FlushFrame(s, f); FlushLog(s, f);
    case Await(a) => AwaitFrame(s, a);
    case Handle(i, h) => HandleFrame(s, i, h);
    case Nack(i, n) => NackLog(s, i, n);
    case _ =>
  }

  lemma FlushLog(s: State, st: FlushStep)
    requires CanFlush(s, st)
    ensures FlushDo(s, st).log == s.log
            || exists r: B.Record :: !r.via.BySend? && FlushDo(s, st).log == s.log + [r]
  {
    if st == PushDue {
      var r := B.Record(s.consumer.pc.due[0].env, B.ByFlush(s.consumer.pc.now));
      assert FlushDo(s, st).log == s.log + [r];
    }
  }

  lemma NackLog(s: State, i: nat, st: NackStep)
    requires CanNack(s, i, st)
    ensures NackDo(s, i, st).log == s.log
            || exists r: B.Record :: !r.via.BySend? && NackDo(s, i, st).log == s.log + [r]
  {
    if st == NackPush && !s.closed {
      var r := B.Record(s.receipts[i].phase.requeued, B.ByNack(i));
      assert NackDo(s, i, st).log == s.log + [r];
    }
  }

  lemma BatchStep(s: State, st: Step)
    requires Batches(s) && Can(s, st)
    ensures Batches(Do(s, st))
  {
    var s' := Do(s, st);
    forall t: nat ensures BatchAt(s', t) {
      assert BatchAt(s, t);
      if st.Producer? {
        BatchProduced(s, st.p, t);
      } else {
        LogGrows(s, st);
        if s'.log != s.log {
          var r: B.Record :| !r.via.BySend? && s'.log == s.log + [r];
          SentByAppend(s.log, r, t);
        }
      }
    }
  }

  lemma BatchProduced(s: State, st: ProducerStep, t: nat)
    requires BatchAt(s, t) && CanProduce(s, st)
    ensures BatchAt(Produce(s, st), t)
  {
    if st.PushSend? {
      SentByAppend(s.log, Produce(s, st).log[|s.log|], t);
      if st.t == t {
        var batch, n := s.tasks[t].batch, s.tasks[t].sent;
        assert batch[..n + 1] == batch[..n] + [batch[n]];
      }
    }
  }

  lemma {:induction false} BatchRun(s: State, steps: seq<Step>)
    requires Batches(s) && CanRun(s, steps)
    ensures Batches(Run(s, steps))
    decreases |steps|
  {
    if steps != [] {
      BatchStep(s, steps[0]);
      BatchRun(Do(s, steps[0]), steps[1..]);
    }
  }

  /** A batch enters the log in input order, whatever else is going on. A batch that is done is in it as a
      whole; one that failed, or is still waiting, is in it up to the message it stopped at. */
  lemma BatchInOrder(s: State, t: nat)
    requires Reachable(s) && t < |s.tasks|
    ensures s.tasks[t].sent <= |s.tasks[t].batch|
    ensures SentBy(s.log, t) == s.tasks[t].batch[..s.tasks[t].sent]
  {
    ReachableBatches(s);
    assert BatchAt(s, t);
  }

  lemma ReachableBatches(s: State)
    requires Reachable(s)
    ensures Batches(s)
  {
    var capacity: nat, dlq: Option<U32>, clock: Time, steps: seq<Step> :| Reaches(capacity, dlq, clock, steps, s);
    var s0 := Init(capacity, dlq, clock);
    forall u: nat ensures BatchAt(s0, u) {}
    BatchRun(s0, steps);
  }

  lemma {:induction false} SentByPrefix(log: seq<B.Record>, n: nat, t: nat)
    requires n <= |log|
    ensures SentBy(log[..n], t) <= SentBy(log, t)
    decreases |log|
  {
    if n < |log| {
      SentByPrefix(log[..|log| - 1], n, t);
      assert log[..|log| - 1][..n] == log[..n];
    } else {
      assert log[..n] == log;
    }
  }

  /** First deliveries of a batch come out in send order: what was received of it is a prefix of it. */
  lemma BatchReceivedInOrder(s: State, t: nat)
    requires Reachable(s) && t < |s.tasks|
    ensures |s.receipts| <= |s.log|
    ensures SentBy(s.log[..|s.receipts|], t) <= s.tasks[t].batch
  {
    ReachableConserved(s);
    BatchInOrder(s, t);
    SentByPrefix(s.log, |s.receipts|, t);
  }

  // ---------- One send after the other ----------

  /** `log'` is `log`, possibly with one more entry, which is not on behalf of task `t`. */
  ghost predicate GrowsBeside(log: seq<B.Record>, log': seq<B.Record>, t: nat) {
    log' == log || exists r: B.Record :: r.via != B.BySend(t) && log' == log + [r]
  }

  lemma DoneProduced(s: State, st: ProducerStep, t: nat)
    requires CanProduce(s, st) && t < |s.tasks| && !Running(s.tasks[t])
    ensures var s' := Produce(s, st);
            t < |s'.tasks| && s'.tasks[t] == s.tasks[t] && GrowsBeside(s.log, s'.log, t)
  {
    if st.PushSend? {
      var r := B.Record(s.tasks[st.t].batch[s.tasks[st.t].sent], B.BySend(st.t));
      assert Produce(s, st).log == s.log + [r];
    }
  }

  /** A task that is done, or has failed, stays as it is and enqueues nothing more, whatever else runs. */
  lemma {:induction false} DoneStays(s: State, steps: seq<Step>, t: nat)
    requires CanRun(s, steps) && t < |s.tasks| && !Running(s.tasks[t])
    ensures var s' := Run(s, steps);
            && t < |s'.tasks| && s'.tasks[t] == s.tasks[t]
            && s.log <= s'.log
            && forall k :: |s.log| <= k < |s'.log| ==> s'.log[k].via != B.BySend(t)
    decreases |steps|
  {
    if steps != [] {
      if steps[0].Producer? {
        DoneProduced(s, steps[0].p, t);
      } else {
        LogGrows(s, steps[0]);
      }
      DoneStays(Do(s, steps[0]), steps[1..], t);
    }
  }

  lemma {:induction false} SentByNone(log: seq<B.Record>, t: nat)
    ensures SentBy(log, t) == [] <==> forall k :: 0 <= k < |log| ==> log[k].via != B.BySend(t)
  {
    if log != [] {
      var front := log[..|log| - 1];
      SentByNone(front, t);
      assert forall k :: 0 <= k < |front| ==> log[k] == front[k];
    }
  }

  lemma NotYetStarted(s: State, u: nat)
    requires Reachable(s) && |s.tasks| <= u
    ensures forall k :: 0 <= k < |s.log| ==> s.log[k].via != B.BySend(u)
  {
    ReachableBatches(s);
    assert BatchAt(s, u);
    SentByNone(s.log, u);
  }

  /** A send that begins after another has ended, be it the same producer's, enqueues everything behind it. */
  lemma SendsInOrder(s: State, steps: seq<Step>, t: nat, u: nat, j: nat, k: nat)
    requires Reachable(s) && CanRun(s, steps)
    requires t < |s.tasks| <= u && !Running(s.tasks[t])
    requires var log := Run(s, steps).log;
             j < |log| && k < |log| && log[j].via == B.BySend(t) && log[k].via == B.BySend(u)
    ensures j < |s.log| <= k
  {
    DoneStays(s, steps, t);
    NotYetStarted(s, u);
  }

  /** So its messages come out behind it: by the time anything the later send enqueued is received, everything
      that the earlier one had enqueued was received. */
  lemma SendsReceivedInOrder(s: State, steps: seq<Step>, t: nat, u: nat, k: nat)
    requires Reachable(s) && CanRun(s, steps)
    requires t < |s.tasks| <= u && !Running(s.tasks[t])
    requires var s' := Run(s, steps); k < |s'.receipts| && k < |s'.log| && s'.log[k].via == B.BySend(u)
    ensures var s' := Run(s, steps);
            && |s'.receipts| <= |s'.log| && s'.receipts[k].env == s'.log[k].env
            && s.tasks[t].sent <= |s.tasks[t].batch|
            && SentBy(s'.log[..k], t) == s.tasks[t].batch[..s.tasks[t].sent]
            && forall j: nat :: j < |s'.log| && s'.log[j].via == B.BySend(t) ==>
                                  j < k && s'.receipts[j].env == s'.log[j].env
  {
    var s' := Run(s, steps);
    RunFifo(s, steps);
    DoneStays(s, steps, t);
    NotYetStarted(s, u);
    SendsBehind(s, steps, t, k);
  }

  lemma RunFifo(s: State, steps: seq<Step>)
    requires Reachable(s) && CanRun(s, steps)
    ensures Fifo(Run(s, steps))
  {
    ReachableInv(s);
    RunRefines(s, steps);
  }

  lemma SendsBehind(s: State, steps: seq<Step>, t: nat, k: nat)
    requires Reachable(s) && CanRun(s, steps) && t < |s.tasks| && !Running(s.tasks[t])
    requires |s.log| <= k <= |Run(s, steps).log|
    ensures s.tasks[t].sent <= |s.tasks[t].batch|
    ensures SentBy(Run(s, steps).log[..k], t) == s.tasks[t].batch[..s.tasks[t].sent]
    decreases k
  {
    var log := Run(s, steps).log;
    DoneStays(s, steps, t);
    if k > |s.log| {
      SendsBehind(s, steps, t, k - 1);
      assert log[..k][..k - 1] == log[..k - 1] && log[..k][k - 1] == log[k - 1];
    } else {
      assert log[..k] == s.log;
      BatchInOrder(s, t);
    }
  }

  // ---------- Never early ----------

  /** A message with a delivery time first entered the channel by a flush that read a clock not before it. */
  lemma {:induction false} NeverEarly(s: State, k: nat)
    requires Reachable(s) && k < |s.log|
    ensures s.log[k].env.id in s.accepted
    ensures var at := s.accepted[s.log[k].env.id].at;
            match at
            case Some(t) => exists j :: 0 <= j <= k && s.log[j].env.id == s.log[k].env.id
                                        && s.log[j].via.ByFlush? && t <= s.log[j].via.now
            case None => exists j :: 0 <= j <= k && s.log[j].env.id == s.log[k].env.id && s.log[j].via.BySend?
  {
    ReachableSourced(s);
    FirstEntry(Abs(s), k);
  }

  lemma ReachableSourced(s: State)
    requires Reachable(s)
    ensures L.Sourced(Abs(s)) && L.Faithful(Abs(s)) && L.Entered(Abs(s)) && Fifo(s)
  {
    ReachableInv(s);
  }

  lemma {:induction false} FirstEntry(b: B.State, k: nat)
    requires L.Sourced(b) && L.Faithful(b) && k < |b.log|
    ensures var at := b.accepted[b.log[k].env.id].at;
            match at
            case Some(t) => exists j :: 0 <= j <= k && b.log[j].env.id == b.log[k].env.id
                                        && b.log[j].via.ByFlush? && t <= b.log[j].via.now
            case None => exists j :: 0 <= j <= k && b.log[j].env.id == b.log[k].env.id && b.log[j].via.BySend?
  {
    assert L.SourcedAt(b, k);
    if b.log[k].via.ByNack? {
      FirstEntry(b, b.log[k].via.receipt);
    }
  }

  /** Every entry of the log is the accepted envelope with another delivery count: payload, headers,
      routing key and time of first delivery are carried unchanged. */
  lemma CarriedUnchanged(s: State, k: nat)
    requires Reachable(s) && k < |s.log|
    ensures var e := s.log[k].env; e.id in s.accepted && e == s.accepted[e.id].env.(count := e.count)
  {
    ReachableSourced(s);
  }

  // ---------- Draining ----------

  /** Deliveries still possible for the message of log entry `k` if nothing new is sent. */
  function Chances(b: B.State, k: nat): nat
    requires k < |b.log|
  {
    var left := MaxAttempts(b.dlq) - b.log[k].env.count;
    if left < 0 then 0
    else if k >= |b.fates| then left + 1
    else if b.fates[k] == B.Unresolved then left
    else 0
  }

  function LogChances(b: B.State, n: nat): nat
    requires n <= |b.log|
  {
    if n == 0 then 0 else LogChances(b, n - 1) + Chances(b, n - 1)
  }

  function ScheduleChances(s: seq<Entry>, each: nat): nat {
    if s == [] then 0 else each + ScheduleChances(s[1..], each)
  }

  /** The sum over all live messages of the limit minus the nacks so far, counting a delivery that is out
      as used up. */
  function Budget(b: B.State): nat {
    ScheduleChances(b.schedule, MaxAttempts(b.dlq)) + LogChances(b, |b.log|)
  }

  lemma {:induction false} ChancesSame(b: B.State, b': B.State, n: nat)
    requires n <= |b.log| && n <= |b'.log|
    requires forall k: nat :: k < n ==> Chances(b', k) == Chances(b, k)
    ensures LogChances(b', n) == LogChances(b, n)
  {
    if n > 0 {
      ChancesSame(b, b', n - 1);
    }
  }

  lemma {:induction false} ChancesOne(b: B.State, b': B.State, n: nat, i: nat)
    requires i < n <= |b.log| && n <= |b'.log|
    requires forall k: nat :: k < n && k != i ==> Chances(b', k) == Chances(b, k)
    ensures LogChances(b', n) + Chances(b, i) == LogChances(b, n) + Chances(b', i)
  {
    if i == n - 1 {
      ChancesSame(b, b', n - 1);
    } else {
      ChancesOne(b, b', n - 1, i);
    }
  }

  lemma {:induction false} ScheduleChancesDrop(s: seq<Entry>, each: nat, n: nat)
    requires n <= |s|
    ensures ScheduleChances(s[n..], each) <= ScheduleChances(s, each)
  {
    if n > 0 {
      ScheduleChancesDrop(s[1..], each, n - 1);
      assert s[1..][n - 1..] == s[n..];
    } else {
      assert s[n..] == s;
    }
  }

  function Spends(ev: B.Event): nat {
    if ev == B.Receive then 1 else 0
  }

  predicate Sends(ev: B.Event) {
    ev.Send? || ev.SendAt?
  }

  lemma BudgetNack(b: B.State, i: nat)
    requires L.Tallied(b) && B.Pending(b, i)
    ensures Budget(B.NackAll(b, i)) <= Budget(b)
  {
    var b', n := B.NackAll(b, i), |b.log|;
    L.NackOutcome(b, i);
    ChancesOne(b, b', n, i);
  }

  lemma BudgetRelease(b: B.State, now: Time)
    requires L.Planned(b) && L.Shape(b) && B.Enabled(b, B.Release(now))
    ensures Budget(B.Apply(b, B.Release(now))) <= Budget(b)
  {
    var b', n := B.Apply(b, B.Release(now)), |b.log|;
    ChancesSame(b, b', n);
    assert b.schedule[0].env.count == 1;
    assert LogChances(b', n + 1) == LogChances(b', n) + Chances(b', n);
  }

  lemma BudgetReceive(b: B.State)
    requires L.Tallied(b) && B.Enabled(b, B.Receive)
    ensures Budget(B.Apply(b, B.Receive)) + 1 == Budget(b)
  {
    var b', i := B.Apply(b, B.Receive), |b.fates|;
    assert L.NumberedAt(b.log, b.dlq, i);
    ChancesOne(b, b', |b.log|, i);
  }

  /** Every receive costs one unit of the budget, and nothing but new messages adds to it. */
  lemma BudgetStep(b: B.State, ev: B.Event)
    requires L.Shape(b) && L.Planned(b) && L.Tallied(b) && B.Enabled(b, ev) && !Sends(ev)
    ensures Budget(B.Apply(b, ev)) + Spends(ev) <= Budget(b)
  {
    match ev
    case Release(now) => BudgetRelease(b, now);
    case Receive => BudgetReceive(b);
    case Nack(i) => BudgetNack(b, i);
    case Lose(n) =>
      ScheduleChancesDrop(b.schedule, MaxAttempts(b.dlq), n);
      ChancesSame(b, B.Apply(b, ev), |b.log|);
    case Ack(i) => ChancesOne(b, B.Apply(b, ev), |b.log|, i);
    case Abandon(i) => ChancesOne(b, B.Apply(b, ev), |b.log|, i);
    case Close => ChancesSame(b, B.Apply(b, ev), |b.log|);
    case Nothing => ChancesSame(b, B.Apply(b, ev), |b.log|);
    case Send(_, _) =>
    case SendAt(_, _) =>
  }

  lemma {:induction false} DrainBound(b: B.State, evs: seq<B.Event>)
    requires L.Inv(b) && B.CanRun(b, evs) && forall k :: 0 <= k < |evs| ==> !Sends(evs[k])
    ensures |B.Run(b, evs).fates| + Budget(B.Run(b, evs)) <= |b.fates| + Budget(b)
    decreases |evs|
  {
    if evs != [] {
      LedgerParts(b);
      BudgetStep(b, evs[0]);
      L.StepKeeps(b, evs[0]);
      DrainBound(B.Apply(b, evs[0]), evs[1..]);
      FatesCount(b, evs[0]);
    }
  }

  lemma LedgerParts(b: B.State)
    requires L.Inv(b)
    ensures L.Shape(b) && L.Planned(b) && L.Tallied(b)
  {
  }

  lemma FatesCount(b: B.State, ev: B.Event)
    requires B.Enabled(b, ev)
    ensures |B.Apply(b, ev).fates| == |b.fates| + Spends(ev)
  {
  }

  predicate Accepts(st: Step) {
    st.Producer? && (st.p.PushSend? || st.p.SendAt?)
  }

  lemma {:induction false} NothingSent(s: State, steps: seq<Step>)
    requires CanRun(s, steps) && forall k :: 0 <= k < |steps| ==> !Accepts(steps[k])
    ensures forall k :: 0 <= k < |Events(s, steps)| ==> !Sends(Events(s, steps)[k])
    decreases |steps|
  {
    if steps != [] {
      NothingSent(Do(s, steps[0]), steps[1..]);
      assert !Sends(EventOf(s, steps[0]));
    }
  }

  /** Without new messages, a consumer that resolves its deliveries in any way whatsoever receives at most
      `Budget` more of them, however the steps are interleaved. */
  lemma DrainTerminates(s: State, steps: seq<Step>)
    requires Reachable(s) && CanRun(s, steps)
    requires forall k :: 0 <= k < |steps| ==> !Accepts(steps[k])
    ensures |Run(s, steps).receipts| <= |s.receipts| + Budget(Abs(s))
  {
    ReachableInv(s);
    RunRefines(s, steps);
    NothingSent(s, steps);
    DrainBound(Abs(s), Events(s, steps));
    assert Abs(Run(s, steps)).fates == Fates(Run(s, steps).receipts);
  }

  // ---------- Deliveries in all ----------

  lemma {:induction false} ScheduleChancesInsert(s: seq<Entry>, x: Entry, each: nat)
    ensures ScheduleChances(InsertByTime(s, x), each) == ScheduleChances(s, each) + each
  {
    if s == [] || x.time < s[0].time {
      assert ([x] + s)[1..] == s;
    } else {
      ScheduleChancesInsert(s[1..], x, each);
      assert ([s[0]] + InsertByTime(s[1..], x))[1..] == InsertByTime(s[1..], x);
    }
  }

  /** A new message adds as many deliveries as the limit allows, and no more. */
  lemma BudgetSends(b: B.State, ev: B.Event)
    requires |b.fates| <= |b.log| && B.Enabled(b, ev) && Sends(ev)
    ensures Budget(B.Apply(b, ev)) == Budget(b) + MaxAttempts(b.dlq)
  {
    var b' := B.Apply(b, ev);
    match ev
    case Send(e, task) =>
      ChancesSame(b, b', |b.log|);
      assert LogChances(b', |b.log| + 1) == LogChances(b', |b.log|) + Chances(b', |b.log|);
    case SendAt(e, t) =>
      ChancesSame(b, b', |b.log|);
      ScheduleChancesInsert(b.schedule, Entry(t, e), MaxAttempts(b.dlq));
  }

  ghost predicate WithinLimit(b: B.State) {
    |b.fates| + Budget(b) <= MaxAttempts(b.dlq) * |b.accepted|
  }

  lemma AcceptedGrows(b: B.State, ev: B.Event)
    requires B.Enabled(b, ev)
    ensures |B.Apply(b, ev).accepted| == |b.accepted| + if Sends(ev) then 1 else 0
  {
    if Sends(ev) {
      assert B.Apply(b, ev).accepted.Keys == b.accepted.Keys + {ev.env.id};
    } else {
      AcceptedSame(b, ev);
    }
  }

  lemma AcceptedSame(b: B.State, ev: B.Event)
    requires B.Enabled(b, ev) && !Sends(ev)
    ensures B.Apply(b, ev).accepted == b.accepted
  {
  }

  lemma SameLimit(b: B.State, ev: B.Event)
    requires B.Enabled(b, ev)
    ensures B.Apply(b, ev).dlq == b.dlq
  {
  }

  lemma OneMore(max: nat, n: nat)
    ensures max * (n + 1) == max * n + max
  {
  }

  lemma WithinLimitStep(b: B.State, ev: B.Event)
    requires L.Shape(b) && L.Planned(b) && L.Tallied(b) && B.Enabled(b, ev) && WithinLimit(b)
    ensures WithinLimit(B.Apply(b, ev))
  {
    FatesCount(b, ev);
    AcceptedGrows(b, ev);
    SameLimit(b, ev);
    OneMore(MaxAttempts(b.dlq), |b.accepted|);
    if Sends(ev) {
      BudgetSends(b, ev);
    } else {
      BudgetStep(b, ev);
    }
  }

  lemma {:induction false} WithinLimitRun(b: B.State, evs: seq<B.Event>)
    requires L.Inv(b) && B.CanRun(b, evs) && WithinLimit(b)
    ensures WithinLimit(B.Run(b, evs))
    decreases |evs|
  {
    if evs != [] {
      LedgerParts(b);
      WithinLimitStep(b, evs[0]);
      L.StepKeeps(b, evs[0]);
      WithinLimitRun(B.Apply(b, evs[0]), evs[1..]);
    }
  }

  /** In every run, what was delivered and what can still be delivered are together at most as much as the limit
      allows for each message accepted. */
  lemma DeliveriesInAll(s: State)
    requires Reachable(s)
    ensures |s.receipts| + Budget(Abs(s)) <= MaxAttempts(s.dlq) * |s.accepted|
  {
    var capacity: nat, dlq: Option<U32>, clock: Time, steps: seq<Step> :| Reaches(capacity, dlq, clock, steps, s);
    EveryRunRefines(capacity, dlq, clock, steps);
    L.InitInv(dlq);
    WithinLimitRun(B.Init(dlq), Events(Init(capacity, dlq, clock), steps));
  }
}
