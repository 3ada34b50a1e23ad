/** What becomes of what a step is given, over any run behind it. */
module Promises {
  import opened Core
  import opened Schedule
  import B = Broker
  import L = Ledger
  import opened Machine
  import opened Refinement
  import opened Safety
  import opened Order

  // ---------- A batch ----------

  lemma {:induction false} TaskStays(s: State, steps: seq<Step>, t: nat)
    requires CanRun(s, steps) && t < |s.tasks|
    ensures var s' := Run(s, steps);
            t < |s'.tasks| && s'.tasks[t].batch == s.tasks[t].batch && s'.tasks[t].owner == s.tasks[t].owner
    decreases |steps|
  {
    if steps != [] {
      if !steps[0].Producer? {
        OthersFrame(s, steps[0]);
      }
      TaskStays(Do(s, steps[0]), steps[1..], t);
    }
  }

  /** Of the batch handed to `send_batch` the log holds a prefix, in the order it was handed over, and all of it once
      the batch is done without a failure; and so does what was received. */
  lemma BatchEntersInOrder(s: State, p: nat, batch: seq<Envelope>, steps: seq<Step>)
    requires Reachable(s) && CanProduce(s, StartBatch(p, batch))
    requires CanRun(Produce(s, StartBatch(p, batch)), steps)
    ensures var s', t := Run(Produce(s, StartBatch(p, batch)), steps), |s.tasks|;
            && t < |s'.tasks| && |s'.receipts| <= |s'.log|
            && SentBy(s'.log[..|s'.receipts|], t) <= SentBy(s'.log, t) <= batch
            && (!Running(s'.tasks[t]) && !s'.tasks[t].failed ==> SentBy(s'.log, t) == batch)
  {
    var s1, t := Produce(s, StartBatch(p, batch)), |s.tasks|;
    var s' := Run(s1, steps);
    ReachableStep(s, Producer(StartBatch(p, batch)));
    ReachableRun(s1, steps);
    TaskStays(s1, steps, t);
    BatchInOrder(s', t);
    ReachableConserved(s');
    SentByPrefix(s'.log, |s'.receipts|, t);
  }

  ghost predicate FailedWithConsumer(s: State) {
    !s.closed && exists t :: 0 <= t < |s.tasks| && s.tasks[t].failed
  }

  lemma {:induction false} FailsClosedRun(s: State, steps: seq<Step>)
    requires CanRun(s, steps) && !FailedWithConsumer(s)
    ensures !FailedWithConsumer(Run(s, steps))
    decreases |steps|
  {
    if steps != [] {
      FailsClosedStep(s, steps[0]);
      FailsClosedRun(Do(s, steps[0]), steps[1..]);
    }
  }

  /** A send fails only if the consumer was dropped. */
  lemma SendFailsOnlyClosed(s: State, t: nat)
    requires Reachable(s) && t < |s.tasks| && s.tasks[t].failed
    ensures s.closed
  {
    var capacity: nat, dlq: Option<U32>, clock: Time, steps: seq<Step> :| Reaches(capacity, dlq, clock, steps, s);
    FailsClosedRun(Init(capacity, dlq, clock), steps);
  }

  lemma FailsClosedStep(s: State, st: Step)
    requires Can(s, st) && !FailedWithConsumer(s)
    ensures !FailedWithConsumer(Do(s, st))
  {
    if s.closed {
      StaysClosed(s, st);
    }
    if st.Producer? {
      FailsClosedProduce(s, st.p);
    } else {
      OthersFrame(s, st);
    }
  }

  lemma FailsClosedProduce(s: State, st: ProducerStep)
    requires CanProduce(s, st) && !FailedWithConsumer(s)
    ensures !FailedWithConsumer(Produce(s, st))
  {
  }

  lemma StaysClosed(s: State, st: Step)
    requires Can(s, st) && s.closed
    ensures Do(s, st).closed
  {
    match st
    case Producer(p) =>
    case Call(c) => CallFrame(s, c);
    case Flush(f) => FlushFrame(s, f);
    case Await(a) => AwaitFrame(s, a);
    case Handle(i, h) => HandleFrame(s, i, h);
    case Nack(i, n) => NackFrame(s, i, n);
    case _ =>
  }

  // ---------- What is accepted is what was handed over ----------

  lemma {:induction false} AcceptedStays(s: State, steps: seq<Step>, id: Id)
    requires Fresh(s) && Reachable(s) && CanRun(s, steps) && id in s.accepted
    ensures var s' := Run(s, steps); id in s'.accepted && s'.accepted[id] == s.accepted[id]
    decreases |steps|
  {
    if steps != [] {
      AcceptedStep(s, steps[0], id);
      ReachableStep(s, steps[0]);
      ReachableFresh(Do(s, steps[0]));
      AcceptedStays(Do(s, steps[0]), steps[1..], id);
    }
  }

  lemma ReachableFresh(s: State)
    requires Reachable(s)
    ensures Fresh(s) && L.Sourced(Abs(s)) && L.Faithful(Abs(s))
  {
    ReachableInv(s);
  }

  lemma AcceptedStep(s: State, st: Step, id: Id)
    requires Fresh(s) && Can(s, st) && id in s.accepted
    ensures id in Do(s, st).accepted && Do(s, st).accepted[id] == s.accepted[id]
  {
    if st.Producer? {
      if st.p.PushSend? {
        assert Waiting(s, st.p.t, s.tasks[st.p.t].sent);
      }
    } else {
      OthersFrame(s, st);
    }
  }

  /** A message handed to `send_at` is carried unchanged but for its delivery count. */
  lemma ScheduledIsCarried(s: State, p: nat, e: Envelope, at: Time, steps: seq<Step>, k: nat)
    requires Reachable(s) && CanProduce(s, SendAt(p, e, at))
    requires CanRun(Produce(s, SendAt(p, e, at)), steps)
    requires var log := Run(Produce(s, SendAt(p, e, at)), steps).log; k < |log| && log[k].env.id == e.id
    ensures var r := Run(Produce(s, SendAt(p, e, at)), steps).log[k]; r.env == e.(count := r.env.count)
  {
    var s1 := Produce(s, SendAt(p, e, at));
    ReachableStep(s, Producer(SendAt(p, e, at)));
    ReachableFresh(s1);
    AcceptedStays(s1, steps, e.id);
    ReachableRun(s1, steps);
    CarriedUnchanged(Run(s1, steps), k);
  }

  // ---------- Never early, by the clock on the wall ----------

  /** In no state of the run has the clock reached `at`. */
  ghost predicate Before(s: State, steps: seq<Step>, at: Time)
    requires CanRun(s, steps)
    decreases |steps|
  {
    s.clock < at && (steps != [] ==> Before(Do(s, steps[0]), steps[1..], at))
  }

  /** No flush under way goes by a clock reading of `at` or later. */
  predicate ReadsBefore(s: State, at: Time) {
    s.consumer.pc.Flushing? ==> s.consumer.pc.now < at
  }

  ghost predicate NoneSince(s: State, from: nat, at: Time) {
    && ReadsBefore(s, at) && from <= |s.log|
    && forall k :: from <= k < |s.log| && s.log[k].via.ByFlush? ==> s.log[k].via.now < at
  }

  lemma NoneSinceFlush(s: State, st: FlushStep, from: nat, at: Time)
    requires CanFlush(s, st) && NoneSince(s, from, at) && s.clock < at
    ensures NoneSince(FlushDo(s, st), from, at)
  {
    FlushFrame(s, st);
  }

  lemma NoneSinceCall(s: State, st: CallStep, from: nat, at: Time)
    requires CanCall(s, st) && NoneSince(s, from, at)
    ensures NoneSince(CallDo(s, st), from, at)
  {
    CallFrame(s, st);
  }

  lemma NoneSinceAwait(s: State, st: AwaitStep, from: nat, at: Time)
    requires CanAwait(s, st) && NoneSince(s, from, at)
    ensures NoneSince(AwaitDo(s, st), from, at)
  {
    if !Delivers(s, st) {
      AwaitSilentFrame(s, st);
    }
  }

  lemma NoneSinceOther(s: State, st: Step, from: nat, at: Time)
    requires Can(s, st) && !ConsumerStep(st) && NoneSince(s, from, at)
    ensures NoneSince(Do(s, st), from, at)
  {
    OthersKeepConsumer(s, st);
    match st
    case Producer(p) =>
    case Handle(i, h) => HandleFrame(s, i, h);
    case Nack(i, n) => NackAppends(s, i, n);
    case _ =>
  }

  lemma NackAppends(s: State, i: nat, st: NackStep)
    requires CanNack(s, i, st)
    ensures var s' := NackDo(s, i, st);
            s'.log == s.log || (|s'.log| == |s.log| + 1 && s.log <= s'.log && s'.log[|s.log|].via.ByNack?)
  {
    if st == NackCount {
      CountFrame(s, i);
    }
  }

  lemma {:induction false} NoneSinceRun(s: State, steps: seq<Step>, from: nat, at: Time)
    requires CanRun(s, steps) && Before(s, steps, at) && NoneSince(s, from, at)
    ensures NoneSince(Run(s, steps), from, at)
    decreases |steps|
  {
    if steps != [] {
      match steps[0] {
        case Call(c) => NoneSinceCall(s, c, from, at);
        case Flush(f) => NoneSinceFlush(s, f, from, at);
        case Await(a) => NoneSinceAwait(s, a, from, at);
        case _ => NoneSinceOther(s, steps[0], from, at);
      }
      NoneSinceRun(Do(s, steps[0]), steps[1..], from, at);
    }
  }

  /** A message handed to `send_at` is not in the channel, and was never delivered, before the clock has shown the
      time it was handed over for. */
  lemma NotBeforeItsTime(s: State, p: nat, e: Envelope, at: Time, steps: seq<Step>)
    requires Reachable(s) && CanProduce(s, SendAt(p, e, at))
    requires CanRun(Produce(s, SendAt(p, e, at)), steps) && Before(Produce(s, SendAt(p, e, at)), steps, at)
    ensures var s' := Run(Produce(s, SendAt(p, e, at)), steps);
            && (forall k :: 0 <= k < |s'.log| ==> s'.log[k].env.id != e.id)
            && (forall k :: 0 <= k < |s'.channel| ==> s'.channel[k].id != e.id)
            && (forall i :: 0 <= i < |s'.receipts| ==> s'.receipts[i].env.id != e.id)
  {
    var s1 := Produce(s, SendAt(p, e, at));
    ReachableStep(s, Producer(SendAt(p, e, at)));
    ReachableRun(s1, steps);
    ReachableFresh(s);
    NotYetThere(s, s1, e, at);
    NoneSinceRun(s1, steps, |s1.log|, at);
    LogOnlyGrows(s1, steps);
    ReachableFresh(s1);
    AcceptedStays(s1, steps, e.id);
    NotInTheLog(Run(s1, steps), |s1.log|, e.id, at);
  }

  lemma NotInTheLog(s: State, from: nat, id: Id, at: Time)
    requires Reachable(s) && NoneSince(s, from, at)
    requires id in s.accepted && s.accepted[id].at == Some(at)
    requires forall k :: 0 <= k < from ==> s.log[k].env.id != id
    ensures forall k :: 0 <= k < |s.log| ==> s.log[k].env.id != id
    ensures forall k :: 0 <= k < |s.channel| ==> s.channel[k].id != id
    ensures forall i :: 0 <= i < |s.receipts| ==> s.receipts[i].env.id != id
  {
    forall k | 0 <= k < |s.log| ensures s.log[k].env.id != id {
      if s.log[k].env.id == id {
        NeverEarly(s, k);
      }
    }
    ReachableConserved(s);
    assert forall i :: 0 <= i < |s.receipts| ==> s.receipts[i].env == s.log[i].env;
  }

  lemma NotYetThere(s: State, s1: State, e: Envelope, at: Time)
    requires Reachable(s) && Reachable(s1) && e.id !in s.accepted && s1.log == s.log && s1.lock == Free
    ensures forall k :: 0 <= k < |s1.log| ==> s1.log[k].env.id != e.id
    ensures !s1.consumer.pc.Flushing?
  {
    ReachableFresh(s);
    ReachableLocking(s1);
  }

  lemma {:induction false} LogOnlyGrows(s: State, steps: seq<Step>)
    requires CanRun(s, steps)
    ensures s.log <= Run(s, steps).log
    decreases |steps|
  {
    if steps != [] {
      if !steps[0].Producer? {
        LogGrows(s, steps[0]);
      }
      LogOnlyGrows(Do(s, steps[0]), steps[1..]);
    }
  }

  // ---------- Clones ----------

  lemma {:induction false} ProducerStays(s: State, p: nat, steps: seq<Step>)
    requires p in s.producers && CanRun(s, steps)
    requires forall k :: 0 <= k < |steps| ==> steps[k] != Producer(DropProducer(p))
    ensures p in Run(s, steps).producers
    decreases |steps|
  {
    if steps != [] {
      if !steps[0].Producer? {
        OthersFrame(s, steps[0]);
      }
      ProducerStays(Do(s, steps[0]), p, steps[1..]);
    }
  }

  /** As long as a clone of a producer is not dropped, no lost connection is reported, whatever happens to the
      original. */
  lemma CloneKeepsConnection(s: State, p: nat, q: nat, steps: seq<Step>)
    requires CanProduce(s, Clone(p, q)) && CanRun(Produce(s, Clone(p, q)), steps)
    requires forall k :: 0 <= k < |steps| ==> steps[k] != Producer(DropProducer(q))
    ensures !CanAwait(Run(Produce(s, Clone(p, q)), steps), WakeByLiveness)
  {
    ProducerStays(Produce(s, Clone(p, q)), q, steps);
  }
}
