/** What it means that `receive` reports a lost connection. The select looks at the channel before it looks at the
    producers, and in between the last producer can still send and leave. */
module ConnectionLoss {
  import opened Core
  import opened Schedule
  import B = Broker
  import L = Ledger
  import opened Machine
  import opened Refinement
  import opened Safety

  // ---------- Nobody left to send ----------

  /** A task that still has something to send holds on to its producer. */
  ghost predicate Owned(s: State) {
    forall t :: 0 <= t < |s.tasks| && Running(s.tasks[t]) ==> s.tasks[t].owner in s.producers
  }

  lemma OwnedProduced(s: State, st: ProducerStep)
    requires Owned(s) && CanProduce(s, st)
    ensures Owned(Produce(s, st))
  {
    match st
    case PushSend(t) => OwnedMove(s, Produce(s, st), t);
    case FailSend(t) => OwnedMove(s, Produce(s, st), t);
    case _ =>
  }

  lemma OwnedMove(s: State, s': State, t: nat)
    requires Owned(s) && s'.producers == s.producers && t < |s.tasks| && Running(s.tasks[t])
    requires |s'.tasks| == |s.tasks| && s'.tasks == s.tasks[t := s'.tasks[t]] && s'.tasks[t].owner == s.tasks[t].owner
    ensures Owned(s')
  {
  }

  lemma OwnedStep(s: State, st: Step)
    requires Owned(s) && Can(s, st)
    ensures Owned(Do(s, st))
  {
    if st.Producer? {
      OwnedProduced(s, st.p);
    } else {
      OthersFrame(s, st);
    }
  }

  lemma {:induction false} OwnedRun(s: State, steps: seq<Step>)
    requires Owned(s) && CanRun(s, steps)
    ensures Owned(Run(s, steps))
    decreases |steps|
  {
    if steps != [] {
      OwnedStep(s, steps[0]);
      OwnedRun(Do(s, steps[0]), steps[1..]);
    }
  }

  // ---------- Since the look at the channel ----------

  /** Nothing was received since the select found the channel empty. */
  predicate LookedAt(s: State) {
    s.consumer.pc.PastChannel? ==> s.consumer.pc.seen == |s.receipts|
  }

  lemma LookedAtAwait(s: State, st: AwaitStep)
    requires LookedAt(s) && CanAwait(s, st)
    requires st == FindEmpty ==> |s.log| == |s.receipts|
    ensures LookedAt(AwaitDo(s, st))
  {
    if !Delivers(s, st) {
      AwaitSilentFrame(s, st);
    }
  }

  lemma LookedAtCall(s: State, st: CallStep)
    requires LookedAt(s) && CanCall(s, st)
    ensures LookedAt(CallDo(s, st))
  {
    CallFrame(s, st);
  }

  lemma LookedAtStep(s: State, st: Step)
    requires LookedAt(s) && Can(s, st)
    requires st == Await(FindEmpty) ==> |s.log| == |s.receipts|
    ensures LookedAt(Do(s, st))
  {
    match st
    case Call(c) => LookedAtCall(s, c);
    case Flush(f) => FlushFrame(s, f);
    case Await(a) => LookedAtAwait(s, a);
    case _ => OthersKeepConsumer(s, st);
  }

  lemma ReachableFifo(s: State)
    requires Reachable(s)
    ensures Fifo(s) && (s.consumer.pc != Idle ==> !s.closed)
  {
    ReachableInv(s);
  }

  lemma {:induction false} LookedAtRun(s: State, steps: seq<Step>)
    requires Reachable(s) && LookedAt(s) && CanRun(s, steps)
    ensures LookedAt(Run(s, steps))
    decreases |steps|
  {
    if steps != [] {
      ReachableFifo(s);
      LookedAtStep(s, steps[0]);
      ReachableStep(s, steps[0]);
      LookedAtRun(Do(s, steps[0]), steps[1..]);
    }
  }

  lemma ReachableLookedAt(s: State)
    requires Reachable(s)
    ensures LookedAt(s) && Owned(s)
  {
    var capacity: nat, dlq: Option<U32>, clock: Time, steps: seq<Step> :| Reaches(capacity, dlq, clock, steps, s);
    assert Reaches(capacity, dlq, clock, [], Init(capacity, dlq, clock));
    LookedAtRun(Init(capacity, dlq, clock), steps);
    OwnedRun(Init(capacity, dlq, clock), steps);
  }

  predicate EntryBefore(log: seq<B.Record>, n: nat, id: Id) {
    exists k :: 0 <= k < n && k < |log| && log[k].env.id == id
  }

  /** Message `id` entered the log for the first time at entry `n` or later: with a delivery count of 1. */
  predicate FirstSince(log: seq<B.Record>, n: nat, id: Id) {
    exists k :: n <= k < |log| && log[k].env.id == id && log[k].env.count == 1
  }

  lemma {:induction false} FirstEntryOf(log: seq<B.Record>, id: Id) returns (k: nat)
    requires B.Occurrences(log, id) > 0
    ensures k < |log| && log[k].env.id == id && B.Occurrences(log[..k], id) == 0
  {
    var front := log[..|log| - 1];
    if B.Occurrences(front, id) > 0 {
      k := FirstEntryOf(front, id);
      assert front[..k] == log[..k];
    } else {
      k := |log| - 1;
    }
  }

  /** Attempts being numbered from 1, an entry with count 1 is the first of its message. */
  lemma BeforeExactly(log: seq<B.Record>, dlq: Option<U32>, n: nat, id: Id)
    requires L.Numbered(log, dlq) && n <= |log|
    ensures EntryBefore(log, n, id) <==> B.Occurrences(log, id) > 0 && !FirstSince(log, n, id)
  {
    B.OccurrencesZero(log, id);
    if EntryBefore(log, n, id) {
      forall k | n <= k < |log| && log[k].env.id == id ensures log[k].env.count > 1 {
        assert L.NumberedAt(log, dlq, k);
        var j :| 0 <= j < n && log[j].env.id == id;
        assert log[..k][j].env.id == id;
        B.OccurrencesZero(log[..k], id);
      }
    } else if B.Occurrences(log, id) > 0 {
      var k := FirstEntryOf(log, id);
      assert L.NumberedAt(log, dlq, k);
    }
  }

  // ---------- What is left behind ----------

  predicate WasReceived(s: State, id: Id) {
    exists i :: 0 <= i < |s.receipts| && s.receipts[i].env.id == id
  }

  lemma {:induction false} HeldAtMost(log: seq<B.Record>, fates: seq<B.Fate>, id: Id)
    ensures B.Held(log, fates, id) <= B.Occurrences(log, id)
  {
    if log != [] {
      HeldAtMost(log[..|log| - 1], fates, id);
    }
  }

  /** What was accepted has been enqueued if and only if it is neither still to come nor lost. */
  lemma EnqueuedExactly(b: B.State, id: Id)
    requires L.Planned(b) && L.Untried(b, b.lost) && B.Conserved(b) && id in b.accepted
    ensures B.Occurrences(b.log, id) > 0 <==> B.EntriesOf(b.schedule, id) == 0 && B.EntriesOf(b.lost, id) == 0
  {
    assert B.Copies(b, id) == 1;
    HeldAtMost(b.log, b.fates, id);
    B.OccurrencesZero(b.log, id);
    L.EntriesOfIndex(b.schedule, id);
    L.EntriesOfIndex(b.lost, id);
  }

  lemma ReachableUntried(s: State)
    requires Reachable(s)
    ensures L.Planned(Abs(s)) && L.Untried(Abs(s), s.lost) && B.Conserved(Abs(s)) && L.Numbered(s.log, s.dlq)
  {
    ReachableInv(s);
  }

  /** A lost connection leaves behind, of the messages accepted, exactly those that are still on the schedule,
      those lost with a cancelled flush, and those enqueued since the select found the channel empty. */
  lemma LeftBehindExactly(s: State, id: Id)
    requires Reachable(s) && CanAwait(s, WakeByLiveness) && id in s.accepted
    ensures WasReceived(s, id) <==>
            && B.EntriesOf(Flatten(s.scheduled), id) == 0
            && B.EntriesOf(s.lost, id) == 0
            && !FirstSince(s.log, s.consumer.pc.seen, id)
  {
    ReachableUntried(s);
    ReachableFifo(s);
    ReachableLookedAt(s);
    EnqueuedExactly(Abs(s), id);
    BeforeExactly(s.log, s.dlq, |s.receipts|, id);
    assert [] + Flatten(s.scheduled) == Flatten(s.scheduled);
    ReceivedIsBefore(s, id);
  }

  lemma ReceivedIsBefore(s: State, id: Id)
    requires Fifo(s)
    ensures WasReceived(s, id) <==> EntryBefore(s.log, |s.receipts|, id)
  {
    if k :| 0 <= k < |s.receipts| && s.log[k].env.id == id {
      assert s.receipts[k].env == s.log[k].env;
    }
  }

  /** Nobody has sent anything since the select found the channel empty. */
  predicate NothingSince(s: State)
    requires s.consumer.pc.PastChannel?
  {
    forall k :: s.consumer.pc.seen <= k < |s.log| ==> s.log[k].env.count != 1
  }

  /** A lost connection is reported with everything received if and only if nothing is scheduled any more, nothing
      was lost on the way, and nothing was sent since the select found the channel empty. */
  lemma NothingLeftBehind(s: State)
    requires Reachable(s) && CanAwait(s, WakeByLiveness)
    ensures (forall id :: id in s.accepted ==> WasReceived(s, id)) <==>
            Flatten(s.scheduled) == [] && s.lost == [] && NothingSince(s)
  {
    var schedule, seen := Flatten(s.scheduled), s.consumer.pc.seen;
    forall id | id in s.accepted
      ensures WasReceived(s, id) <==>
              B.EntriesOf(schedule, id) == 0 && B.EntriesOf(s.lost, id) == 0 && !FirstSince(s.log, seen, id)
    {
      LeftBehindExactly(s, id);
    }
    ListedAreAccepted(s);
    if schedule != [] {
      assert B.EntriesOf(schedule, schedule[0].env.id) > 0;
    } else if s.lost != [] {
      assert B.EntriesOf(s.lost, s.lost[0].env.id) > 0;
    } else if k :| seen <= k < |s.log| && s.log[k].env.count == 1 {
      assert FirstSince(s.log, seen, s.log[k].env.id);
    }
  }

  lemma ListedAreAccepted(s: State)
    requires Reachable(s) && !s.consumer.pc.Flushing?
    ensures Flatten(s.scheduled) != [] ==> Flatten(s.scheduled)[0].env.id in s.accepted
    ensures s.lost != [] ==> s.lost[0].env.id in s.accepted
    ensures forall k :: 0 <= k < |s.log| ==> s.log[k].env.id in s.accepted
  {
    ReachableInv(s);
    assert [] + Flatten(s.scheduled) == Flatten(s.scheduled);
  }

  lemma SentAreElsewhere(s: State, id: Id)
    requires Reachable(s) && !s.consumer.pc.Flushing? && id in s.accepted && s.accepted[id].at == None
    ensures B.EntriesOf(Flatten(s.scheduled), id) == 0 && B.EntriesOf(s.lost, id) == 0
  {
    ReachableUntried(s);
    assert [] + Flatten(s.scheduled) == Flatten(s.scheduled);
    L.EntriesOfIndex(Flatten(s.scheduled), id);
    L.EntriesOfIndex(s.lost, id);
  }

  /** When `receive` reports a lost connection, nothing is being sent any more; what is in the channel was pushed
      since the select found it empty; and of the messages sent without a delivery time exactly those have not
      been received that were first enqueued since then. */
  lemma ConnectionLostComesLast(s: State)
    requires Reachable(s) && CanAwait(s, WakeByLiveness)
    ensures s.producers == {} && forall t :: 0 <= t < |s.tasks| ==> !Running(s.tasks[t])
    ensures |s.receipts| == s.consumer.pc.seen <= |s.log|
    ensures s.channel == Enqueued(s.log[s.consumer.pc.seen..])
    ensures forall id :: id in s.accepted && s.accepted[id].at == None ==>
                           (WasReceived(s, id) <==> !FirstSince(s.log, s.consumer.pc.seen, id))
  {
    ReachableLookedAt(s);
    ReachableFifo(s);
    forall id | id in s.accepted && s.accepted[id].at == None
      ensures WasReceived(s, id) <==> !FirstSince(s.log, s.consumer.pc.seen, id)
    {
      SentAreElsewhere(s, id);
      LeftBehindExactly(s, id);
    }
  }
}
