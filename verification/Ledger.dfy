/** What every run of the broker keeps: one live copy of each message, attempts numbered 1, 2, 3, ... and
    a nack ledger that agrees with them. */
module Ledger {
  import opened Core
  import opened Schedule
  import opened Broker

  /** Entry `k` of the log is the one copy of its message that may still be delivered or resolved, or the
      one that was resolved for good. */
  predicate Live(b: State, k: nat) {
    k < |b.log| && (k < |b.fates| ==> b.fates[k] != Requeued)
  }

  /** Nacks counted so far for the message of a live entry. */
  function Spent(b: State, k: nat): int
    requires k < |b.log|
  {
    if k < |b.fates| && b.fates[k] in {DeadLettered, LimitDropped, ClosedDropped} then b.log[k].env.count
    else b.log[k].env.count - 1
  }

  ghost predicate Shape(b: State) {
    && |b.fates| <= |b.log|
    && b.nacks.Keys <= b.accepted.Keys
    && (forall id :: id in b.accepted ==> b.accepted[id].env.id == id && b.accepted[id].env.count == 1)
    && (forall id :: id in b.nacks ==> 1 <= b.nacks[id])
  }

  /** The log carries each accepted envelope unchanged but for its delivery count. */
  ghost predicate Faithful(b: State) {
    forall k :: 0 <= k < |b.log| ==>
      && b.log[k].env.id in b.accepted
      && b.log[k].env == b.accepted[b.log[k].env.id].env.(count := b.log[k].env.count)
  }

  ghost predicate Unique(b: State) {
    forall j, k :: 0 <= j < k < |b.log| && b.log[j].env.id == b.log[k].env.id ==> !Live(b, j)
  }

  ghost predicate NumberedAt(log: seq<Record>, dlq: Option<U32>, k: nat) {
    k < |log| && log[k].env.count == Occurrences(log[..k], log[k].env.id) + 1 <= MaxAttempts(dlq)
  }

  ghost predicate Numbered(log: seq<Record>, dlq: Option<U32>) {
    forall k: nat {:trigger NumberedAt(log, dlq, k)} :: k < |log| ==> NumberedAt(log, dlq, k)
  }

  ghost predicate AgreesAt(b: State, k: nat) {
    && Live(b, k)
    && Occurrences(b.log, b.log[k].env.id) == b.log[k].env.count
    && Tally(b.nacks, b.log[k].env.id) == Spent(b, k)
  }

  ghost predicate Agrees(b: State) {
    forall k: nat {:trigger AgreesAt(b, k)} :: Live(b, k) ==> AgreesAt(b, k)
  }

  /** The parts of the ledger that look at the log only through live entries and their numbers. */
  ghost predicate Tallied(b: State) {
    |b.fates| <= |b.log| && Unique(b) && Numbered(b.log, b.dlq) && Agrees(b)
  }

  ghost predicate Unseen(b: State, id: Id) {
    && id !in b.nacks
    && forall k :: 0 <= k < |b.log| ==> b.log[k].env.id != id
  }

  /** What is listed was accepted for the time it is listed under, and never enqueued or nacked. */
  ghost predicate Untried(b: State, list: seq<Entry>) {
    forall i :: 0 <= i < |list| ==>
      && list[i].env.id in b.accepted
      && b.accepted[list[i].env.id] == Ticket(list[i].env, Some(list[i].time))
      && Unseen(b, list[i].env.id)
  }

  ghost predicate Planned(b: State) {
    && Sorted(b.schedule)
    && Untried(b, b.schedule)
    && (forall i, j :: 0 <= i < j < |b.schedule| ==> b.schedule[i].env.id != b.schedule[j].env.id)
  }

  ghost predicate SourcedAt(b: State, k: nat) {
    && k < |b.log|
    && var e := b.log[k].env;
       match b.log[k].via
       case BySend(_) => e.count == 1 && e.id in b.accepted && b.accepted[e.id].at == None
       case ByFlush(now) =>
         && e.count == 1 && e.id in b.accepted
         && b.accepted[e.id].at.Some? && b.accepted[e.id].at.value <= now
       case ByNack(i) =>
         i < k && i < |b.fates| && b.fates[i] == Requeued && e == Redelivery(b.log[i].env) && e.count > 1
  }

  ghost predicate Sourced(b: State) {
    forall k: nat {:trigger SourcedAt(b, k)} :: k < |b.log| ==> SourcedAt(b, k)
  }

  ghost predicate Judged(b: State) {
    && (forall i :: 0 <= i < |b.fates| && i < |b.log| ==>
          && (b.fates[i] == DeadLettered ==> b.dlq.Some? && b.log[i].env.count == MaxAttempts(b.dlq))
          && (b.fates[i] == LimitDropped ==> b.dlq.None? && b.log[i].env.count == MaxAttempts(b.dlq))
          && (b.fates[i] in {Requeued, ClosedDropped} ==> b.log[i].env.count < MaxAttempts(b.dlq))
          && (b.fates[i] == ClosedDropped ==> b.closed))
    && (forall i :: 0 <= i < |b.deadLetters| ==> b.deadLetters[i].count == Inc(MaxAttempts(b.dlq)))
  }

  /** What was sent without a delivery time has entered the log. */
  ghost predicate Entered(b: State) {
    forall id :: id in b.accepted && b.accepted[id].at == None ==> Occurrences(b.log, id) >= 1
  }

  ghost predicate Inv(b: State) {
    && Shape(b) && Faithful(b) && Tallied(b) && Planned(b) && Untried(b, b.lost)
    && Sourced(b) && Judged(b) && Entered(b) && Conserved(b)
  }

  lemma InitInv(dlq: Option<U32>)
    ensures Inv(Init(dlq))
  {
  }

  // ---------- The log grows ----------

  /** An entry may join the log if no live entry there is about the same message. */
  ghost predicate Appendable(b: State, r: Record) {
    && (forall k :: 0 <= k < |b.log| && b.log[k].env.id == r.env.id ==> !Live(b, k))
    && r.env.count == Occurrences(b.log, r.env.id) + 1 <= MaxAttempts(b.dlq)
    && Tally(b.nacks, r.env.id) == r.env.count - 1
  }

  lemma NumberedAppend(log: seq<Record>, r: Record, dlq: Option<U32>)
    requires Numbered(log, dlq)
    requires r.env.count == Occurrences(log, r.env.id) + 1 <= MaxAttempts(dlq)
    ensures Numbered(log + [r], dlq)
  {
    var log' := log + [r];
    forall k: nat | k < |log'| ensures NumberedAt(log', dlq, k) {
      if k < |log| {
        assert NumberedAt(log, dlq, k);
        assert log'[..k] == log[..k];
      } else {
        assert log'[..k] == log;
      }
    }
  }

  lemma AgreesAppend(b: State, r: Record)
    requires |b.fates| <= |b.log| && Agrees(b) && Appendable(b, r)
    ensures Agrees(b.(log := b.log + [r]))
  {
    var b' := b.(log := b.log + [r]);
    forall k: nat | Live(b', k) ensures AgreesAt(b', k) {
      OccurrencesAppend(b.log, r, b'.log[k].env.id);
      if k < |b.log| {
        assert Live(b, k) && AgreesAt(b, k);
      }
    }
  }

  lemma UniqueAppend(b: State, r: Record)
    requires |b.fates| <= |b.log| && Unique(b) && Appendable(b, r)
    ensures Unique(b.(log := b.log + [r]))
  {
    var b' := b.(log := b.log + [r]);
    assert forall k: nat :: k < |b.log| ==> b'.log[k] == b.log[k] && Live(b', k) == Live(b, k);
  }

  lemma AppendKeeps(b: State, r: Record)
    requires |b.fates| <= |b.log| && Unique(b) && Numbered(b.log, b.dlq) && Agrees(b) && Appendable(b, r)
    ensures var b' := b.(log := b.log + [r]); Unique(b') && Numbered(b'.log, b.dlq) && Agrees(b')
  {
    NumberedAppend(b.log, r, b.dlq);
    AgreesAppend(b, r);
    UniqueAppend(b, r);
  }

  lemma UnseenAppendable(b: State, r: Record)
    requires Unseen(b, r.env.id) && r.env.count == 1
    ensures Appendable(b, r)
  {
    OccurrencesZero(b.log, r.env.id);
  }

  lemma TalliedSame(b: State, b': State)
    requires Tallied(b)
    requires b'.log == b.log && b'.dlq == b.dlq && b'.nacks == b.nacks && |b'.fates| <= |b'.log|
    requires forall k: nat :: k < |b.log| ==> Live(b', k) == Live(b, k) && Spent(b', k) == Spent(b, k)
    ensures Tallied(b')
  {
    forall k: nat | Live(b', k) ensures AgreesAt(b', k) {
      assert Live(b, k) && AgreesAt(b, k);
    }
    assert forall j: nat :: j < |b.log| ==> Live(b', j) == Live(b, j);
  }

  // ---------- One event, the tallies ----------

  lemma FreshUnseen(b: State, e: Envelope)
    requires Shape(b) && Faithful(b) && Fresh(b, e)
    ensures Unseen(b, e.id)
  {
  }

  lemma {:induction false} TalliedSend(b: State, e: Envelope, task: nat)
    requires Shape(b) && Faithful(b) && Tallied(b) && Enabled(b, Send(e, task))
    ensures Tallied(Apply(b, Send(e, task)))
  {
    var r := Record(e, BySend(task));
    FreshUnseen(b, e);
    UnseenAppendable(b, r);
    AppendKeeps(b, r);
    TalliedSame(b.(log := b.log + [r]), Apply(b, Send(e, task)));
  }

  lemma TalliedRelease(b: State, now: Time)
    requires Shape(b) && Planned(b) && Tallied(b) && Enabled(b, Release(now))
    ensures Tallied(Apply(b, Release(now)))
  {
    var r := Record(b.schedule[0].env, ByFlush(now));
    assert Planned(b) && Unseen(b, r.env.id) && r.env.count == 1;
    UnseenAppendable(b, r);
    AppendKeeps(b, r);
    TalliedSame(b.(log := b.log + [r]), Apply(b, Release(now)));
  }

  /** What one nack does, in terms of the attempt it concerns. */
  lemma NackOutcome(b: State, i: nat)
    requires Tallied(b) && Pending(b, i)
    ensures var e := b.log[i].env; var b' := NackAll(b, i);
            && 1 <= e.count <= MaxAttempts(b.dlq)
            && Tally(b.nacks, e.id) == e.count - 1 && Tally(b'.nacks, e.id) == e.count
            && (b'.fates[i] in {DeadLettered, LimitDropped} <==> e.count == MaxAttempts(b.dlq))
            && (b'.fates[i] == DeadLettered ==> b.dlq.Some?) && (b'.fates[i] == LimitDropped ==> b.dlq.None?)
            && (b'.fates[i] == Requeued <==> e.count < MaxAttempts(b.dlq) && !b.closed)
            && (b'.fates[i] == Requeued ==> b'.log == b.log + [Record(e.(count := e.count + 1), ByNack(i))])
  {
    assert Live(b, i) && AgreesAt(b, i);
    assert NumberedAt(b.log, b.dlq, i);
  }

  lemma TalliedNack(b: State, i: nat)
    requires Tallied(b) && Pending(b, i)
    ensures Tallied(NackAll(b, i))
  {
    var b' := NackAll(b, i);
    NackOutcome(b, i);
    var mid := b.(fates := b'.fates, nacks := b'.nacks);
    NackMarks(b, i);
    if b'.fates[i] == Requeued {
      AppendKeeps(mid, b'.log[|b.log|]);
      TalliedSame(mid.(log := b'.log), b');
    } else {
      TalliedSame(mid, b');
    }
  }

  lemma NackMarks(b: State, i: nat)
    requires Tallied(b) && Pending(b, i)
    ensures var b' := NackAll(b, i); var mid := b.(fates := b'.fates, nacks := b'.nacks);
            Tallied(mid) && (b'.fates[i] == Requeued ==> Appendable(mid, b'.log[|b.log|]))
  {
    NackOutcome(b, i);
    var b' := NackAll(b, i);
    var mid := b.(fates := b'.fates, nacks := b'.nacks);
    var id := b.log[i].env.id;
    assert Live(b, i) && AgreesAt(b, i);
    forall k: nat | k < |b.log| && k != i
      ensures Live(mid, k) == Live(b, k) && (Live(b, k) ==> b.log[k].env.id != id)
    {
      var first: nat := if k < i then k else i;
      assert b.log[k].env.id == id ==> !Live(b, first);
    }
    forall k: nat | Live(mid, k) ensures AgreesAt(mid, k) {
      if k != i {
        assert Live(b, k) && AgreesAt(b, k);
      }
    }
  }

  lemma TalliedStep(b: State, ev: Event)
    requires Shape(b) && Faithful(b) && Planned(b) && Tallied(b) && Enabled(b, ev)
    ensures Tallied(Apply(b, ev))
  {
    match ev
    case Send(e, task) => TalliedSend(b, e, task);
    case Release(now) => TalliedRelease(b, now);
    case Nack(i) => TalliedNack(b, i);
    case _ => TalliedSame(b, Apply(b, ev));
  }

  // ---------- One event, the rest ----------

  lemma ShapeStep(b: State, ev: Event)
    requires Shape(b) && Faithful(b) && Tallied(b) && Enabled(b, ev)
    ensures Shape(Apply(b, ev))
  {
    if ev.Nack? {
      NackOutcome(b, ev.receipt);
    }
  }

  lemma FaithfulStep(b: State, ev: Event)
    requires Shape(b) && Faithful(b) && Planned(b) && Enabled(b, ev)
    ensures Faithful(Apply(b, ev))
  {
  }

  ghost predicate DistinctIds(s: seq<Entry>) {
    forall i, j :: 0 <= i < j < |s| ==> s[i].env.id != s[j].env.id
  }

  lemma {:induction false} InsertDistinct(s: seq<Entry>, x: Entry)
    requires DistinctIds(s)
    requires forall i :: 0 <= i < |s| ==> s[i].env.id != x.env.id
    ensures DistinctIds(InsertByTime(s, x))
  {
    if s != [] && x.time >= s[0].time {
      InsertDistinct(s[1..], x);
      InsertMembers(s[1..], x);
    }
  }

  lemma PlannedSendAt(b: State, e: Envelope, t: Time)
    requires Shape(b) && Faithful(b) && Planned(b) && Enabled(b, SendAt(e, t))
    ensures Planned(Apply(b, SendAt(e, t)))
  {
    FreshUnseen(b, e);
    InsertSorted(b.schedule, Entry(t, e));
    InsertMembers(b.schedule, Entry(t, e));
    InsertDistinct(b.schedule, Entry(t, e));
  }

  /** The log and the nack counts grow only by message `id`, which is not on the list. */
  lemma UntriedBeside(b: State, b': State, list: seq<Entry>, id: Id)
    requires Untried(b, list)
    requires forall i :: 0 <= i < |list| ==> list[i].env.id != id
    requires forall x :: x in b.accepted ==> x in b'.accepted && b'.accepted[x] == b.accepted[x]
    requires b'.nacks.Keys <= b.nacks.Keys + {id} && |b.log| <= |b'.log|
    requires forall k :: 0 <= k < |b'.log| ==> (k < |b.log| && b'.log[k] == b.log[k]) || b'.log[k].env.id == id
    ensures Untried(b', list)
  {
  }

  lemma UntriedSend(b: State, e: Envelope, task: nat, list: seq<Entry>)
    requires Untried(b, list) && Enabled(b, Send(e, task))
    ensures Untried(Apply(b, Send(e, task)), list)
  {
    UntriedBeside(b, Apply(b, Send(e, task)), list, e.id);
  }

  lemma UntriedSendAt(b: State, e: Envelope, t: Time, list: seq<Entry>)
    requires Untried(b, list) && Enabled(b, SendAt(e, t))
    ensures Untried(Apply(b, SendAt(e, t)), list)
  {
    UntriedBeside(b, Apply(b, SendAt(e, t)), list, e.id);
  }

  lemma UntriedNack(b: State, i: nat, list: seq<Entry>)
    requires Untried(b, list) && Pending(b, i)
    ensures Untried(NackAll(b, i), list)
  {
    UntriedBeside(b, NackAll(b, i), list, b.log[i].env.id);
  }

  lemma PlannedRelease(b: State, now: Time)
    requires Planned(b) && Enabled(b, Release(now))
    ensures Planned(Apply(b, Release(now)))
  {
  }

  lemma PlannedStep(b: State, ev: Event)
    requires Shape(b) && Faithful(b) && Planned(b) && Enabled(b, ev)
    ensures Planned(Apply(b, ev))
  {
    match ev
    case SendAt(e, t) => PlannedSendAt(b, e, t);
    case Send(e, task) => UntriedSend(b, e, task, b.schedule);
    case Nack(i) => UntriedNack(b, i, b.schedule);
    case Release(now) => PlannedRelease(b, now);
    case _ =>
  }

  lemma {:induction false} EntriesOfIndex(s: seq<Entry>, id: Id)
    ensures EntriesOf(s, id) == 0 <==> forall i :: 0 <= i < |s| ==> s[i].env.id != id
  {
    if s != [] {
      EntriesOfIndex(s[1..], id);
      assert forall i :: 0 < i < |s| ==> s[i] == s[1..][i - 1];
    }
  }

  /** What was lost is not on the schedule as well. */
  lemma LostIsApart(b: State, id: Id)
    requires Conserved(b) && EntriesOf(b.schedule, id) > 0
    ensures forall i :: 0 <= i < |b.lost| ==> b.lost[i].env.id != id
  {
    assert Copies(b, id) <= 1;
    EntriesOfIndex(b.lost, id);
  }

  lemma LostRelease(b: State, now: Time)
    requires Untried(b, b.lost) && Conserved(b) && Enabled(b, Release(now))
    ensures Untried(Apply(b, Release(now)), b.lost)
  {
    LostIsApart(b, b.schedule[0].env.id);
    UntriedBeside(b, Apply(b, Release(now)), b.lost, b.schedule[0].env.id);
  }

  lemma LostStep(b: State, ev: Event)
    requires Untried(b, b.lost) && Planned(b) && Conserved(b) && Enabled(b, ev)
    ensures Untried(Apply(b, ev), Apply(b, ev).lost)
  {
    match ev
    case SendAt(e, t) => UntriedSendAt(b, e, t, b.lost);
    case Send(e, task) => UntriedSend(b, e, task, b.lost);
    case Nack(i) => UntriedNack(b, i, b.lost);
    case Release(now) => LostRelease(b, now);
    case _ =>
  }

  lemma SourcedOld(b: State, ev: Event, k: nat)
    requires SourcedAt(b, k) && Shape(b) && Enabled(b, ev)
    ensures SourcedAt(Apply(b, ev), k)
  {
  }

  lemma SourcedNew(b: State, ev: Event)
    requires Shape(b) && Planned(b) && Tallied(b) && Enabled(b, ev) && |Apply(b, ev).log| == |b.log| + 1
    ensures SourcedAt(Apply(b, ev), |b.log|)
  {
    if ev.Nack? {
      NackOutcome(b, ev.receipt);
    }
  }

  lemma SourcedStep(b: State, ev: Event)
    requires Sourced(b) && Shape(b) && Planned(b) && Tallied(b) && Enabled(b, ev)
    ensures Sourced(Apply(b, ev))
  {
    var b' := Apply(b, ev);
    forall k: nat | k < |b'.log| ensures SourcedAt(b', k) {
      if k < |b.log| {
        assert SourcedAt(b, k);
        SourcedOld(b, ev, k);
      } else {
        SourcedNew(b, ev);
      }
    }
  }

  lemma JudgedStep(b: State, ev: Event)
    requires Judged(b) && Tallied(b) && Enabled(b, ev)
    ensures Judged(Apply(b, ev))
  {
    if ev.Nack? {
      NackOutcome(b, ev.receipt);
    }
  }

  lemma EnteredStep(b: State, ev: Event)
    requires Entered(b) && Enabled(b, ev)
    ensures Entered(Apply(b, ev))
  {
    var b' := Apply(b, ev);
    forall id | id in b'.accepted && b'.accepted[id].at == None ensures Occurrences(b'.log, id) >= 1 {
      if b'.log != b.log {
        assert b'.log == b.log + [b'.log[|b.log|]];
        OccurrencesAppend(b.log, b'.log[|b.log|], id);
      }
    }
  }

  /** Every event keeps the ledger. */
  lemma StepKeeps(b: State, ev: Event)
    requires Inv(b) && Enabled(b, ev)
    ensures Inv(Apply(b, ev))
  {
    ShapeStep(b, ev);
    FaithfulStep(b, ev);
    TalliedStep(b, ev);
    PlannedStep(b, ev);
    LostStep(b, ev);
    SourcedStep(b, ev);
    JudgedStep(b, ev);
    EnteredStep(b, ev);
    ConservedStep(b, ev);
  }

  lemma {:induction false} RunKeeps(b: State, evs: seq<Event>)
    requires Inv(b) && CanRun(b, evs)
    ensures Inv(Run(b, evs))
    decreases |evs|
  {
    if evs != [] {
      StepKeeps(b, evs[0]);
      RunKeeps(Apply(b, evs[0]), evs[1..]);
    }
  }
}
