/** The broker as its users see it: an unbounded queue, a schedule and a nack ledger, changed by atomic
    events. There is no lock, no channel capacity and no half-done operation at this level. */
module Broker {
  import opened Core
  import opened Schedule

  /** What a producer handed over: the envelope, and the delivery time it asked for, if any. */
  datatype Ticket = Ticket(env: Envelope, at: Option<Time>)

  datatype Via =
    | BySend(task: nat)
    | ByFlush(now: Time)
    | ByNack(receipt: nat)

  /** One entry of the enqueue log. */
  datatype Record = Record(env: Envelope, via: Via)

  /** What became of a delivery. */
  datatype Fate = Unresolved | Acked | Abandoned | Requeued | DeadLettered | LimitDropped | ClosedDropped

  /** `fates[i]` belongs to the delivery of `log[i]`; what is behind them on the log is still queued. */
  datatype State = State(
    dlq: Option<U32>,
    accepted: map<Id, Ticket>,
    schedule: seq<Entry>,
    log: seq<Record>,
    fates: seq<Fate>,
    nacks: map<Id, U32>,
    lost: seq<Entry>,
    deadLetters: seq<Envelope>,
    closed: bool)

  datatype Event =
    | Send(env: Envelope, task: nat)
    | SendAt(env: Envelope, at: Time)
    | Release(now: Time)
    | Receive
    | Ack(receipt: nat)
    | Abandon(receipt: nat)
    | Nack(receipt: nat)
    | Lose(n: nat)
    | Close
    | Nothing

  function Init(dlq: Option<U32>): State {
    State(dlq, map[], [], [], [], map[], [], [], false)
  }

  predicate Pending(b: State, i: nat) {
    i < |b.fates| <= |b.log| && b.fates[i] == Unresolved
  }

  predicate Fresh(b: State, e: Envelope) {
    e.id !in b.accepted && e.count == 1
  }

  predicate Enabled(b: State, ev: Event) {
    match ev
    case Send(e, _) => !b.closed && Fresh(b, e)
    case SendAt(e, _) => Fresh(b, e)
    case Release(now) => !b.closed && b.schedule != [] && b.schedule[0].time <= now
    case Receive => !b.closed && |b.fates| < |b.log|
    case Ack(i) => Pending(b, i)
    case Abandon(i) => Pending(b, i)
    case Nack(i) => Pending(b, i)
    case Lose(n) => n <= |b.schedule|
    case Close => true
    case Nothing => true
  }

  function Apply(b: State, ev: Event): State
    requires Enabled(b, ev)
  {
    match ev
    case Send(e, task) =>
      b.(accepted := b.accepted[e.id := Ticket(e, None)], log := b.log + [Record(e, BySend(task))])
    case SendAt(e, t) =>
      b.(accepted := b.accepted[e.id := Ticket(e, Some(t))], schedule := InsertByTime(b.schedule, Entry(t, e)))
    case Release(now) =>
      b.(schedule := b.schedule[1..], log := b.log + [Record(b.schedule[0].env, ByFlush(now))])
    case Receive => b.(fates := b.fates + [Unresolved])
    case Ack(i) => b.(fates := b.fates[i := Acked])
    case Abandon(i) => b.(fates := b.fates[i := Abandoned])
    case Nack(i) => NackAll(b, i)
    case Lose(n) => b.(schedule := b.schedule[n..], lost := b.lost + b.schedule[..n])
    case Close => b.(closed := true)
    case Nothing => b
  }

  /** The whole of `nack`, without the waits. */
  function NackAll(b: State, i: nat): State
    requires Pending(b, i)
  {
    var e := b.log[i].env;
    var counted := b.(nacks := Counted(b.nacks, e.id));
    match Judge(b.dlq, Tally(counted.nacks, e.id), e)
    case Requeue(r) =>
      if b.closed then counted.(fates := b.fates[i := ClosedDropped])
      else counted.(fates := b.fates[i := Requeued], log := b.log + [Record(r, ByNack(i))])
    case DeadLetter(d) => counted.(fates := b.fates[i := DeadLettered], deadLetters := b.deadLetters + [d])
    case Discard => counted.(fates := b.fates[i := LimitDropped])
  }

  predicate CanRun(b: State, evs: seq<Event>)
    decreases |evs|
  {
    evs == [] || (Enabled(b, evs[0]) && CanRun(Apply(b, evs[0]), evs[1..]))
  }

  function Run(b: State, evs: seq<Event>): State
    requires CanRun(b, evs)
    decreases |evs|
  {
    if evs == [] then b else Run(Apply(b, evs[0]), evs[1..])
  }

  // ---------- Counting ----------

  /** How often `id` was enqueued. */
  function Occurrences(log: seq<Record>, id: Id): nat {
    if log == [] then 0
    else Occurrences(log[..|log| - 1], id) + if log[|log| - 1].env.id == id then 1 else 0
  }

  /** The delivery counts carried by the log entries of `id`, in log order. */
  function CountsOf(log: seq<Record>, id: Id): seq<U32> {
    if log == [] then []
    else
      var last := log[|log| - 1];
      CountsOf(log[..|log| - 1], id) + if last.env.id == id then [last.env.count] else []
  }

  lemma OccurrencesAppend(log: seq<Record>, r: Record, id: Id)
    ensures Occurrences(log + [r], id) == Occurrences(log, id) + if r.env.id == id then 1 else 0
  {
    assert (log + [r])[..|log|] == log;
  }

  lemma {:induction false} OccurrencesZero(log: seq<Record>, id: Id)
    ensures Occurrences(log, id) == 0 <==> forall k :: 0 <= k < |log| ==> log[k].env.id != id
  {
    if log != [] {
      var front := log[..|log| - 1];
      OccurrencesZero(front, id);
      assert forall k :: 0 <= k < |front| ==> log[k] == front[k];
    }
  }

  // ---------- Where a message is ----------

  /** How many entries of a list are about message `id`. */
  function EntriesOf(s: seq<Entry>, id: Id): nat {
    if s == [] then 0 else (if s[0].env.id == id then 1 else 0) + EntriesOf(s[1..], id)
  }

  /** How many log entries of `id` were not superseded by a requeue. */
  function Held(log: seq<Record>, fates: seq<Fate>, id: Id): nat {
    if log == [] then 0
    else
      var n := |log| - 1;
      Held(log[..n], fates, id)
      + if (n < |fates| && fates[n] == Requeued) || log[n].env.id != id then 0 else 1
  }

  function Copies(b: State, id: Id): nat {
    EntriesOf(b.schedule, id) + Held(b.log, b.fates, id) + EntriesOf(b.lost, id)
  }

  /** Every accepted message is in one place and one place only, and anything else is nowhere. */
  ghost predicate Conserved(b: State) {
    forall id :: Copies(b, id) == if id in b.accepted then 1 else 0
  }

  lemma {:induction false} EntriesOfConcat(a: seq<Entry>, c: seq<Entry>, id: Id)
    ensures EntriesOf(a + c, id) == EntriesOf(a, id) + EntriesOf(c, id)
  {
    if a == [] {
      assert a + c == c;
    } else {
      EntriesOfConcat(a[1..], c, id);
      assert (a + c)[1..] == a[1..] + c;
    }
  }

  lemma {:induction false} EntriesOfInsert(s: seq<Entry>, x: Entry, id: Id)
    ensures EntriesOf(InsertByTime(s, x), id) == EntriesOf(s, id) + if x.env.id == id then 1 else 0
  {
    if s == [] || x.time < s[0].time {
      assert ([x] + s)[1..] == s;
    } else {
      EntriesOfInsert(s[1..], x, id);
      assert ([s[0]] + InsertByTime(s[1..], x))[1..] == InsertByTime(s[1..], x);
    }
  }

  lemma HeldAppend(log: seq<Record>, fates: seq<Fate>, r: Record, id: Id)
    requires |fates| <= |log|
    ensures Held(log + [r], fates, id) == Held(log, fates, id) + if r.env.id == id then 1 else 0
  {
    assert (log + [r])[..|log|] == log;
  }

  lemma {:induction false} HeldDelivered(log: seq<Record>, fates: seq<Fate>, id: Id)
    ensures Held(log, fates + [Unresolved], id) == Held(log, fates, id)
  {
    if log != [] {
      HeldDelivered(log[..|log| - 1], fates, id);
    }
  }

  lemma {:induction false} HeldResolved(log: seq<Record>, fates: seq<Fate>, i: nat, f: Fate, id: Id)
    requires i < |fates| && fates[i] != Requeued
    ensures Held(log, fates, id) == Held(log, fates[i := f], id)
                                    + if f == Requeued && i < |log| && log[i].env.id == id then 1 else 0
  {
    if log != [] {
      HeldResolved(log[..|log| - 1], fates, i, f, id);
    }
  }

  /** No event creates, duplicates or destroys a message. */
  lemma ConservedStep(b: State, ev: Event)
    requires Conserved(b) && |b.fates| <= |b.log| && Enabled(b, ev)
    ensures Conserved(Apply(b, ev))
  {
    forall id ensures Copies(Apply(b, ev), id) == if id in Apply(b, ev).accepted then 1 else 0 {
      CopiesStep(b, ev, id);
    }
  }

  lemma CopiesStep(b: State, ev: Event, id: Id)
    requires |b.fates| <= |b.log| && Enabled(b, ev)
    requires Copies(b, id) == if id in b.accepted then 1 else 0
    ensures Copies(Apply(b, ev), id) == if id in Apply(b, ev).accepted then 1 else 0
  {
    match ev
    case Send(e, task) => HeldAppend(b.log, b.fates, Record(e, BySend(task)), id);
    case SendAt(e, t) => EntriesOfInsert(b.schedule, Entry(t, e), id);
    case Release(now) => HeldAppend(b.log, b.fates, Record(b.schedule[0].env, ByFlush(now)), id);
    case Receive => HeldDelivered(b.log, b.fates, id);
    case Ack(i) => HeldResolved(b.log, b.fates, i, Acked, id);
    case Abandon(i) => HeldResolved(b.log, b.fates, i, Abandoned, id);
    case Nack(i) => CopiesNack(b, i, id);
    case Lose(n) => CopiesLose(b, n, id);
    case Close =>
    case Nothing =>
  }

  lemma CopiesLose(b: State, n: nat, id: Id)
    requires n <= |b.schedule|
    ensures Copies(Apply(b, Lose(n)), id) == Copies(b, id)
  {
    EntriesOfConcat(b.lost, b.schedule[..n], id);
    EntriesOfConcat(b.schedule[..n], b.schedule[n..], id);
    assert b.schedule == b.schedule[..n] + b.schedule[n..];
  }

  lemma CopiesNack(b: State, i: nat, id: Id)
    requires Pending(b, i)
    ensures Copies(NackAll(b, i), id) == Copies(b, id)
  {
    var b' := NackAll(b, i);
    HeldResolved(b.log, b.fates, i, b'.fates[i], id);
    if b'.fates[i] == Requeued {
      HeldAppend(b.log, b'.fates, b'.log[|b.log|], id);
    }
  }
}
