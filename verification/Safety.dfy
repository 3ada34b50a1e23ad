/** Safety over every run of the machine, under every interleaving. */
module Safety {
  import opened Core
  import opened Schedule
  import B = Broker
  import opened Machine
  import opened R = Refinement

  /** Every run of a freshly built pair is a run of a fresh atomic broker that ends with the same log, the
      same received sequence and the same fates. */
  lemma EveryRunRefines(capacity: nat, dlq: Option<U32>, clock: Time, steps: seq<Step>)
    requires capacity >= 1 && CanRun(Init(capacity, dlq, clock), steps)
    ensures var s := Init(capacity, dlq, clock);
            && B.CanRun(B.Init(dlq), Events(s, steps))
            && B.Run(B.Init(dlq), Events(s, steps)) == Abs(Run(s, steps))
            && Inv(Run(s, steps))
  {
    R.InitInv(capacity, dlq, clock);
    RunRefines(Init(capacity, dlq, clock), steps);
  }

  lemma ReachableInv(s: State)
    requires Reachable(s)
    ensures Inv(s)
  {
    var capacity: nat, dlq: Option<U32>, clock: Time, steps: seq<Step> :| Reaches(capacity, dlq, clock, steps, s);
    EveryRunRefines(capacity, dlq, clock, steps);
  }

  lemma ReachableLocking(s: State)
    requires Reachable(s)
    ensures Locking(s)
  {
    ReachableInv(s);
  }

  // ---------- FIFO ----------

  function Received(s: State): seq<Envelope> {
    seq(|s.receipts|, i requires 0 <= i < |s.receipts| => s.receipts[i].env)
  }

  function Enqueued(log: seq<B.Record>): seq<Envelope> {
    seq(|log|, i requires 0 <= i < |log| => log[i].env)
  }

  /** The FIFO law: what was enqueued is what was received, followed by what is queued. */
  lemma FifoLaw(s: State)
    requires Reachable(s) && !s.closed
    ensures Enqueued(s.log) == Received(s) + s.channel
  {
    ReachableConserved(s);
    FifoEnqueued(s);
  }

  lemma FifoEnqueued(s: State)
    requires Fifo(s) && !s.closed
    ensures Enqueued(s.log) == Received(s) + s.channel
  {
  }

  // ---------- Conservation ----------

  datatype Place =
    | OnSchedule
    | InFlushBuffer
    | InChannel
    | Outstanding
    | BeingNacked
    | WasAcked
    | WasAbandoned
    | WasDeadLettered
    | DroppedAtLimit
    | DroppedOnRequeue
    | DiscardedUnread
    | LostInFlush

  /** Where a delivery leaves its message; a requeued message lives on under a later entry of the log. */
  function PlaceOf(phase: Phase): Option<Place> {
    match phase
    case Held => Some(Outstanding)
    case AwaitLock => Some(BeingNacked)
    case Counting => Some(BeingNacked)
    case Requeueing(_) => Some(BeingNacked)
    case Settled(fate) =>
      match fate
      case Unresolved => Some(Outstanding)
      case Acked => Some(WasAcked)
      case Abandoned => Some(WasAbandoned)
      case Requeued => None
      case DeadLettered => Some(WasDeadLettered)
      case LimitDropped => Some(DroppedAtLimit)
      case ClosedDropped => Some(DroppedOnRequeue)
  }

  function ReceiptsOf(rs: seq<Receipt>, id: Id, p: Place): nat {
    if rs == [] then 0
    else
      var last := rs[|rs| - 1];
      ReceiptsOf(rs[..|rs| - 1], id, p) + if last.env.id == id && PlaceOf(last.phase) == Some(p) then 1 else 0
  }

  /** How many copies of message `id` are at `p`. */
  function Copies(s: State, id: Id, p: Place): nat {
    match p
    case OnSchedule => B.EntriesOf(Flatten(s.scheduled), id)
    case InFlushBuffer => B.EntriesOf(FlushBuffer(s), id)
    case InChannel => Queued(s.channel, id)
    case DiscardedUnread => if s.closed then B.Occurrences(Unread(s), id) else 0
    case LostInFlush => B.EntriesOf(s.lost, id)
    case _ => ReceiptsOf(s.receipts, id, p)
  }

  /** How often message `id` is in the channel. */
  function Queued(channel: seq<Envelope>, id: Id): nat {
    if channel == [] then 0
    else Queued(channel[..|channel| - 1], id) + if channel[|channel| - 1].id == id then 1 else 0
  }

  /** The entries of the log that were not delivered. */
  function Unread(s: State): seq<B.Record> {
    if |s.receipts| <= |s.log| then s.log[|s.receipts|..] else []
  }

  function Settlements(rs: seq<Receipt>, id: Id): nat {
    ReceiptsOf(rs, id, Outstanding) + ReceiptsOf(rs, id, BeingNacked) + ReceiptsOf(rs, id, WasAcked)
    + ReceiptsOf(rs, id, WasAbandoned) + ReceiptsOf(rs, id, WasDeadLettered) + ReceiptsOf(rs, id, DroppedAtLimit)
    + ReceiptsOf(rs, id, DroppedOnRequeue)
  }

  lemma {:induction false} HeldIsSettled(rs: seq<Receipt>, log: seq<B.Record>, fates: seq<B.Fate>, id: Id)
    requires |rs| == |log| && |rs| <= |fates|
    requires forall i :: 0 <= i < |rs| ==> rs[i].env == log[i].env && fates[i] == FateOf(rs[i].phase)
    ensures B.Held(log, fates, id) == Settlements(rs, id)
  {
    if rs != [] {
      HeldIsSettled(rs[..|rs| - 1], log[..|log| - 1], fates, id);
    }
  }

  lemma {:induction false} HeldUnread(log: seq<B.Record>, fates: seq<B.Fate>, n: nat, id: Id)
    requires |fates| <= n <= |log|
    ensures B.Held(log, fates, id) == B.Held(log[..n], fates, id) + B.Occurrences(log[n..], id)
    decreases |log|
  {
    if n < |log| {
      var front := log[..|log| - 1];
      HeldUnread(front, fates, n, id);
      assert front[..n] == log[..n];
      assert log[n..][..|log[n..]| - 1] == front[n..];
    } else {
      assert log[..n] == log;
    }
  }

  lemma {:induction false} QueuedIsUnread(channel: seq<Envelope>, log: seq<B.Record>, id: Id)
    requires |channel| == |log| && forall k :: 0 <= k < |channel| ==> channel[k] == log[k].env
    ensures Queued(channel, id) == B.Occurrences(log, id)
  {
    if channel != [] {
      QueuedIsUnread(channel[..|channel| - 1], log[..|log| - 1], id);
    }
  }

  /** Conservation: an accepted message is in exactly one place, anything else is nowhere. */
  lemma Conservation(s: State, id: Id)
    requires Reachable(s)
    ensures Copies(s, id, OnSchedule) + Copies(s, id, InFlushBuffer) + Copies(s, id, InChannel)
            + Copies(s, id, Outstanding) + Copies(s, id, BeingNacked) + Copies(s, id, WasAcked)
            + Copies(s, id, WasAbandoned) + Copies(s, id, WasDeadLettered) + Copies(s, id, DroppedAtLimit)
            + Copies(s, id, DroppedOnRequeue) + Copies(s, id, DiscardedUnread) + Copies(s, id, LostInFlush)
            == if id in s.accepted then 1 else 0
  {
    ReachableConserved(s);
    PlacesAddUp(s, id);
    UnreadIsQueued(s, id);
    B.EntriesOfConcat(FlushBuffer(s), Flatten(s.scheduled), id);
  }

  lemma ReachableConserved(s: State)
    requires Reachable(s)
    ensures Fifo(s) && B.Conserved(Abs(s))
  {
    ReachableInv(s);
  }

  lemma PlacesAddUp(s: State, id: Id)
    requires Fifo(s) && B.Conserved(Abs(s))
    ensures B.EntriesOf(FlushBuffer(s) + Flatten(s.scheduled), id) + B.Occurrences(Unread(s), id)
            + Settlements(s.receipts, id) + B.EntriesOf(s.lost, id)
            == if id in s.accepted then 1 else 0
  {
    var a, n := Abs(s), |s.receipts|;
    assert B.Copies(a, id) == if id in a.accepted then 1 else 0;
    HeldUnread(s.log, a.fates, n, id);
    HeldIsSettled(s.receipts, s.log[..n], a.fates, id);
  }

  lemma UnreadIsQueued(s: State, id: Id)
    requires Fifo(s)
    ensures B.Occurrences(Unread(s), id) == Copies(s, id, InChannel) + Copies(s, id, DiscardedUnread)
  {
    if !s.closed {
      QueuedIsUnread(s.channel, Unread(s), id);
    }
  }

  /** The same, read as a function from accepted messages to places. */
  lemma OnePlace(s: State, id: Id)
    requires Reachable(s) && id in s.accepted
    ensures exists p: Place :: Copies(s, id, p) == 1 && forall q: Place :: q != p ==> Copies(s, id, q) == 0
  {
    Conservation(s, id);
    var p := if Copies(s, id, OnSchedule) == 1 then OnSchedule
    else if Copies(s, id, InFlushBuffer) == 1 then InFlushBuffer
    else if Copies(s, id, InChannel) == 1 then InChannel
    else if Copies(s, id, Outstanding) == 1 then Outstanding
    else if Copies(s, id, BeingNacked) == 1 then BeingNacked
    else if Copies(s, id, WasAcked) == 1 then WasAcked
    else if Copies(s, id, WasAbandoned) == 1 then WasAbandoned
    else if Copies(s, id, WasDeadLettered) == 1 then WasDeadLettered
    else if Copies(s, id, DroppedAtLimit) == 1 then DroppedAtLimit
    else if Copies(s, id, DroppedOnRequeue) == 1 then DroppedOnRequeue
    else if Copies(s, id, DiscardedUnread) == 1 then DiscardedUnread
    else LostInFlush;
    forall q: Place | q != p ensures Copies(s, id, q) == 0 {
      match q {
        case OnSchedule => case InFlushBuffer => case InChannel => case Outstanding => case BeingNacked =>
        case WasAcked => case WasAbandoned => case WasDeadLettered => case DroppedAtLimit =>
        case DroppedOnRequeue => case DiscardedUnread => case LostInFlush =>
      }
    }
  }
}
