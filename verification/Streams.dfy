/** The streams every consumer inherits: `receive_graceful` again and again. */
module Streams {
  import opened Core
  import opened Worlds
  import opened Memory
  import opened Endpoints
  import opened Consuming
  import M = Machine
  import Sa = Safety

  // ---------- Answers ----------

  /** What `n` polls of a stream yield if `receive_graceful` answers with `a`: items until the first error,
      which is yielded too, or the first end, which is not. */
  function Yields(a: seq<Answer>, n: nat): seq<Answer> {
    if n == 0 || a == [] then []
    else match a[0]
      case Item(_) => [a[0]] + Yields(a[1..], n - 1)
      case Error(_) => [a[0]]
      case End => []
      case StillPending => []
  }

  /** How many answers that takes. */
  function Used(a: seq<Answer>, n: nat): nat {
    if n == 0 || a == [] then 0
    else if a[0].Item? then 1 + Used(a[1..], n - 1) else 1
  }

  predicate AllItems(a: seq<Answer>) {
    forall k :: 0 <= k < |a| ==> a[k].Item?
  }

  lemma {:induction false} UsedBounds(a: seq<Answer>, n: nat)
    ensures Used(a, n) <= |a| && Used(a, n) <= n
  {
    if n > 0 && a != [] && a[0].Item? {
      UsedBounds(a[1..], n - 1);
    }
  }

  /** What was yielded shows, or the answer behind it, that the stream is over. */
  predicate StreamOver(a: seq<Answer>, y: seq<Answer>) {
    || (y != [] && y[|y| - 1].Error?)
    || (|y| < |a| && (a[|y|].End? || a[|y|].StillPending?))
  }

  /** A stream yields the items, then at most one error, then nothing; and nothing after an end. */
  lemma {:induction false} ItemsThenOneError(a: seq<Answer>, n: nat)
    ensures var y := Yields(a, n);
            && |y| <= n && y <= a
            && (forall k :: 0 <= k < |y| - 1 ==> y[k].Item?)
            && (forall k :: 0 <= k < |y| ==> y[k].Item? || y[k].Error?)
            && (|y| < n && |y| < |a| ==> StreamOver(a, y))
            && (StreamOver(a, y) ==> forall m: nat :: m >= |y| ==> Yields(a, m) == y)
  {
    if n > 0 && a != [] && a[0].Item? {
      ItemsThenOneError(a[1..], n - 1);
      var rest := Yields(a[1..], n - 1);
      var y := [a[0]] + rest;
      assert Yields(a, n) == y;
      assert StreamOver(a, y) ==> StreamOver(a[1..], rest);
      if StreamOver(a[1..], rest) {
        forall m: nat | m >= |y| ensures Yields(a, m) == y {
          assert Yields(a[1..], m - 1) == rest;
        }
      }
    }
  }

  /** `n` polls that found `a` to answer them and no more. */
  predicate Answered(a: seq<Answer>, n: nat) {
    |a| == Used(a, n) && (|a| == n || !AllItems(a))
  }

  /** Answers that come later do not matter to it. */
  lemma {:induction false} AnsweredBefore(a: seq<Answer>, b: seq<Answer>, n: nat)
    requires Answered(a, n)
    ensures Used(a + b, n) == |a| && Yields(a + b, n) == Yields(a, n)
  {
    if n > 0 {
      assert a != [];
      assert (a + b)[0] == a[0] && (a + b)[1..] == a[1..] + b;
      if a[0].Item? {
        AnsweredBefore(a[1..], b, n - 1);
      }
    }
  }

  lemma {:induction false} YieldsOfItems(a: seq<Answer>, b: seq<Answer>, n: nat)
    requires AllItems(a) && |a| <= n
    ensures Yields(a + b, n) == a + Yields(b, n - |a|)
  {
    if a == [] {
      assert a + b == b;
    } else {
      YieldsOfItems(a[1..], b, n - 1);
      var rest := Yields(b, n - |a|);
      assert (a + b)[0] == a[0] && (a + b)[1..] == a[1..] + b;
      assert Yields(a + b, n) == [a[0]] + (a[1..] + rest);
      assert [a[0]] + (a[1..] + rest) == a + rest;
    }
  }

  /** Taking `k` elements from a borrowed stream, dropping it and taking `m` from a new one gives what one
      stream would have given, if and only if the first stream had not ended, or the second has nothing. */
  lemma {:induction false} StreamResumes(a: seq<Answer>, k: nat, m: nat)
    requires Used(a, k) <= |a|
    ensures Yields(a, k) + Yields(a[Used(a, k)..], m) == Yields(a, k + m)
            <==> AllItems(a[..Used(a, k)]) || Yields(a[Used(a, k)..], m) == []
  {
    if k == 0 || a == [] {
      assert a[0..] == a;
      assert Yields(a, 0) + Yields(a, m) == Yields(a, m);
    } else if a[0].Item? {
      var rest := a[1..];
      UsedBounds(rest, k - 1);
      StreamResumes(rest, k - 1, m);
      assert a[Used(a, k)..] == rest[Used(rest, k - 1)..];
      assert a[..Used(a, k)] == [a[0]] + rest[..Used(rest, k - 1)];
      assert AllItems(a[..Used(a, k)]) <==> AllItems(rest[..Used(rest, k - 1)]);
      var left, right := Yields(rest, k - 1) + Yields(a[Used(a, k)..], m), Yields(rest, k - 1 + m);
      assert Yields(a, k) + Yields(a[Used(a, k)..], m) == [a[0]] + left;
      assert Yields(a, k + m) == [a[0]] + right;
      assert left == right <==> [a[0]] + left == [a[0]] + right by {
        assert ([a[0]] + left)[1..] == left && ([a[0]] + right)[1..] == right;
      }
    } else {
      assert a[..1][0] == a[0];
      assert Yields(a, k) == Yields(a, k + m);
    }
  }

  lemma {:induction false} UsedItems(a: seq<Answer>, b: seq<Answer>, n: nat)
    requires AllItems(a) && |a| <= n
    ensures Used(a + b, n) == |a| + Used(b, n - |a|)
  {
    if a == [] {
      assert a + b == b;
    } else {
      UsedItems(a[1..], b, n - 1);
      assert (a + b)[1..] == a[1..] + b;
    }
  }

  lemma TakeAll(before: seq<Answer>, items: seq<Answer>, n: nat)
    requires AllItems(items) && |items| == n
    ensures (before + items)[|before|..] == items && Yields(items, n) == items && Answered(items, n)
  {
    YieldsOfItems(items, [], n);
    UsedItems(items, [], n);
    assert items + [] == items;
  }

  lemma TakeOne(before: seq<Answer>, items: seq<Answer>, next: Answer, n: nat)
    requires AllItems(items) && |items| < n
    ensures var answered := (before + items + [next])[|before|..];
            && answered == items + [next]
            && (next.Error? ==> Yields(answered, n) == items + [next])
            && (next.End? || next.StillPending? ==> Yields(answered, n) == items)
            && (!next.Item? ==> Answered(answered, n))
  {
    assert (items + [next])[|items|] == next;
    YieldsOfItems(items, [next], n);
    UsedItems(items, [next], n);
    assert items + [] == items;
  }

  lemma TwoTakes(a: seq<Answer>, b: seq<Answer>, k: nat, m: nat)
    requires Answered(a, k)
    ensures Yields(a + b, k) == Yields(a, k) && Used(a + b, k) <= |a + b|
    ensures Yields(a, k) + Yields(b, m) == Yields(a + b, k + m)
            <==> AllItems((a + b)[..Used(a + b, k)]) || Yields(b, m) == []
  {
    AnsweredBefore(a, b, k);
    StreamResumes(a + b, k, m);
    assert (a + b)[|a|..] == b;
  }

  // ---------- Streams ----------

  /** `messages` and `into_stream`: `try_unfold` over `receive_graceful`. */
  class MessageStream {
    const consumer: MemoryConsumer
    var live: bool

    constructor (consumer: MemoryConsumer)
      ensures this.consumer == consumer && live
    {
      this.consumer, live := consumer, true;
    }

    /** Whether it can be polled: not while a poll is still pending. */
    ghost predicate Ready()
      reads this, consumer, consumer.w, consumer.w.ch, consumer.w.shared, consumer.w.shutdown
    {
      consumer.Valid() && consumer.w.s.consumer.pc == M.Idle
    }

    /** One poll. Behind an error or an end there is nothing. A delivery it yields is the one that
        `receive_graceful` gave. */
    method Next() returns (r: Option<Outcome>)
      requires Ready()
      modifies this`live, consumer`answers, consumer.w, consumer.ch, consumer.shared, consumer.shutdown
      ensures !old(live) ==> r == None && !live && Ready() && consumer.w.Now() == old(consumer.w.Now())
                             && consumer.answers == old(consumer.answers)
      ensures old(live) ==>
                && Called(old(consumer.w.Now()), consumer.w.Now(), M.Graceful)
                && consumer.Graceful(r, Begun(old(consumer.w.Now()), M.Graceful))
                && consumer.answers == old(consumer.answers) + [AnswerOf(r)]
      ensures r.Some? && r.value.Received? ==> fresh(r.value.delivery) && fresh(r.value.delivery.ackHandle)
      ensures live <==> old(live) && r.Some? && !r.value.Failed?
    {
      if !live {
        return None;
      }
      r := consumer.ReceiveGraceful();
      live := r.Some? && !r.value.Failed?;
    }

    /** The deliveries taken so far: the next receipts, each open and in the hands of this task. */
    ghost predicate Taken(items: seq<Answer>, ds: seq<Delivery>, s: M.State)
      reads consumer.w, set d | d in ds
    {
      && |ds| <= |items| && consumer.Gathered(ds, s)
      && forall k :: 0 <= k < |ds| ==> items[k] == Item(ds[k].envelope)
    }

    lemma TakenAnother(items: seq<Answer>, ds: seq<Delivery>, s: M.State, mid: Config)
      requires consumer.Valid() && M.Reachable(mid.s) && M.CanCall(mid.s, M.Begin(M.Graceful))
      requires Called(mid, consumer.w.Now(), M.Graceful)
      requires |ds| <= |items| && |mid.s.receipts| == |s.receipts| + |ds|
      requires forall k :: 0 <= k < |ds| ==>
                             && ds[k].ackHandle.number == |s.receipts| + k && consumer.StillOpen(ds[k], mid)
                             && items[k] == Item(ds[k].envelope)
      ensures |consumer.w.s.receipts| == |mid.s.receipts| ==> Taken(items, ds, s)
      ensures forall d: Delivery :: consumer.HandedOut(d, Begun(mid, M.Graceful)) && |ds| == |items| ==>
                                      Taken(items + [Item(d.envelope)], ds + [d], s)
    {
      consumer.StillGathered(ds, s, mid, M.Graceful);
    }

    lemma NothingTaken(r: Option<Outcome>, mid: Config)
      requires M.Reachable(mid.s) && M.CanCall(mid.s, M.Begin(M.Graceful)) && consumer.Valid()
      requires consumer.Graceful(r, Begun(mid, M.Graceful)) && !(r.Some? && r.value.Received?)
      ensures |consumer.w.s.receipts| == |mid.s.receipts|
    {
      match r
      case None => consumer.NothingHandedOut(mid, M.Graceful, M.Stopped);
      case Some(o) =>
        match o
        case Failed(ConnectionLost) => consumer.NothingHandedOut(mid, M.Graceful, M.ConnectionLost);
        case Failed(ConsumerShutdown) => consumer.NothingHandedOut(mid, M.Graceful, M.ConsumerShutdown);
        case _ =>
    }

    /** One more element, if there is one. */
    method TakeOneMore(items: seq<Answer>, ds: seq<Delivery>, ghost s: M.State)
      returns (r: Option<Outcome>, more: seq<Answer>, ds': seq<Delivery>)
      requires Ready() && live && Taken(items, ds, s) && |ds| == |items|
      modifies this`live, consumer`answers, consumer.w, consumer.ch, consumer.shared, consumer.shutdown
      ensures consumer.Valid() && Taken(more, ds', s) && consumer.answers == old(consumer.answers) + [AnswerOf(r)]
      ensures match AnswerOf(r)
              case Item(e) => live && Ready() && more == items + [Item(e)] && |ds'| == |ds| + 1
              case Error(kind) => Ready() && more == items + [Error(kind)] && |ds'| == |ds|
              case End => Ready() && more == items && |ds'| == |ds|
              case StillPending => more == items && |ds'| == |ds|
      ensures ds <= ds' && old(consumer.w.s.log) <= consumer.w.s.log
    {
      ghost var mid := consumer.w.Now();
      assert forall k :: 0 <= k < |ds| ==> consumer.StillOpen(ds[k], mid);
      r := Next();
      PlayedGrows(Begun(mid, M.Graceful), consumer.w.Now(), TheConsumer);
      TakenAnother(items, ds, s, mid);
      more, ds' := items, ds;
      if r.Some? && r.value.Received? {
        more, ds' := items + [Item(r.value.delivery.envelope)], ds + [r.value.delivery];
      } else {
        NothingTaken(r, mid);
        if r.Some? && r.value.Failed? {
          more := items + [Error(r.value.kind)];
        }
      }
    }

    /** A stream that has yielded items only, so far. */
    ghost predicate Flowing(items: seq<Answer>, ds: seq<Delivery>, before: seq<Answer>, c: Config)
      reads this, consumer, consumer.w, consumer.w.ch, consumer.w.shared, consumer.w.shutdown, set d | d in ds
    {
      && Ready() && live && |items| == |ds| && AllItems(items)
      && consumer.answers == before + items && Taken(items, ds, c.s) && c.s.log <= consumer.w.s.log
    }

    /** What `n` polls have yielded: what the answers they got unfold to, and the next messages of the log. */
    ghost predicate Yielded(items: seq<Answer>, ds: seq<Delivery>, n: nat, before: seq<Answer>, c: Config)
      reads this, consumer, consumer.w, consumer.w.ch, consumer.w.shared, consumer.w.shutdown, set d | d in ds
    {
      && consumer.Valid() && before <= consumer.answers
      && items == Yields(consumer.answers[|before|..], n) && Answered(consumer.answers[|before|..], n)
      && Taken(items, ds, c.s) && |items| <= |ds| + 1 && consumer.InTheLog(ds, c.s) && c.s.log <= consumer.w.s.log
    }

    /** One more, or the end. */
    method TakeNext(items: seq<Answer>, ds: seq<Delivery>, n: nat, ghost before: seq<Answer>, ghost c: Config)
      returns (over: bool, more: seq<Answer>, ds': seq<Delivery>)
      requires Flowing(items, ds, before, c) && |items| < n
      modifies this`live, consumer`answers, consumer.w, consumer.ch, consumer.shared, consumer.shutdown
      ensures if over then Yielded(more, ds', n, before, c) && !(AllItems(more) && |more| == n)
              else Flowing(more, ds', before, c) && |more| == |items| + 1
    {
      var r;
      r, more, ds' := TakeOneMore(items, ds, c.s);
      TakeOne(before, items, AnswerOf(r), n);
      over := !AnswerOf(r).Item?;
      if over {
        consumer.GatheredAreLog(ds', c);
        if AnswerOf(r).Error? {
          assert more[|items|].Error?;
        }
      }
    }

    /** The first `n` elements, and the deliveries among them. Their messages are the next ones of the log, in order
        and without a gap. */
    method Take(n: nat) returns (items: seq<Answer>, ds: seq<Delivery>)
      requires Ready() && live
      modifies this`live, consumer`answers, consumer.w, consumer.ch, consumer.shared, consumer.shutdown
      ensures Yielded(items, ds, n, old(consumer.answers), old(consumer.w.Now()))
      ensures AllItems(items) && |items| == n ==> Ready()
    {
      ghost var before, c := consumer.answers, consumer.w.Now();
      items, ds := [], [];
      var over := false;
      while |items| < n
        invariant Flowing(items, ds, before, c) && |items| <= n
        decreases n - |items|
      {
        over, items, ds := TakeNext(items, ds, n, before, c);
        if over {
          return;
        }
      }
      TakeAll(before, items, n);
      consumer.GatheredAreLog(ds, c);
    }
  }

  /** Two stretches of the log, one behind the other. */
  lemma LogInTwo(consumer: MemoryConsumer, ds: seq<Delivery>, ds': seq<Delivery>, s: M.State, mid: M.State)
    requires |mid.receipts| == |s.receipts| + |ds| && mid.log <= consumer.w.s.log
    requires |s.receipts| + |ds| <= |mid.log|
    requires EnvelopesOf(ds) == Sa.Enqueued(mid.log[|s.receipts|..|s.receipts| + |ds|])
    requires consumer.InTheLog(ds', mid)
    ensures consumer.InTheLog(ds + ds', s)
  {
    var log, from := consumer.w.s.log, |s.receipts|;
    var to := from + |ds|;
    assert log[from..to + |ds'|] == log[from..to] + log[to..to + |ds'|];
    assert log[from..to] == mid.log[from..to];
    assert EnvelopesOf(ds + ds') == EnvelopesOf(ds) + EnvelopesOf(ds');
  }

  /** `m` elements of a new stream, unless a poll of the one before is still pending. */
  method TakeAgain(consumer: MemoryConsumer, m: nat) returns (items: seq<Answer>, ds: seq<Delivery>)
    requires consumer.Valid()
    modifies consumer`answers, consumer.w, consumer.ch, consumer.shared, consumer.shutdown
    ensures old(consumer.answers) <= consumer.answers && old(consumer.w.s.log) <= consumer.w.s.log
    ensures items == Yields(consumer.answers[|old(consumer.answers)|..], m)
    ensures consumer.InTheLog(ds, old(consumer.w.s))
  {
    items, ds := [], [];
    if consumer.w.s.consumer.pc == M.Idle {
      var stream := new MessageStream(consumer);
      items, ds := stream.Take(m);
    } else {
      Sa.ReachableConserved(consumer.w.s);
      assert EnvelopesOf(ds) == [] == Sa.Enqueued(consumer.w.s.log[|consumer.w.s.receipts|..|consumer.w.s.receipts|]);
    }
  }

  /** Two borrowed streams on one consumer: `k` elements of the first, which is dropped, then `m` of the second,
      unless a poll of the first is still pending. That is what one stream would have given if and only if the first
      had not ended, or the second had nothing to give; in any case no message is skipped. */
  method TakeTwice(consumer: MemoryConsumer, k: nat, m: nat)
    returns (first: seq<Answer>, second: seq<Answer>, ds: seq<Delivery>)
    requires consumer.Valid() && consumer.w.s.consumer.pc == M.Idle
    modifies consumer`answers, consumer.w, consumer.ch, consumer.shared, consumer.shutdown
    ensures old(consumer.answers) <= consumer.answers
    ensures var answered := consumer.answers[|old(consumer.answers)|..];
            && first == Yields(answered, k) && Used(answered, k) <= |answered|
            && (first + second == Yields(answered, k + m) <==> AllItems(answered[..Used(answered, k)]) || second == [])
    ensures consumer.InTheLog(ds, old(consumer.w.s))
  {
    ghost var before, s := consumer.answers, consumer.w.s;
    var stream := new MessageStream(consumer);
    var one, two;
    first, one := stream.Take(k);
    ghost var between, mid := consumer.answers, consumer.w.s;
    second, two := TakeAgain(consumer, m);
    LogInTwo(consumer, one, two, s, mid);
    ds := one + two;
    ghost var a, b := between[|before|..], consumer.answers[|between|..];
    assert consumer.answers[|before|..] == a + b;
    TwoTakes(a, b, k, m);
  }
}
