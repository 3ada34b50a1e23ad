/** What the calls of a consumer hand out, over whole runs: batches and streams are stretches of such calls. */
module Calls {
  import opened Core
  import B = Broker
  import opened Machine
  import opened Refinement
  import opened Safety

  /** The deliveries handed out by a sequence of calls, in the order of the calls. */
  function HandedOut(calls: seq<Ended>): seq<nat> {
    if calls == [] then []
    else
      var last := calls[|calls| - 1];
      HandedOut(calls[..|calls| - 1]) + if last.outcome.Delivered? then [last.outcome.receipt] else []
  }

  function UpTo(n: nat): seq<nat> {
    seq(n, i requires 0 <= i < n => i)
  }

  lemma HandedOutAppend(calls: seq<Ended>, c: Ended)
    ensures HandedOut(calls + [c]) == HandedOut(calls) + if c.outcome.Delivered? then [c.outcome.receipt] else []
  {
    assert (calls + [c])[..|calls|] == calls;
  }

  lemma {:induction false} HandedOutConcat(a: seq<Ended>, b: seq<Ended>)
    ensures HandedOut(a + b) == HandedOut(a) + HandedOut(b)
  {
    if b == [] {
      assert a + b == a;
    } else {
      var n := |b| - 1;
      HandedOutConcat(a, b[..n]);
      assert (a + b)[..|a + b| - 1] == a + b[..n];
    }
  }

  ghost predicate InTurn(s: State) {
    HandedOut(s.calls) == UpTo(|s.receipts|)
  }

  lemma InTurnCall(s: State, st: CallStep)
    requires InTurn(s) && CanCall(s, st)
    ensures InTurn(CallDo(s, st))
  {
    CallFrame(s, st);
    if CallDo(s, st).calls != s.calls {
      HandedOutAppend(s.calls, CallDo(s, st).calls[|s.calls|]);
    }
  }

  lemma InTurnAwait(s: State, st: AwaitStep)
    requires InTurn(s) && CanAwait(s, st)
    ensures InTurn(AwaitDo(s, st))
  {
    if Delivers(s, st) {
      HandedOutAppend(s.calls, Ended(s.consumer.mode, Delivered(|s.receipts|)));
    } else {
      var o := SilentReturns(s, st);
      AwaitSilentFrame(s, st);
      HandedOutAppend(s.calls, Ended(s.consumer.mode, o));
    }
  }

  lemma SilentReturns(s: State, st: AwaitStep) returns (o: Outcome)
    requires CanAwait(s, st) && !Delivers(s, st)
    ensures !o.Delivered?
    ensures AwaitDo(s, st).calls == s.calls || AwaitDo(s, st).calls == s.calls + [Ended(s.consumer.mode, o)]
  {
    o := if st == Pop && s.senders != 0 then NoMessage else ConnectionLost;
  }

  lemma InTurnStep(s: State, st: Step)
    requires InTurn(s) && Can(s, st)
    ensures InTurn(Do(s, st))
  {
    match st
    case Call(c) => InTurnCall(s, c);
    case Flush(f) => FlushFrame(s, f);
    case Await(a) => InTurnAwait(s, a);
    case _ => OthersKeepConsumer(s, st);
  }

  lemma {:induction false} InTurnRun(s: State, steps: seq<Step>)
    requires InTurn(s) && CanRun(s, steps)
    ensures InTurn(Run(s, steps))
    decreases |steps|
  {
    if steps != [] {
      InTurnStep(s, steps[0]);
      InTurnRun(Do(s, steps[0]), steps[1..]);
    }
  }

  /** In every run the delivering calls hand out the deliveries one by one: the k-th such call the k-th delivery. */
  lemma CallsInTurn(s: State)
    requires Reachable(s)
    ensures HandedOut(s.calls) == UpTo(|s.receipts|)
  {
    var capacity: nat, dlq: Option<U32>, clock: Time, steps: seq<Step> :| Reaches(capacity, dlq, clock, steps, s);
    InTurnRun(Init(capacity, dlq, clock), steps);
  }

  /** The messages of the deliveries handed out by calls `i` to `j`. */
  function Messages(s: State, i: nat, j: nat): seq<Envelope>
    requires i <= j <= |s.calls|
    requires forall k :: 0 <= k < |HandedOut(s.calls[i..j])| ==> HandedOut(s.calls[i..j])[k] < |s.receipts|
  {
    var out := HandedOut(s.calls[i..j]);
    seq(|out|, k requires 0 <= k < |out| => s.receipts[out[k]].env)
  }

  /** What any stretch of consecutive calls hands out, be it a batch, a stream or a loop, are consecutive entries of
      the log, under every interleaving: it begins behind what the calls before it handed out, and misses nothing. */
  lemma StretchOfTheLog(s: State, i: nat, j: nat)
    requires Reachable(s) && i <= j <= |s.calls|
    ensures forall k :: 0 <= k < |HandedOut(s.calls[i..j])| ==> HandedOut(s.calls[i..j])[k] < |s.receipts|
    ensures var from, to := |HandedOut(s.calls[..i])|, |HandedOut(s.calls[..j])|;
            from <= to <= |s.log| && Messages(s, i, j) == Enqueued(s.log[from..to])
  {
    CallsInTurn(s);
    ReachableConserved(s);
    var before, during, after := s.calls[..i], s.calls[i..j], s.calls[j..];
    assert s.calls[..j] == before + during && s.calls == s.calls[..j] + after;
    HandedOutConcat(before, during);
    HandedOutConcat(s.calls[..j], after);
    StretchIsUpTo(HandedOut(before), HandedOut(during), HandedOut(after), |s.receipts|);
    ReceiptsAreLog(s, HandedOut(during), |HandedOut(before)|);
  }

  lemma ReceiptsAreLog(s: State, out: seq<nat>, from: nat)
    requires Fifo(s) && from + |out| <= |s.receipts| && forall k :: 0 <= k < |out| ==> out[k] == from + k
    ensures seq(|out|, k requires 0 <= k < |out| => s.receipts[out[k]].env) == Enqueued(s.log[from..from + |out|])
  {
  }

  lemma StretchIsUpTo(a: seq<nat>, b: seq<nat>, c: seq<nat>, n: nat)
    requires a + b + c == UpTo(n)
    ensures |a| + |b| <= n && forall k :: 0 <= k < |b| ==> b[k] == |a| + k
  {
    forall k | 0 <= k < |b| ensures b[k] == |a| + k {
      assert (a + b + c)[|a| + k] == b[k];
    }
    assert |a + b + c| == n;
  }
}
