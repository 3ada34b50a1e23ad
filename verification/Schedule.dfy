/** The schedule: a sorted map from delivery time to a bucket of envelopes, and the flat list it refines. */
module Schedule {
  import opened Core

  datatype Entry = Entry(time: Time, env: Envelope)

  type Buckets = map<Time, seq<Envelope>>

  // ---------- The flat list ----------

  ghost predicate Sorted(s: seq<Entry>) {
    forall i, j :: 0 <= i < j < |s| ==> s[i].time <= s[j].time
  }

  /** Behind everything due no later than `x`, in front of everything due after it. */
  function InsertByTime(s: seq<Entry>, x: Entry): seq<Entry> {
    if s == [] || x.time < s[0].time then [x] + s else [s[0]] + InsertByTime(s[1..], x)
  }

  /** The envelopes for one delivery time, in list order. */
  function AtTime(s: seq<Entry>, t: Time): seq<Envelope> {
    if s == [] then [] else (if s[0].time == t then [s[0].env] else []) + AtTime(s[1..], t)
  }

  function After(s: seq<Entry>, now: Time): seq<Entry> {
    if s == [] then [] else (if s[0].time > now then [s[0]] else []) + After(s[1..], now)
  }

  function Envelopes(s: seq<Entry>): seq<Envelope> {
    seq(|s|, i requires 0 <= i < |s| => s[i].env)
  }

  /** `order` is `list` in stable order of delivery time. */
  ghost predicate StableOrder(order: seq<Entry>, list: seq<Entry>) {
    Sorted(order) && forall t: Time :: AtTime(order, t) == AtTime(list, t)
  }

  lemma {:induction false} AtTimeConcat(a: seq<Entry>, b: seq<Entry>, t: Time)
    ensures AtTime(a + b, t) == AtTime(a, t) + AtTime(b, t)
  {
    if a == [] {
      assert a + b == b;
    } else {
      AtTimeConcat(a[1..], b, t);
      assert (a + b)[1..] == a[1..] + b;
    }
  }

  lemma {:induction false} AtTimeAbsent(s: seq<Entry>, t: Time)
    requires forall i :: 0 <= i < |s| ==> s[i].time != t
    ensures AtTime(s, t) == []
  {
    if s != [] {
      AtTimeAbsent(s[1..], t);
    }
  }

  lemma {:induction false} AtTimeAfter(s: seq<Entry>, now: Time, t: Time)
    ensures AtTime(After(s, now), t) == if t > now then AtTime(s, t) else []
  {
    if s != [] {
      AtTimeAfter(s[1..], now, t);
      AtTimeConcat(if s[0].time > now then [s[0]] else [], After(s[1..], now), t);
    }
  }

  lemma {:induction false} InsertMembers(s: seq<Entry>, x: Entry)
    ensures |InsertByTime(s, x)| == |s| + 1
    ensures forall i :: 0 <= i < |s| + 1 ==> InsertByTime(s, x)[i] == x || InsertByTime(s, x)[i] in s
  {
    if s != [] && x.time >= s[0].time {
      InsertMembers(s[1..], x);
      forall i | 0 < i < |s| + 1 ensures InsertByTime(s, x)[i] == x || InsertByTime(s, x)[i] in s {
        assert InsertByTime(s, x)[i] == InsertByTime(s[1..], x)[i - 1];
      }
    }
  }

  /** Insertion keeps the list sorted and puts the newcomer last among the entries of its own time. */
  lemma {:induction false} InsertIsStable(s: seq<Entry>, x: Entry)
    requires Sorted(s)
    ensures Sorted(InsertByTime(s, x))
    ensures forall t: Time :: AtTime(InsertByTime(s, x), t) == AtTime(s + [x], t)
  {
    forall t: Time ensures AtTime(InsertByTime(s, x), t) == AtTime(s + [x], t) {
      InsertAtTime(s, x, t);
      AtTimeConcat(s, [x], t);
      assert [x][1..] == [];
    }
    InsertSorted(s, x);
  }

  lemma {:induction false} InsertSorted(s: seq<Entry>, x: Entry)
    requires Sorted(s)
    ensures Sorted(InsertByTime(s, x))
  {
    if s != [] && x.time >= s[0].time {
      InsertSorted(s[1..], x);
      InsertMembers(s[1..], x);
    }
  }

  lemma {:induction false} InsertAtTime(s: seq<Entry>, x: Entry, t: Time)
    requires Sorted(s)
    ensures AtTime(InsertByTime(s, x), t) == AtTime(s, t) + if x.time == t then [x.env] else []
  {
    if s == [] || x.time < s[0].time {
      assert ([x] + s)[1..] == s;
      if x.time == t {
        AtTimeAbsent(s, t);
      }
    } else {
      InsertAtTime(s[1..], x, t);
      assert ([s[0]] + InsertByTime(s[1..], x))[1..] == InsertByTime(s[1..], x);
    }
  }

  /** The stable order of a list is unique, so `StableOrder` determines what a flush pushes. */
  lemma {:induction false} StableOrderUnique(a: seq<Entry>, b: seq<Entry>)
    requires Sorted(a) && Sorted(b)
    requires forall t: Time :: AtTime(a, t) == AtTime(b, t)
    ensures a == b
  {
    if a == [] || b == [] {
      if a != [] {
        SomeTime(a);
      }
      if b != [] {
        SomeTime(b);
      }
    } else {
      assert AtTime(a, a[0].time) == AtTime(b, a[0].time);
      assert AtTime(a, b[0].time) == AtTime(b, b[0].time);
      FirstIsLeast(a, b);
      FirstIsLeast(b, a);
      assert [a[0].env] <= AtTime(a, a[0].time) && [b[0].env] <= AtTime(b, b[0].time);
      assert a[0].env == AtTime(a, a[0].time)[0] == b[0].env;
      forall t: Time ensures AtTime(a[1..], t) == AtTime(b[1..], t) {
        assert AtTime(a, t) == AtTime(b, t);
        var k := if a[0].time == t then 1 else 0;
        assert AtTime(a[1..], t) == AtTime(a, t)[k..];
        assert AtTime(b[1..], t) == AtTime(b, t)[k..];
      }
      StableOrderUnique(a[1..], b[1..]);
    }
  }

  lemma SomeTime(s: seq<Entry>)
    requires s != []
    ensures exists t: Time :: AtTime(s, t) != []
  {
    assert AtTime(s, s[0].time) != [];
  }

  lemma FirstIsLeast(a: seq<Entry>, b: seq<Entry>)
    requires a != [] && b != [] && Sorted(b)
    requires AtTime(a, a[0].time) == AtTime(b, a[0].time)
    ensures b[0].time <= a[0].time
  {
    if a[0].time < b[0].time {
      AtTimeAbsent(b, a[0].time);
    }
  }

  lemma {:induction false} InsertSkips(p: seq<Entry>, s: seq<Entry>, x: Entry)
    requires forall i :: 0 <= i < |p| ==> p[i].time <= x.time
    ensures InsertByTime(p + s, x) == p + InsertByTime(s, x)
  {
    if p == [] {
      assert p + s == s;
    } else {
      InsertSkips(p[1..], s, x);
      assert (p + s)[1..] == p[1..] + s;
    }
  }

  // ---------- The sorted map of buckets ----------

  lemma NoMembers(s: set<Time>)
    ensures s == {} || exists x :: x in s
  {
    if forall x :: x !in s {
      assert s == {};
    }
  }

  lemma {:induction false} LeastExists(s: set<Time>)
    requires s != {}
    ensures exists t :: t in s && forall u :: u in s ==> t <= u
  {
    NoMembers(s);
    var x :| x in s;
    if s == {x} {
      assert forall u :: u in s ==> x <= u;
    } else {
      LeastExists(s - {x});
      var y :| y in s - {x} && forall u :: u in s - {x} ==> y <= u;
      var z := if x < y then x else y;
      assert z in s && forall u :: u in s ==> z <= u by {
        forall u | u in s ensures z <= u {
          assert u == x || u in s - {x};
        }
      }
    }
  }

  function Least(s: set<Time>): (t: Time)
    requires s != {}
    ensures t in s && forall u :: u in s ==> t <= u
  {
    LeastExists(s);
    var t :| t in s && forall u :: u in s ==> t <= u;
    t
  }

  /** The earliest delivery time on the schedule, if any. */
  function NextScheduledAt(m: Buckets): Option<Time> {
    if m.Keys == {} then None else Some(Least(m.Keys))
  }

  /** `scheduled.entry(t).or_insert_with(Vec::new).push(e)` */
  function Insert(m: Buckets, t: Time, e: Envelope): Buckets {
    m[t := (if t in m then m[t] else []) + [e]]
  }

  /** What `split_off(now + 1ns)` leaves in the map it is called on. */
  function Due(m: Buckets, now: Time): Buckets {
    map t | t in m && t < now + 1 :: m[t]
  }

  /** What `split_off(now + 1ns)` returns. */
  function Later(m: Buckets, now: Time): Buckets {
    map t | t in m && t >= now + 1 :: m[t]
  }

  /** No bucket on the schedule is empty. */
  predicate Filled(m: Buckets) {
    forall t :: t in m ==> m[t] != []
  }

  function Tagged(t: Time, es: seq<Envelope>): seq<Entry> {
    seq(|es|, i requires 0 <= i < |es| => Entry(t, es[i]))
  }

  /** The order in which a drain of the map visits the envelopes. */
  function Flatten(m: Buckets): seq<Entry>
    decreases m.Keys
  {
    if m.Keys == {} then []
    else
      var t := Least(m.Keys);
      Tagged(t, m[t]) + Flatten(m - {t})
  }

  lemma {:induction false} FlattenTimes(m: Buckets)
    ensures forall i :: 0 <= i < |Flatten(m)| ==> Flatten(m)[i].time in m
    decreases m.Keys
  {
    if m.Keys != {} {
      var t := Least(m.Keys);
      FlattenTimes(m - {t});
    }
  }

  lemma {:induction false} FlattenSorted(m: Buckets)
    ensures Sorted(Flatten(m))
    decreases m.Keys
  {
    if m.Keys != {} {
      var t := Least(m.Keys);
      FlattenSorted(m - {t});
      FlattenTimes(m - {t});
    }
  }

  /** Pushing into a bucket of the map is a stable insertion into the flat list. */
  lemma {:induction false} FlattenInsert(m: Buckets, t: Time, e: Envelope)
    ensures Flatten(Insert(m, t, e)) == InsertByTime(Flatten(m), Entry(t, e))
    decreases m.Keys
  {
    var n := Insert(m, t, e);
    var x := Entry(t, e);
    assert n.Keys == m.Keys + {t};
    var k := Least(n.Keys);
    FlattenTimes(m);
    if t !in m && k == t {
      assert n - {t} == m;
      assert Tagged(t, [e]) == [x];
    } else {
      assert Least(m.Keys) == k;
      var rest := m - {k};
      FlattenTimes(rest);
      InsertSkips(Tagged(k, m[k]), Flatten(rest), x);
      if t == k {
        assert n - {k} == rest;
        assert Tagged(k, n[k]) == Tagged(k, m[k]) + [x];
        assert InsertByTime(Flatten(rest), x) == [x] + Flatten(rest);
      } else {
        assert n - {k} == Insert(rest, t, e);
        FlattenInsert(rest, t, e);
      }
    }
  }

  /** A split at `now` cuts the flat list into what is due and what is not. */
  lemma {:induction false} FlattenSplit(m: Buckets, now: Time)
    ensures Flatten(m) == Flatten(Due(m, now)) + Flatten(Later(m, now))
    decreases m.Keys
  {
    if m.Keys != {} {
      var k := Least(m.Keys);
      if k > now {
        assert Due(m, now).Keys == {};
        assert Later(m, now) == m;
      } else {
        assert k in Due(m, now);
        assert Least(Due(m, now).Keys) == k;
        assert Due(m, now) - {k} == Due(m - {k}, now);
        assert Later(m, now) == Later(m - {k}, now);
        FlattenSplit(m - {k}, now);
      }
    } else {
      assert Due(m, now).Keys == {} && Later(m, now).Keys == {};
    }
  }

  lemma {:induction false} FlattenNonempty(m: Buckets, t: Time)
    requires t in m && m[t] != []
    ensures Flatten(m) != []
    decreases m.Keys
  {
    var k := Least(m.Keys);
    if k != t {
      FlattenNonempty(m - {k}, t);
    }
  }

  lemma {:induction false} FlattenMember(m: Buckets, t: Time, e: Envelope)
    requires t in m && e in m[t]
    ensures Entry(t, e) in Flatten(m)
    decreases m.Keys
  {
    var k := Least(m.Keys);
    if k != t {
      FlattenMember(m - {k}, t, e);
    } else {
      var i :| 0 <= i < |m[t]| && m[t][i] == e;
      assert Tagged(t, m[t])[i] == Entry(t, e);
    }
  }

  /** What a flush at `now` pushes and what it leaves, in terms of the flat list alone. */
  lemma FlushOrder(m: Buckets, pending: seq<Entry>, now: Time)
    requires StableOrder(Flatten(m), pending)
    ensures Sorted(Flatten(Due(m, now)))
    ensures forall t: Time :: AtTime(Flatten(Due(m, now)), t) == if t <= now then AtTime(pending, t) else []
    ensures StableOrder(Flatten(Later(m, now)), After(pending, now))
  {
    FlattenSorted(Due(m, now));
    FlattenSorted(Later(m, now));
    forall t: Time
      ensures AtTime(Flatten(Due(m, now)), t) == if t <= now then AtTime(pending, t) else []
      ensures AtTime(Flatten(Later(m, now)), t) == AtTime(After(pending, now), t)
    {
      assert AtTime(Flatten(m), t) == AtTime(pending, t);
      SplitAtTime(m, now, t);
      AtTimeAfter(pending, now, t);
    }
  }

  lemma SplitAtTime(m: Buckets, now: Time, t: Time)
    ensures AtTime(Flatten(Due(m, now)), t) == if t <= now then AtTime(Flatten(m), t) else []
    ensures AtTime(Flatten(Later(m, now)), t) == if t <= now then [] else AtTime(Flatten(m), t)
  {
    var due, rest := Flatten(Due(m, now)), Flatten(Later(m, now));
    FlattenSplit(m, now);
    AtTimeConcat(due, rest, t);
    if t <= now {
      FlattenTimes(Later(m, now));
      AtTimeAbsent(rest, t);
    } else {
      FlattenTimes(Due(m, now));
      AtTimeAbsent(due, t);
    }
  }
}
