/** How often a notification arrives: once for each way to a client or to a flatten node. */
module SourceWays {
  import opened Wrappers
  import opened Sources

  ghost predicate AllUpward(w: World, n: NotifierId, subs: seq<Subscriber>) {
    forall i :: 0 <= i < |subs| ==> Upward(n, w.flats.Keys, subs[i])
  }

  /** The ways from the listeners `subs` of `n` to `x`, a client or an outer listener: through the outer
      listeners of flatten nodes, and through inner listeners whose gates are open. */
  ghost function Ways(w: World, n: NotifierId, subs: seq<Subscriber>, x: Subscriber): nat
    requires SubscribersOk(w) && AllUpward(w, n, subs)
    decreases Above(w, n), |subs|
  {
    if subs == [] then 0 else WaysBy(w, n, subs[0], x) + Ways(w, n, subs[1..], x)
  }

  ghost function WaysBy(w: World, n: NotifierId, sub: Subscriber, x: Subscriber): nat
    requires SubscribersOk(w) && Upward(n, w.flats.Keys, sub)
    decreases Above(w, n), 0
  {
    assert !sub.Client? ==> sub.f in Above(w, n) && sub.f !in Above(w, OfFlat(sub.f));
    (if sub == x then 1 else 0)
    + if sub.Client? || Closed(w, sub) then 0 else Ways(w, OfFlat(sub.f), SubscribersOf(w, OfFlat(sub.f)), x)
  }

  /** A listener behind a closed gate. */
  predicate Closed(w: World, sub: Subscriber) { sub.Inner? && !GateOpen(w, sub.f, sub.gate) }

  ghost function WaysFrom(w: World, n: NotifierId, x: Subscriber): nat
    requires SubscribersOk(w)
  {
    Ways(w, n, SubscribersOf(w, n), x)
  }

  /** The notifications `x` has received. */
  function Got(w: World, x: Subscriber): nat {
    match x
    case Client(k) => Heard(w, k)
    case Outer(f) => FlatAt(w, f).counted
    case Inner(_, _) => 0
  }

  // ----- a notification arrives once for each way

  ghost predicate SameListeners(w: World, w': World) {
    && w'.subscribers == w.subscribers && w'.flats.Keys == w.flats.Keys
    && forall f :: f in w.flats ==> w'.flats[f].cached == w.flats[f].cached
  }

  lemma {:induction false} WaysStay(w: World, w': World, n: NotifierId, subs: seq<Subscriber>, x: Subscriber)
    requires SubscribersOk(w) && SameListeners(w, w') && AllUpward(w, n, subs)
    ensures SubscribersOk(w') && Ways(w', n, subs, x) == Ways(w, n, subs, x)
    decreases Above(w, n), |subs|
  {
    if subs != [] {
      WaysByStay(w, w', n, subs[0], x);
      WaysStay(w, w', n, subs[1..], x);
    }
  }

  lemma {:induction false} WaysByStay(w: World, w': World, n: NotifierId, sub: Subscriber, x: Subscriber)
    requires SubscribersOk(w) && SameListeners(w, w') && Upward(n, w.flats.Keys, sub)
    ensures SubscribersOk(w') && WaysBy(w', n, sub, x) == WaysBy(w, n, sub, x)
    decreases Above(w, n), 0
  {
    if !sub.Client? && !Closed(w, sub) {
      assert sub.f in Above(w, n) && sub.f !in Above(w, OfFlat(sub.f));
      WaysStay(w, w', OfFlat(sub.f), SubscribersOf(w, OfFlat(sub.f)), x);
    }
  }

  /** Everybody is notified exactly as often as there are ways to them. */
  lemma {:induction false} DeliverAdds(w: World, n: NotifierId, j: nat, x: Subscriber)
    requires SubscribersOk(w) && j <= |SubscribersOf(w, n)| && !x.Inner?
    ensures Got(Deliver(w, n, j), x) == Got(w, x) + Ways(w, n, SubscribersOf(w, n)[j..], x)
    decreases Above(w, n), |SubscribersOf(w, n)| - j
  {
    var subs := SubscribersOf(w, n);
    if j < |subs| {
      var w1 := Receive(w, n, j);
      ReceiveAdds(w, n, j, x);
      assert Above(w1, n) == Above(w, n);
      DeliverAdds(w1, n, j + 1, x);
      WaysStay(w, w1, n, subs[j + 1..], x);
      assert subs[j..][1..] == subs[j + 1..];
    }
  }

  lemma {:induction false} ReceiveAdds(w: World, n: NotifierId, j: nat, x: Subscriber)
    requires SubscribersOk(w) && j < |SubscribersOf(w, n)| && !x.Inner?
    ensures Upward(n, w.flats.Keys, SubscribersOf(w, n)[j])
    ensures Got(Receive(w, n, j), x) == Got(w, x) + WaysBy(w, n, SubscribersOf(w, n)[j], x)
    decreases Above(w, n), |SubscribersOf(w, n)| - j, 0
  {
    var sub := SubscribersOf(w, n)[j];
    assert Upward(n, w.flats.Keys, sub);
    assert !sub.Client? ==> sub.f in Above(w, n) && sub.f !in Above(w, OfFlat(sub.f));
    if !sub.Client? && !Closed(w, sub) {
      var w1 := if sub.Outer? then Count(w, sub.f) else w;
      CountIsSame(w, sub.f);
      DeliverAdds(w1, OfFlat(sub.f), 0, x);
      WaysStay(w, w1, OfFlat(sub.f), SubscribersOf(w, OfFlat(sub.f)), x);
      assert SubscribersOf(w, OfFlat(sub.f))[0..] == SubscribersOf(w, OfFlat(sub.f));
    }
  }

  lemma CountIsSame(w: World, f: nat)
    requires SubscribersOk(w) && f in w.flats
    ensures SubscribersOk(Count(w, f)) && SameListeners(w, Count(w, f)) && SameListeners(w, w)
    ensures Above(Count(w, f), OfFlat(f)) == Above(w, OfFlat(f))
    ensures forall x: Subscriber :: Got(Count(w, f), x) == Got(w, x) + if x == Outer(f) then 1 else 0
  {
  }

  // ----- neither closed gates nor order matter

  /** The listeners that can still pass anything on, each as often as it is listed. */
  ghost function OpenOnes(w: World, subs: seq<Subscriber>): multiset<Subscriber> {
    if subs == [] then multiset{}
    else (if Closed(w, subs[0]) then multiset{} else multiset{subs[0]}) + OpenOnes(w, subs[1..])
  }

  lemma {:induction false} OpenWithout(w: World, subs: seq<Subscriber>, i: nat)
    requires i < |subs|
    ensures OpenOnes(w, subs)
         == OpenOnes(w, subs[..i] + subs[i + 1..]) + if Closed(w, subs[i]) then multiset{} else multiset{subs[i]}
  {
    var gap := subs[..i] + subs[i + 1..];
    if i == 0 {
      assert gap == subs[1..];
    } else {
      OpenWithout(w, subs[1..], i - 1);
      assert gap[1..] == subs[1..][..i - 1] + subs[1..][i..];
    }
  }

  lemma {:induction false} OpenMember(w: World, subs: seq<Subscriber>, sub: Subscriber) returns (i: nat)
    requires sub in OpenOnes(w, subs)
    ensures i < |subs| && subs[i] == sub && !Closed(w, sub)
  {
    if !Closed(w, subs[0]) && subs[0] == sub {
      i := 0;
    } else {
      i := OpenMember(w, subs[1..], sub);
      i := i + 1;
    }
  }

  lemma {:induction false} WaysWithout(w: World, n: NotifierId, subs: seq<Subscriber>, i: nat, x: Subscriber)
    requires SubscribersOk(w) && AllUpward(w, n, subs) && i < |subs|
    ensures AllUpward(w, n, subs[..i] + subs[i + 1..])
    ensures Ways(w, n, subs, x) == WaysBy(w, n, subs[i], x) + Ways(w, n, subs[..i] + subs[i + 1..], x)
    decreases i
  {
    var gap := subs[..i] + subs[i + 1..];
    if i == 0 {
      assert gap == subs[1..];
    } else {
      WaysWithout(w, n, subs[1..], i - 1, x);
      assert gap[1..] == subs[1..][..i - 1] + subs[1..][i..];
    }
  }

  /** Two worlds whose notifiers list the same open listeners. */
  ghost predicate SameOpenOnes(w: World, v: World) {
    && SubscribersOk(w) && SubscribersOk(v) && v.flats == w.flats
    && forall n :: OpenOnes(v, SubscribersOf(v, n)) == OpenOnes(w, SubscribersOf(w, n))
  }

  lemma OneFewerOpen(w: World, v: World, a: seq<Subscriber>, b: seq<Subscriber>) returns (i: nat)
    requires OpenOnes(w, a) == OpenOnes(v, b) && a != [] && !Closed(w, a[0])
    ensures i < |b| && b[i] == a[0] && OpenOnes(w, a[1..]) == OpenOnes(v, b[..i] + b[i + 1..])
  {
    assert a[0] in OpenOnes(w, a);
    i := OpenMember(v, b, a[0]);
    OpenWithout(v, b, i);
    assert OpenOnes(w, a[1..]) == OpenOnes(w, a) - multiset{a[0]};
  }

  lemma {:induction false} WaysByOpenOnes(w: World, v: World, n: NotifierId, a: seq<Subscriber>, b: seq<Subscriber>,
                                          x: Subscriber)
    requires SameOpenOnes(w, v) && AllUpward(w, n, a) && AllUpward(v, n, b) && OpenOnes(w, a) == OpenOnes(v, b)
    requires !x.Inner?
    ensures Ways(w, n, a, x) == Ways(v, n, b, x)
    decreases Above(w, n), |a| + |b|, 1
  {
    if a == [] {
      if b != [] {
        assert Closed(v, b[0]);
        WaysByOpenOnes(w, v, n, a, b[1..], x);
      }
    } else if Closed(w, a[0]) {
      WaysByOpenOnes(w, v, n, a[1..], b, x);
    } else {
      WaysByFirst(w, v, n, a, b, x);
    }
  }

  lemma {:induction false} WaysByFirst(w: World, v: World, n: NotifierId, a: seq<Subscriber>, b: seq<Subscriber>,
                                       x: Subscriber)
    requires SameOpenOnes(w, v) && AllUpward(w, n, a) && AllUpward(v, n, b) && OpenOnes(w, a) == OpenOnes(v, b)
    requires !x.Inner? && a != [] && !Closed(w, a[0])
    ensures Ways(w, n, a, x) == Ways(v, n, b, x)
    decreases Above(w, n), |a| + |b|, 0
  {
    var i := OneFewerOpen(w, v, a, b);
    var rest := b[..i] + b[i + 1..];
    assert |rest| == |b| - 1;
    WaysWithout(v, n, b, i, x);
    WaysByOpenOnes(w, v, n, a[1..], rest, x);
    WaysByOne(w, v, n, a[0], x);
  }

  lemma {:induction false} WaysByOne(w: World, v: World, n: NotifierId, sub: Subscriber, x: Subscriber)
    requires SameOpenOnes(w, v) && Upward(n, w.flats.Keys, sub) && !x.Inner?
    ensures WaysBy(w, n, sub, x) == WaysBy(v, n, sub, x)
    decreases Above(w, n), 0
  {
    if !sub.Client? && !Closed(w, sub) {
      assert sub.f in Above(w, n) && sub.f !in Above(w, OfFlat(sub.f));
      WaysByOpenOnes(w, v, OfFlat(sub.f), SubscribersOf(w, OfFlat(sub.f)), SubscribersOf(v, OfFlat(sub.f)), x);
    }
  }

  /** So a notifier may drop listeners behind closed gates, and list the others in any order: every
      client and every flatten node is notified as often. */
  lemma DeliversAlike(w: World, v: World, n: NotifierId, x: Subscriber)
    requires SameOpenOnes(w, v) && !x.Inner? && Got(v, x) == Got(w, x)
    ensures Got(Deliver(v, n, 0), x) == Got(Deliver(w, n, 0), x)
  {
    DeliverAdds(w, n, 0, x);
    DeliverAdds(v, n, 0, x);
    assert SubscribersOf(w, n)[0..] == SubscribersOf(w, n) && SubscribersOf(v, n)[0..] == SubscribersOf(v, n);
    WaysByOpenOnes(w, v, n, SubscribersOf(w, n), SubscribersOf(v, n), x);
  }
}
