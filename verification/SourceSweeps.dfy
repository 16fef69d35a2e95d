/** Notifiers that sweep: dropping listeners behind closed gates at any time, and listing the others in
    any order, makes no difference to any source or any client. */
module SourceSweeps {
  import opened Wrappers
  import opened Sources
  import opened SourceLaws
  import opened SourceRuns
  import opened SourceWays
  import Held = SourceListening

  /** Equal, but for who is listed where. */
  ghost predicate Twins(w: World, v: World) {
    && v.cells == w.cells && v.apply == w.apply && v.outers == w.outers && v.flats == w.flats
    && v.nextGate == w.nextGate && forall k :: Heard(v, k) == Heard(w, k)
  }

  /** From `w` to `w'` as many listeners have come, and the same, as from `v` to `v'`. */
  ghost predicate SameNewcomers(w: World, w': World, v: World, v': World) {
    forall n :: NewcomersAlike(SubscribersOf(w, n), SubscribersOf(w', n), SubscribersOf(v, n), SubscribersOf(v', n))
  }

  ghost predicate NewcomersAlike(a: seq<Subscriber>, a': seq<Subscriber>, b: seq<Subscriber>, b': seq<Subscriber>) {
    a <= a' && b <= b' && a'[|a|..] == b'[|b|..]
  }

  lemma NewcomersInTwo(a: seq<Subscriber>, a1: seq<Subscriber>, a2: seq<Subscriber>,
                       b: seq<Subscriber>, b1: seq<Subscriber>, b2: seq<Subscriber>)
    requires NewcomersAlike(a, a1, b, b1) && NewcomersAlike(a1, a2, b1, b2)
    ensures NewcomersAlike(a, a2, b, b2)
  {
    assert a2[|a|..] == a1[|a|..] + a2[|a1|..];
    assert b2[|b|..] == b1[|b|..] + b2[|b1|..];
  }

  lemma SameNewcomersInTwo(w: World, w1: World, w2: World, v: World, v1: World, v2: World)
    requires SameNewcomers(w, w1, v, v1) && SameNewcomers(w1, w2, v1, v2)
    ensures SameNewcomers(w, w2, v, v2)
  {
    forall n
      ensures NewcomersAlike(SubscribersOf(w, n), SubscribersOf(w2, n), SubscribersOf(v, n), SubscribersOf(v2, n))
    {
      NewcomersInTwo(SubscribersOf(w, n), SubscribersOf(w1, n), SubscribersOf(w2, n),
                     SubscribersOf(v, n), SubscribersOf(v1, n), SubscribersOf(v2, n));
    }
  }

  // ----- nothing but a notification looks at the lists

  lemma ListenTwins(w: World, v: World, s: Source, sub: Subscriber)
    requires Twins(w, v)
    ensures Twins(Listen(w, s, sub), Listen(v, s, sub))
    ensures SameNewcomers(w, Listen(w, s, sub), v, Listen(v, s, sub))
  {
    var w', v' := Listen(w, s, sub), Listen(v, s, sub);
    assert forall k :: Heard(w', k) == Heard(w, k) && Heard(v', k) == Heard(v, k);
    forall n
      ensures NewcomersAlike(SubscribersOf(w, n), SubscribersOf(w', n), SubscribersOf(v, n), SubscribersOf(v', n))
    {
      ListenAdds(w, s, sub, n);
      ListenAdds(v, s, sub, n);
    }
  }

  lemma ListenAdds(w: World, s: Source, sub: Subscriber, n: NotifierId)
    ensures var (a, a') := (SubscribersOf(w, n), SubscribersOf(Listen(w, s, sub), n));
            a <= a' && a'[|a|..] == if Base(s) == Some(n) then [sub] else []
  {
  }

  lemma CreateTwins(w: World, v: World, f: nat)
    requires Twins(w, v)
    ensures Twins(Create(w, f), Create(v, f)) && SameNewcomers(w, Create(w, f), v, Create(v, f))
  {
    if f !in w.flats {
      var w0, v0 := w.(flats := w.flats[f := FlatState(0, None)]), v.(flats := v.flats[f := FlatState(0, None)]);
      assert Twins(w0, v0) by { assert forall k :: Heard(w0, k) == Heard(w, k) && Heard(v0, k) == Heard(v, k); }
      ListenTwins(w0, v0, OuterOf(w, f), Outer(f));
      assert SameNewcomers(w, w0, v, v0);
      SameNewcomersInTwo(w, w0, Create(w, f), v, v0, Create(v, f));
    }
  }

  lemma AttachTwins(w: World, v: World, f: nat, source: Source)
    requires Twins(w, v)
    ensures Twins(Attach(w, f, source), Attach(v, f, source))
    ensures SameNewcomers(w, Attach(w, f, source), v, Attach(v, f, source))
  {
    var w0, v0 := NewGate(w), NewGate(v);
    assert Twins(w0, v0) by { assert forall k :: Heard(w0, k) == Heard(w, k) && Heard(v0, k) == Heard(v, k); }
    ListenTwins(w0, v0, source, Inner(f, w.nextGate));
    assert SameNewcomers(w, w0, v, v0);
    SameNewcomersInTwo(w, w0, Attach(w, f, source), v, v0, Attach(v, f, source));
  }

  lemma StoreTwins(w: World, v: World, f: nat, needed: nat, source: Source)
    requires Twins(w, v)
    ensures var ((w', a), (v', b)) := (ListenAndStore(w, f, needed, source), ListenAndStore(v, f, needed, source));
            Twins(w', v') && a == b && SameNewcomers(w, w', v, v')
  {
    AttachTwins(w, v, f, source);
    var (w1, v1, cached) := (Attach(w, f, source), Attach(v, f, source), Cached(0, source, w.nextGate));
    PutTwins(w1, v1, f, cached);
    SameNewcomersInTwo(w, w1, Put(w1, f, cached), v, v1, Put(v1, f, cached));
  }

  lemma PutTwins(w: World, v: World, f: nat, cached: Cached)
    requires Twins(w, v)
    ensures Twins(Put(w, f, cached), Put(v, f, cached))
    ensures SameNewcomers(w, Put(w, f, cached), v, Put(v, f, cached))
  {
    var w', v' := Put(w, f, cached), Put(v, f, cached);
    assert forall k :: Heard(w', k) == Heard(w, k) && Heard(v', k) == Heard(v, k);
  }

  /** `get` gives the same, and registers the same. */
  lemma {:induction false} GetTwins(w: World, v: World, s: Source)
    requires Valid(w) && Valid(v) && SourceOk(s) && Twins(w, v)
    ensures var ((w', x), (v', y)) := (Sources.Get(w, s), Sources.Get(v, s));
            Twins(w', v') && x == y && SameNewcomers(w, w', v, v')
    decreases Level(s), 1
  {
    match s
    case Const(_) =>
    case Cell(_) =>
    case Map(_, inner) => GetTwins(w, v, inner);
    case Flat(f) =>
      CreateIsValid(w, f);
      CreateIsValid(v, f);
      CreateTwins(w, v, f);
      var w0, v0 := Create(w, f), Create(v, f);
      GetSourceTwins(w0, v0, f);
      var ((w1, source), v1) := (GetSource(w0, f), GetSource(v0, f).0);
      GetTwins(w1, v1, source);
      SameNewcomersInTwo(w, w0, w1, v, v0, v1);
      SameNewcomersInTwo(w, w1, Sources.Get(w1, source).0, v, v1, Sources.Get(v1, source).0);
  }

  lemma {:induction false} GetSourceTwins(w: World, v: World, f: nat)
    requires Valid(w) && Valid(v) && f in w.flats && Twins(w, v)
    ensures var ((w', a), (v', b)) := (GetSource(w, f), GetSource(v, f));
            Twins(w', v') && a == b && SameNewcomers(w, w', v, v')
    decreases f + 1, 0
  {
    var needed := w.flats[f].counted % WRAP;
    var cached := w.flats[f].cached;
    if !(cached.Some? && cached.value.generation == needed) {
      GetTwins(w, v, OuterOf(w, f));
      var ((w1, x), v1) := (Sources.Get(w, OuterOf(w, f)), Sources.Get(v, OuterOf(w, f)).0);
      StoreTwins(w1, v1, f, needed, AsSource(x));
      SameNewcomersInTwo(w, w1, GetSource(w, f).0, v, v1, GetSource(v, f).0);
    }
  }

  // ----- closed gates stay closed

  /** Gates are used in order of their numbers. */
  ghost predicate OnlyNewGates(w: World, w': World) {
    && w'.nextGate >= w.nextGate
    && forall f: nat :: GateStays(w, w', f)
  }

  ghost predicate GateStays(w: World, w': World, f: nat) {
    var (old_, new_) := (FlatAt(w, f).cached, FlatAt(w', f).cached);
    new_ == old_ || (new_.Some? && new_.value.gate >= w.nextGate)
  }

  lemma OnlyNewGatesInTwo(w: World, w1: World, w2: World)
    requires OnlyNewGates(w, w1) && OnlyNewGates(w1, w2)
    ensures OnlyNewGates(w, w2)
  {
    forall f: nat ensures GateStays(w, w2, f) { assert GateStays(w, w1, f) && GateStays(w1, w2, f); }
  }

  lemma {:induction false} GetUsesNewGates(w: World, s: Source)
    requires Valid(w) && SourceOk(s)
    ensures OnlyNewGates(w, Sources.Get(w, s).0)
    decreases Level(s), 1
  {
    match s
    case Const(_) =>
    case Cell(_) =>
    case Map(_, inner) => GetUsesNewGates(w, inner);
    case Flat(f) =>
      CreateIsValid(w, f);
      var w0 := Create(w, f);
      assert OnlyNewGates(w, w0);
      GetSourceUsesNewGates(w0, f);
      var (w1, source) := GetSource(w0, f);
      GetUsesNewGates(w1, source);
      OnlyNewGatesInTwo(w, w0, w1);
      OnlyNewGatesInTwo(w, w1, Sources.Get(w1, source).0);
  }

  lemma StoreUsesNewGate(w: World, f: nat, needed: nat, source: Source)
    ensures OnlyNewGates(w, ListenAndStore(w, f, needed, source).0)
  {
  }

  lemma {:induction false} GetSourceUsesNewGates(w: World, f: nat)
    requires Valid(w) && f in w.flats
    ensures OnlyNewGates(w, GetSource(w, f).0)
    decreases f + 1, 0
  {
    var needed := w.flats[f].counted % WRAP;
    var cached := w.flats[f].cached;
    if !(cached.Some? && cached.value.generation == needed) {
      GetUsesNewGates(w, OuterOf(w, f));
      var (w1, v) := Sources.Get(w, OuterOf(w, f));
      StoreUsesNewGate(w1, f, needed, AsSource(v));
      OnlyNewGatesInTwo(w, w1, GetSource(w, f).0);
    }
  }

  // ----- the open listeners

  lemma {:induction false} OpenAppend(w: World, a: seq<Subscriber>, b: seq<Subscriber>)
    ensures OpenOnes(w, a + b) == OpenOnes(w, a) + OpenOnes(w, b)
  {
    if a == [] {
      assert a + b == b;
    } else {
      assert (a + b)[1..] == a[1..] + b;
      OpenAppend(w, a[1..], b);
    }
  }

  ghost predicate SameGates(w: World, w': World) {
    forall f: nat :: FlatAt(w', f).cached == FlatAt(w, f).cached
  }

  lemma {:induction false} OpenByGates(w: World, w': World, subs: seq<Subscriber>)
    requires SameGates(w, w')
    ensures OpenOnes(w', subs) == OpenOnes(w, subs)
  {
    if subs != [] {
      OpenByGates(w, w', subs[1..]);
      if subs[0].Inner? { assert FlatAt(w', subs[0].f).cached == FlatAt(w, subs[0].f).cached; }
    }
  }

  ghost predicate OldGates(w: World, subs: seq<Subscriber>) {
    forall i :: 0 <= i < |subs| && subs[i].Inner? ==> subs[i].gate < w.nextGate
  }

  /** Of the listeners listed before, some are closed, and none is opened. */
  lemma {:induction false} OpenLater(w: World, w': World, subs: seq<Subscriber>, sub: Subscriber)
    requires OnlyNewGates(w, w') && OldGates(w, subs)
    ensures OpenOnes(w', subs)[sub] == if Closed(w', sub) then 0 else OpenOnes(w, subs)[sub]
  {
    if subs != [] {
      OpenLater(w, w', subs[1..], sub);
      if subs[0].Inner? { assert GateStays(w, w', subs[0].f); }
    }
  }

  lemma OpenOnesLater(w: World, w': World, v: World, v': World, a: seq<Subscriber>, b: seq<Subscriber>)
    requires OnlyNewGates(w, w') && OnlyNewGates(v, v') && OldGates(w, a) && OldGates(v, b)
    requires SameGates(w', v') && OpenOnes(v, b) == OpenOnes(w, a)
    ensures OpenOnes(v', b) == OpenOnes(w', a)
  {
    forall sub ensures OpenOnes(v', b)[sub] == OpenOnes(w', a)[sub] {
      OpenLater(w, w', a, sub);
      OpenLater(v, v', b, sub);
      if sub.Inner? { assert FlatAt(v', sub.f).cached == FlatAt(w', sub.f).cached; }
    }
  }

  // ----- the simulation

  /** A world whose notifiers never sweep, and one whose notifiers do. */
  ghost predicate Alike(w: World, v: World) {
    Valid(w) && Valid(v) && Twins(w, v) && SameOpenOnes(w, v) && Held.GatesOk(w) && Held.GatesOk(v)
  }

  lemma OldGatesOfAll(w: World, n: NotifierId)
    requires Held.GatesOk(w)
    ensures OldGates(w, SubscribersOf(w, n))
  {
    var subs := SubscribersOf(w, n);
    forall i | 0 <= i < |subs| && subs[i].Inner? ensures subs[i].gate < w.nextGate {
      assert Inner(subs[i].f, subs[i].gate) in subs;
    }
  }

  lemma NewcomersKeepOpenOnes(w: World, w': World, v: World, v': World)
    requires SameOpenOnes(w, v) && Held.GatesOk(w) && Held.GatesOk(v) && SameNewcomers(w, w', v, v')
    requires Valid(w') && Valid(v') && v'.flats == w'.flats && OnlyNewGates(w, w') && OnlyNewGates(v, v')
    ensures SameOpenOnes(w', v')
  {
    forall n ensures OpenOnes(v', SubscribersOf(v', n)) == OpenOnes(w', SubscribersOf(w', n)) {
      OldGatesOfAll(w, n);
      OldGatesOfAll(v, n);
      var more := Newcomers(SubscribersOf(w, n), SubscribersOf(w', n), SubscribersOf(v, n), SubscribersOf(v', n));
      NewcomersKeepOpen(w, w', v, v', SubscribersOf(w, n), SubscribersOf(v, n), more);
    }
  }

  lemma Newcomers(a: seq<Subscriber>, a': seq<Subscriber>, b: seq<Subscriber>, b': seq<Subscriber>)
    returns (more: seq<Subscriber>)
    requires NewcomersAlike(a, a', b, b')
    ensures a' == a + more && b' == b + more
  {
    more := a'[|a|..];
  }

  lemma NewcomersKeepOpen(w: World, w': World, v: World, v': World, a: seq<Subscriber>, b: seq<Subscriber>,
                          more: seq<Subscriber>)
    requires OnlyNewGates(w, w') && OnlyNewGates(v, v') && OldGates(w, a) && OldGates(v, b)
    requires v'.flats == w'.flats && OpenOnes(v, b) == OpenOnes(w, a)
    ensures OpenOnes(v', b + more) == OpenOnes(w', a + more)
  {
    assert SameGates(w', v');
    OpenAppend(w', a, more);
    OpenAppend(v', b, more);
    OpenOnesLater(w, w', v, v', a, b);
    OpenByGates(w', v', more);
  }

  lemma NoNewGates(w: World, w': World)
    requires w'.nextGate == w.nextGate && SameGates(w, w')
    ensures OnlyNewGates(w, w')
  {
    forall f: nat ensures GateStays(w, w', f) { assert FlatAt(w', f).cached == FlatAt(w, f).cached; }
  }

  lemma CreateAlike(w: World, v: World, f: nat)
    requires Alike(w, v)
    ensures Twins(Create(w, f), Create(v, f)) && SameOpenOnes(Create(w, f), Create(v, f))
  {
    CreateTwins(w, v, f);
    CreateIsValid(w, f);
    CreateIsValid(v, f);
    NoNewGates(w, Create(w, f));
    NoNewGates(v, Create(v, f));
    NewcomersKeepOpenOnes(w, Create(w, f), v, Create(v, f));
  }

  lemma SubscribeAlike(w: World, v: World, s: Source, k: nat)
    requires Alike(w, v) && SourceOk(s)
    ensures Twins(Listen(w, s, Client(k)), Listen(v, s, Client(k)))
    ensures SameOpenOnes(Listen(w, s, Client(k)), Listen(v, s, Client(k)))
  {
    ListenTwins(w, v, s, Client(k));
    SubscribeUsesNoGate(w, s, k);
    SubscribeUsesNoGate(v, s, k);
    NewcomersKeepOpenOnes(w, Listen(w, s, Client(k)), v, Listen(v, s, Client(k)));
  }

  lemma SubscribeUsesNoGate(w: World, s: Source, k: nat)
    requires Valid(w) && SourceOk(s)
    ensures Valid(Listen(w, s, Client(k))) && OnlyNewGates(w, Listen(w, s, Client(k)))
  {
    ListenKeepsValid(w, s, Client(k));
    NoNewGates(w, Listen(w, s, Client(k)));
  }

  lemma GetAlike(w: World, v: World, s: Source)
    requires Alike(w, v) && SourceOk(s)
    ensures Twins(Sources.Get(w, s).0, Sources.Get(v, s).0) && SameOpenOnes(Sources.Get(w, s).0, Sources.Get(v, s).0)
  {
    GetTwins(w, v, s);
    GetUsesNewGates(w, s);
    GetUsesNewGates(v, s);
    NewcomersKeepOpenOnes(w, Sources.Get(w, s).0, v, Sources.Get(v, s).0);
  }

  lemma SetAlike(w: World, v: World, c: nat, x: Val)
    requires Alike(w, v) && Fits(c, x)
    ensures Twins(SetCell(w, c, x), SetCell(v, c, x)) && SameOpenOnes(SetCell(w, c, x), SetCell(v, c, x))
  {
    var w1, v1 := Written(w, c, x), Written(v, c, x);
    SameGatesSameOpen(w, w1, v, v1);
    assert Twins(w1, v1) by { assert forall k :: Heard(w1, k) == Heard(w, k) && Heard(v1, k) == Heard(v, k); }
    DeliverTwins(w1, v1, OfCell(c));
  }

  lemma DeliverTwins(w: World, v: World, n: NotifierId)
    requires Twins(w, v) && SameOpenOnes(w, v)
    ensures Twins(Deliver(w, n, 0), Deliver(v, n, 0)) && SameOpenOnes(Deliver(w, n, 0), Deliver(v, n, 0))
  {
    var w', v' := Deliver(w, n, 0), Deliver(v, n, 0);
    forall k: nat ensures Heard(v', k) == Heard(w', k) { DeliversAlike(w, v, n, Client(k)); }
    DeliverToFlats(w, v, n);
    SameGatesSameOpen(w, w', v, v');
  }

  lemma DeliverToFlats(w: World, v: World, n: NotifierId)
    requires Twins(w, v) && SameOpenOnes(w, v)
    ensures Deliver(v, n, 0).flats == Deliver(w, n, 0).flats
  {
    var a, b := Deliver(w, n, 0).flats, Deliver(v, n, 0).flats;
    forall f | f in a ensures b[f] == a[f] { DeliverToFlat(w, v, n, f); }
  }

  lemma DeliverToFlat(w: World, v: World, n: NotifierId, f: nat)
    requires Twins(w, v) && SameOpenOnes(w, v) && f in w.flats
    ensures var (a, b) := (Deliver(w, n, 0).flats, Deliver(v, n, 0).flats); f in a && f in b && b[f] == a[f]
  {
    DeliversAlike(w, v, n, Outer(f));
  }

  lemma SameGatesSameOpen(w: World, w': World, v: World, v': World)
    requires SameOpenOnes(w, v) && w'.flats.Keys == w.flats.Keys && v'.flats == w'.flats
    requires SameGates(w, w') && w'.subscribers == w.subscribers && v'.subscribers == v.subscribers
    ensures SameOpenOnes(w', v')
  {
    forall f: nat ensures FlatAt(v', f).cached == FlatAt(v, f).cached {
      assert FlatAt(w', f).cached == FlatAt(w, f).cached;
    }
    forall n ensures OpenOnes(v', SubscribersOf(v', n)) == OpenOnes(w', SubscribersOf(w', n)) {
      OpenByGates(w, w', SubscribersOf(w, n));
      OpenByGates(v, v', SubscribersOf(v, n));
    }
  }

  lemma StepAlike(w: World, v: World, op: Op)
    requires Alike(w, v) && Allowed(op)
    ensures Alike(Step(w, op), Step(v, op))
  {
    StepIsValid(w, op);
    StepIsValid(v, op);
    Held.StepKeepsGates(w, op);
    Held.StepKeepsGates(v, op);
    StepTwins(w, v, op);
  }

  lemma StepTwins(w: World, v: World, op: Op)
    requires Alike(w, v) && Allowed(op)
    ensures Twins(Step(w, op), Step(v, op)) && SameOpenOnes(Step(w, op), Step(v, op))
  {
    match op
    case New(f) => CreateAlike(w, v, f);
    case Get(s) => GetAlike(w, v, s);
    case Set(c, x) => SetAlike(w, v, c, x);
    case SetIfUnequal(c, x) => SetAlike(w, v, c, x);
    case Subscribe(s, k) => SubscribeAlike(w, v, s, k);
  }

  // ----- runs with sweeps

  datatype Doing = Do(op: Op) | Sweep(n: NotifierId, kept: seq<Subscriber>)

  /** The listeners kept are among those listed, in whatever order, and are all that are open. */
  ghost predicate Sweeps(v: World, n: NotifierId, kept: seq<Subscriber>) {
    && multiset(kept) <= multiset(SubscribersOf(v, n))
    && OpenOnes(v, kept) == OpenOnes(v, SubscribersOf(v, n))
  }

  /** A sweep that drops somebody it should keep is passed over. */
  ghost function Swept(v: World, n: NotifierId, kept: seq<Subscriber>): World {
    if Sweeps(v, n, kept) then v.(subscribers := v.subscribers[n := kept]) else v
  }

  lemma {:induction false} OpenHas(v: World, subs: seq<Subscriber>, sub: Subscriber)
    requires sub in subs && !Closed(v, sub)
    ensures sub in OpenOnes(v, subs)
  {
    if subs[0] != sub { OpenHas(v, subs[1..], sub); }
  }

  lemma SweptIsValid(v: World, n: NotifierId, kept: seq<Subscriber>)
    requires Valid(v)
    ensures Valid(Swept(v, n, kept))
  {
    var v' := Swept(v, n, kept);
    if Sweeps(v, n, kept) {
      KeptAreListed(v, n, kept);
      forall f | f in v'.flats ensures Subscribed(v', OuterOf(v', f), Outer(f)) {
        assert Subscribed(v, OuterOf(v, f), Outer(f));
        if Base(OuterOf(v, f)) == Some(n) {
          OpenHas(v, SubscribersOf(v, n), Outer(f));
          var i := OpenMember(v, kept, Outer(f));
        }
      }
    }
  }

  lemma KeptAreListed(v: World, n: NotifierId, kept: seq<Subscriber>)
    requires Sweeps(v, n, kept)
    ensures forall sub :: sub in kept ==> sub in SubscribersOf(v, n)
    ensures SubscribersOk(v) ==> SubscribersOk(Swept(v, n, kept))
  {
    forall sub | sub in kept ensures sub in SubscribersOf(v, n) {
      assert sub in multiset(kept);
      assert sub in multiset(SubscribersOf(v, n));
    }
    if SubscribersOk(v) {
      forall i | 0 <= i < |kept| ensures Upward(n, v.flats.Keys, kept[i]) {
        assert kept[i] in kept;
        var j :| 0 <= j < |SubscribersOf(v, n)| && SubscribersOf(v, n)[j] == kept[i];
      }
    }
  }

  ghost function Run(v: World, doings: seq<Doing>): (v': World)
    requires Valid(v) && forall d :: d in doings && d.Do? ==> Allowed(d.op)
    ensures Valid(v')
    decreases |doings|
  {
    if doings == [] then v
    else
      match doings[0]
      case Do(op) => StepIsValid(v, op); Run(Step(v, op), doings[1..])
      case Sweep(n, kept) => SweptIsValid(v, n, kept); Run(Swept(v, n, kept), doings[1..])
  }

  ghost function Ops(doings: seq<Doing>): (ops: seq<Op>)
    ensures forall op :: op in ops ==> Do(op) in doings
  {
    if doings == [] then []
    else (match doings[0] case Do(op) => [op] case Sweep(_, _) => []) + Ops(doings[1..])
  }

  lemma SweptAlike(w: World, v: World, n: NotifierId, kept: seq<Subscriber>)
    requires Alike(w, v)
    ensures Alike(w, Swept(v, n, kept))
  {
    SweptIsValid(v, n, kept);
    if Sweeps(v, n, kept) {
      SweptKeepsGates(v, n, kept);
      SweptKeepsOpenOnes(v, n, kept);
      assert forall k :: Heard(Swept(v, n, kept), k) == Heard(v, k);
    }
  }

  lemma SweptKeepsGates(v: World, n: NotifierId, kept: seq<Subscriber>)
    requires Held.GatesOk(v) && Sweeps(v, n, kept)
    ensures Held.GatesOk(Swept(v, n, kept))
  {
    var v' := Swept(v, n, kept);
    KeptAreListed(v, n, kept);
    assert forall m, sub :: sub in SubscribersOf(v', m) ==> sub in SubscribersOf(v, m);
    forall f: nat ensures Held.GateOk(v', f) { assert Held.GateOk(v, f); }
  }

  lemma SweptKeepsOpenOnes(v: World, n: NotifierId, kept: seq<Subscriber>)
    requires Sweeps(v, n, kept)
    ensures var v' := Swept(v, n, kept);
            forall m :: OpenOnes(v', SubscribersOf(v', m)) == OpenOnes(v, SubscribersOf(v, m))
  {
    var v' := Swept(v, n, kept);
    forall m ensures OpenOnes(v', SubscribersOf(v', m)) == OpenOnes(v, SubscribersOf(v, m)) {
      OpenByGates(v, v', SubscribersOf(v', m));
    }
  }

  lemma {:induction false} RunAlike(w: World, v: World, doings: seq<Doing>)
    requires Alike(w, v) && forall d :: d in doings && d.Do? ==> Allowed(d.op)
    ensures Alike(SourceRuns.Run(w, Ops(doings)), Run(v, doings))
    decreases |doings|
  {
    if doings != [] {
      match doings[0]
      case Do(op) =>
        StepAlike(w, v, op);
        RunAlike(Step(w, op), Step(v, op), doings[1..]);
        assert Ops(doings)[0] == op && Ops(doings)[1..] == Ops(doings[1..]);
      case Sweep(n, kept) =>
        SweptAlike(w, v, n, kept);
        RunAlike(w, Swept(v, n, kept), doings[1..]);
        assert Ops(doings) == Ops(doings[1..]);
    }
  }

  /** In every run, whichever notifiers drop whichever listeners behind closed gates, and reorder the
      others, at whatever times: every source is worth the same and every `get` gives the same, every
      client has been notified as often, and every flatten node is in the same state, as if no
      notifier ever swept (src/notifier.rs:332-392). */
  lemma SweepingIsInvisible(w: World, doings: seq<Doing>, s: Source)
    requires Initial(w) && (forall d :: d in doings && d.Do? ==> Allowed(d.op)) && SourceOk(s)
    ensures var (w', v') := (SourceRuns.Run(w, Ops(doings)), Run(w, doings));
            && Sources.Get(v', s).1 == Sources.Get(w', s).1
            && (forall k :: Heard(v', k) == Heard(w', k))
            && v'.flats == w'.flats && v'.cells == w'.cells
  {
    var w', v' := SourceRuns.Run(w, Ops(doings)), Run(w, doings);
    RunAlike(w, w, doings);
    GetTwins(w', v', s);
  }
}
