/** Who is registered where, counted; and so, exactly how often a set is heard: once for each way in
    which what the client subscribed to depends on the cell. */
module SourceDependencies {
  import opened Wrappers
  import opened Sources
  import opened SourceLaws
  import opened SourceRuns
  import opened SourceWays
  import Held = SourceListening

  // ----- every listener is registered once

  ghost function Listed(w: World, n: NotifierId, sub: Subscriber): nat { multiset(SubscribersOf(w, n))[sub] }

  /** Where the outer listener of `f` belongs, and where the inner one does. */
  function Outside(w: World, f: nat): Option<NotifierId> {
    if f in w.flats && f in w.outers then Base(w.outers[f]) else None
  }

  function Inside(w: World, f: nat): Option<NotifierId> {
    if f in w.flats && w.flats[f].cached.Some? then Base(w.flats[f].cached.value.source) else None
  }

  /** A flatten node that exists has one outer listener, where its outer source is, and none elsewhere. */
  ghost predicate OuterOnce(w: World, f: nat) {
    forall n :: Listed(w, n, Outer(f)) == if Outside(w, f) == Some(n) then 1 else 0
  }

  /** Behind the gate it holds it has one inner listener, where the cached source is, and none elsewhere. */
  ghost predicate InnerOnce(w: World, f: nat) {
    FlatAt(w, f).cached.Some? ==>
      forall n :: Listed(w, n, Inner(f, FlatAt(w, f).cached.value.gate)) == if Inside(w, f) == Some(n) then 1 else 0
  }

  ghost predicate AllOnce(w: World) {
    forall f: nat :: OuterOnce(w, f) && InnerOnce(w, f)
  }

  lemma ListenLists(w: World, s: Source, sub: Subscriber, n: NotifierId, x: Subscriber)
    ensures Listed(Listen(w, s, sub), n, x) == Listed(w, n, x) + if Base(s) == Some(n) && x == sub then 1 else 0
  {
  }

  /** `sub` has come, at `at`, and nobody else. */
  ghost predicate Joins(w: World, w': World, at: Option<NotifierId>, sub: Subscriber) {
    forall n, x :: Listed(w', n, x) == Listed(w, n, x) + if at == Some(n) && x == sub then 1 else 0
  }

  lemma OuterStaysOnce(w: World, w': World, at: Option<NotifierId>, sub: Subscriber, g: nat)
    requires Joins(w, w', at, sub) && OuterOnce(w, g)
    requires if sub == Outer(g) then Outside(w, g) == None && Outside(w', g) == at else Outside(w', g) == Outside(w, g)
    ensures OuterOnce(w', g)
  {
  }

  lemma InnerStaysOnce(w: World, w': World, at: Option<NotifierId>, sub: Subscriber, g: nat)
    requires Joins(w, w', at, sub) && InnerOnce(w, g) && Inside(w', g) == Inside(w, g)
    requires FlatAt(w', g).cached == FlatAt(w, g).cached
    requires FlatAt(w, g).cached.Some? ==> sub != Inner(g, FlatAt(w, g).cached.value.gate)
    ensures InnerOnce(w', g)
  {
  }

  lemma NewInnerOnce(w: World, w': World, at: Option<NotifierId>, sub: Subscriber, g: nat)
    requires Joins(w, w', at, sub) && FlatAt(w', g).cached.Some? && sub == Inner(g, FlatAt(w', g).cached.value.gate)
    requires at == Inside(w', g) && forall n :: Listed(w, n, sub) == 0
    ensures InnerOnce(w', g)
  {
  }

  lemma ListenJoins(w: World, s: Source, sub: Subscriber)
    ensures Joins(w, Listen(w, s, sub), Base(s), sub)
  {
    forall n, x
      ensures Listed(Listen(w, s, sub), n, x) == Listed(w, n, x) + if Base(s) == Some(n) && x == sub then 1 else 0
    {
      ListenLists(w, s, sub, n, x);
    }
  }

  lemma JoinsAlike(w: World, w1: World, v: World, v1: World, at: Option<NotifierId>, sub: Subscriber)
    requires Joins(w, w1, at, sub) && v.subscribers == w.subscribers && v1.subscribers == w1.subscribers
    ensures Joins(v, v1, at, sub)
  {
    forall n, x ensures Listed(v1, n, x) == Listed(v, n, x) + if at == Some(n) && x == sub then 1 else 0 {
      assert Listed(w1, n, x) == Listed(w, n, x) + if at == Some(n) && x == sub then 1 else 0;
    }
  }

  lemma CreateJoins(w: World, f: nat)
    requires f !in w.flats
    ensures Joins(w, Create(w, f), Outside(Create(w, f), f), Outer(f)) && Outside(w, f) == None
  {
    var w0 := w.(flats := w.flats[f := FlatState(0, None)]);
    ListenJoins(w0, OuterOf(w, f), Outer(f));
    JoinsAlike(w0, Create(w, f), w, Create(w, f), Base(OuterOf(w, f)), Outer(f));
  }

  lemma CreateListsOnce(w: World, f: nat)
    requires AllOnce(w)
    ensures AllOnce(Create(w, f))
  {
    if f !in w.flats {
      var w' := Create(w, f);
      CreateJoins(w, f);
      forall g: nat ensures OuterOnce(w', g) && InnerOnce(w', g) {
        assert OuterOnce(w, g) && InnerOnce(w, g);
        OuterStaysOnce(w, w', Outside(w', f), Outer(f), g);
        InnerStaysOnce(w, w', Outside(w', f), Outer(f), g);
      }
    }
  }

  lemma NoSuchGateYet(w: World, f: nat, n: NotifierId)
    requires Held.GatesOk(w)
    ensures Listed(w, n, Inner(f, w.nextGate)) == 0
  {
    assert Inner(f, w.nextGate) !in SubscribersOf(w, n);
  }

  lemma StoreJoins(w: World, f: nat, needed: nat, source: Source)
    ensures Joins(w, ListenAndStore(w, f, needed, source).0, Base(source), Inner(f, w.nextGate))
  {
    var w' := ListenAndStore(w, f, needed, source).0;
    ListenJoins(NewGate(w), source, Inner(f, w.nextGate));
    JoinsAlike(NewGate(w), Attach(w, f, source), w, w', Base(source), Inner(f, w.nextGate));
  }

  lemma StoreListsOnce(w: World, f: nat, needed: nat, source: Source)
    requires f in w.flats && AllOnce(w) && Held.GatesOk(w)
    ensures AllOnce(ListenAndStore(w, f, needed, source).0)
  {
    var (w', sub) := (ListenAndStore(w, f, needed, source).0, Inner(f, w.nextGate));
    StoreJoins(w, f, needed, source);
    forall g: nat ensures OuterOnce(w', g) && InnerOnce(w', g) {
      assert OuterOnce(w, g) && InnerOnce(w, g) && Held.GateOk(w, g);
      StoreCachesOne(w, f, needed, source, g);
      OuterStaysOnce(w, w', Base(source), sub, g);
      if FlatAt(w', g).cached == FlatAt(w, g).cached {
        InnerStaysOnce(w, w', Base(source), sub, g);
      } else {
        forall n ensures Listed(w, n, sub) == 0 { NoSuchGateYet(w, f, n); }
        NewInnerOnce(w, w', Base(source), sub, g);
      }
    }
  }

  lemma StoreCachesOne(w: World, f: nat, needed: nat, source: Source, g: nat)
    requires f in w.flats
    ensures var w' := ListenAndStore(w, f, needed, source).0;
            && Outside(w', g) == Outside(w, g)
            && if FlatAt(w', g).cached == FlatAt(w, g).cached then Inside(w', g) == Inside(w, g)
               else g == f && FlatAt(w', g).cached == Some(Cached(0, source, w.nextGate))
  {
  }

  lemma {:induction false} GetListsOnce(w: World, s: Source)
    requires Valid(w) && SourceOk(s) && AllOnce(w) && Held.GatesOk(w)
    ensures AllOnce(Sources.Get(w, s).0) && Held.GatesOk(Sources.Get(w, s).0)
    decreases Level(s), 1
  {
    Held.GetKeepsGates(w, s);
    match s
    case Const(_) =>
    case Cell(_) =>
    case Map(_, inner) => GetListsOnce(w, inner);
    case Flat(f) =>
      CreateIsValid(w, f);
      CreateListsOnce(w, f);
      Held.CreateKeepsGates(w, f);
      GetSourceListsOnce(Create(w, f), f);
      var (w1, source) := GetSource(Create(w, f), f);
      GetListsOnce(w1, source);
  }

  lemma {:induction false} GetSourceListsOnce(w: World, f: nat)
    requires Valid(w) && f in w.flats && AllOnce(w) && Held.GatesOk(w)
    ensures AllOnce(GetSource(w, f).0) && Held.GatesOk(GetSource(w, f).0)
    decreases f + 1, 0
  {
    Held.GetSourceKeepsGates(w, f);
    var needed := w.flats[f].counted % WRAP;
    var cached := w.flats[f].cached;
    if !(cached.Some? && cached.value.generation == needed) {
      GetListsOnce(w, OuterOf(w, f));
      var (w1, v) := Sources.Get(w, OuterOf(w, f));
      StoreListsOnce(w1, f, needed, AsSource(v));
    }
  }

  lemma SameListsOnce(w: World, w': World)
    requires AllOnce(w) && w'.subscribers == w.subscribers && w'.outers == w.outers && w'.flats.Keys == w.flats.Keys
    requires forall f :: f in w.flats ==> w'.flats[f].cached == w.flats[f].cached
    ensures AllOnce(w')
  {
    forall f: nat ensures OuterOnce(w', f) && InnerOnce(w', f) {
      assert OuterOnce(w, f) && InnerOnce(w, f);
      assert forall n, x :: Listed(w', n, x) == Listed(w, n, x);
    }
  }

  lemma SubscribeListsOnce(w: World, s: Source, k: nat)
    requires AllOnce(w)
    ensures AllOnce(Listen(w, s, Client(k)))
  {
    var w' := Listen(w, s, Client(k));
    ListenJoins(w, s, Client(k));
    forall f: nat ensures OuterOnce(w', f) && InnerOnce(w', f) {
      assert OuterOnce(w, f) && InnerOnce(w, f) && w'.flats == w.flats;
      OuterStaysOnce(w, w', Base(s), Client(k), f);
      InnerStaysOnce(w, w', Base(s), Client(k), f);
    }
  }

  lemma StepListsOnce(w: World, op: Op)
    requires Valid(w) && Allowed(op) && AllOnce(w) && Held.GatesOk(w)
    ensures AllOnce(Step(w, op)) && Held.GatesOk(Step(w, op))
  {
    Held.StepKeepsGates(w, op);
    match op
    case New(f) => CreateListsOnce(w, f);
    case Get(s) => GetListsOnce(w, s);
    case Set(c, v) => SetIsValid(w, c, v); SameListsOnce(w, SetCell(w, c, v));
    case SetIfUnequal(c, v) => SetIsValid(w, c, v); SameListsOnce(w, SetCellIfUnequal(w, c, v));
    case Subscribe(s, k) => SubscribeListsOnce(w, s, k);
  }

  lemma {:induction false} RunListsOnce(w: World, ops: seq<Op>)
    requires Valid(w) && AllOnce(w) && Held.GatesOk(w) && forall op :: op in ops ==> Allowed(op)
    ensures AllOnce(Run(w, ops))
    decreases |ops|
  {
    if ops != [] {
      StepIsValid(w, ops[0]);
      StepListsOnce(w, ops[0]);
      RunListsOnce(Step(w, ops[0]), ops[1..]);
    }
  }

  /** In every run: each flatten node that exists is registered exactly once with its outer source, and
      behind the gate it holds exactly once with the source it holds, and nowhere else
      (src/source/flatten.rs:78-80, 103-107). */
  lemma RegisteredOnce(w: World, ops: seq<Op>, f: nat, n: NotifierId)
    requires Initial(w) && forall op :: op in ops ==> Allowed(op)
    ensures var w' := Run(w, ops);
            && Listed(w', n, Outer(f)) == (if Outside(w', f) == Some(n) then 1 else 0)
            && (FlatAt(w', f).cached.Some? ==>
                  Listed(w', n, Inner(f, FlatAt(w', f).cached.value.gate)) == if Inside(w', f) == Some(n) then 1 else 0)
  {
    RunListsOnce(w, ops);
    assert OuterOnce(Run(w, ops), f) && InnerOnce(Run(w, ops), f);
  }

  // ----- forwards: how often a notification arrives somewhere

  /** How often `m` is notified when `n` is notified once. */
  ghost function Arrivals(w: World, n: NotifierId, m: NotifierId): nat
    requires SubscribersOk(w)
    decreases Above(w, n), |SubscribersOf(w, n)| + 1
  {
    (if n == m then 1 else 0) + Through(w, n, SubscribersOf(w, n), m)
  }

  /** By way of the listeners `subs` of `n`. */
  ghost function Through(w: World, n: NotifierId, subs: seq<Subscriber>, m: NotifierId): nat
    requires SubscribersOk(w) && AllUpward(w, n, subs)
    decreases Above(w, n), |subs|
  {
    if subs == [] then 0
    else
      var sub := subs[0];
      assert Upward(n, w.flats.Keys, sub);
      assert !sub.Client? ==> sub.f in Above(w, n) && sub.f !in Above(w, OfFlat(sub.f));
      (if sub.Client? || Closed(w, sub) then 0 else Arrivals(w, OfFlat(sub.f), m)) + Through(w, n, subs[1..], m)
  }

  /** Notifications go upwards, to nodes that exist. */
  lemma {:induction false} NeverArrives(w: World, n: NotifierId, subs: seq<Subscriber>, m: NotifierId)
    requires SubscribersOk(w) && AllUpward(w, n, subs) && (m.OfCell? || m.f !in w.flats || m.f <= Rank(n))
    ensures Through(w, n, subs, m) == 0
    decreases Above(w, n), |subs|
  {
    if subs != [] {
      var sub := subs[0];
      assert Upward(n, w.flats.Keys, sub);
      if !sub.Client? {
        assert sub.f in Above(w, n) && sub.f !in Above(w, OfFlat(sub.f));
        NeverArrives(w, OfFlat(sub.f), SubscribersOf(w, OfFlat(sub.f)), m);
      }
      NeverArrives(w, n, subs[1..], m);
    }
  }

  // ----- backwards: what a node is notified by

  ghost function ArrivalsAt(w: World, n: NotifierId, m: Option<NotifierId>): nat
    requires SubscribersOk(w)
  {
    if m.Some? then Arrivals(w, n, m.value) else 0
  }

  ghost function ThroughTo(w: World, n: NotifierId, subs: seq<Subscriber>, m: Option<NotifierId>): nat
    requires SubscribersOk(w) && AllUpward(w, n, subs)
  {
    if m.Some? then Through(w, n, subs, m.value) else 0
  }

  /** The listeners among `subs` by which `f` is notified. */
  ghost function Doors(w: World, subs: seq<Subscriber>, f: nat): nat {
    multiset(subs)[Outer(f)]
    + match FlatAt(w, f).cached
      case None => 0
      case Some(cached) => multiset(subs)[Inner(f, cached.gate)]
  }

  lemma DoorsOneMore(w: World, subs: seq<Subscriber>, f: nat)
    requires subs != []
    ensures var sub := subs[0];
            Doors(w, subs, f) == Doors(w, subs[1..], f) + if !sub.Client? && !Closed(w, sub) && sub.f == f then 1 else 0
  {
    assert subs == [subs[0]] + subs[1..];
    assert multiset(subs) == multiset{subs[0]} + multiset(subs[1..]);
  }

  /** A node is notified by its doors, or by whatever notifies what is behind them. */
  lemma {:induction false} ThroughDoors(w: World, n: NotifierId, subs: seq<Subscriber>, f: nat)
    requires SubscribersOk(w) && AllUpward(w, n, subs) && AllOnce(w) && f in w.flats
    ensures Through(w, n, subs, OfFlat(f))
         == Doors(w, subs, f) + ThroughTo(w, n, subs, Outside(w, f)) + ThroughTo(w, n, subs, Inside(w, f))
    decreases Above(w, n), |subs|, 0
  {
    if subs != [] {
      var sub := subs[0];
      assert Upward(n, w.flats.Keys, sub);
      if !sub.Client? {
        assert sub.f in Above(w, n) && sub.f !in Above(w, OfFlat(sub.f));
        ArrivalsBackwards(w, OfFlat(sub.f), f);
      }
      ThroughDoors(w, n, subs[1..], f);
      DoorsOneMore(w, subs, f);
      ThroughFirst(w, n, subs, Some(OfFlat(f)));
      ThroughFirst(w, n, subs, Outside(w, f));
      ThroughFirst(w, n, subs, Inside(w, f));
    }
  }

  lemma ThroughFirst(w: World, n: NotifierId, subs: seq<Subscriber>, m: Option<NotifierId>)
    requires SubscribersOk(w) && AllUpward(w, n, subs) && subs != []
    ensures ThroughTo(w, n, subs, m)
         == (if subs[0].Client? || Closed(w, subs[0]) then 0 else ArrivalsAt(w, OfFlat(subs[0].f), m))
            + ThroughTo(w, n, subs[1..], m)
  {
  }

  lemma {:induction false} ArrivalsBackwards(w: World, n: NotifierId, f: nat)
    requires SubscribersOk(w) && AllOnce(w) && f in w.flats
    ensures Arrivals(w, n, OfFlat(f))
         == (if n == OfFlat(f) then 1 else 0) + ArrivalsAt(w, n, Outside(w, f)) + ArrivalsAt(w, n, Inside(w, f))
    decreases Above(w, n), |SubscribersOf(w, n)| + 1, 0
  {
    ThroughDoors(w, n, SubscribersOf(w, n), f);
    assert OuterOnce(w, f) && InnerOnce(w, f);
    assert Doors(w, SubscribersOf(w, n), f)
        == (if Outside(w, f) == Some(n) then 1 else 0) + if Inside(w, f) == Some(n) then 1 else 0;
  }

  /** In how many ways `s` depends on cell `c`: through the functions of `map`, and through the outer
      source of each flatten node and the inner source that it holds. */
  ghost function Dependencies(w: World, s: Source, c: nat): nat
    requires Valid(w) && SourceOk(s)
    decreases Level(s)
  {
    match s
    case Const(_) => 0
    case Cell(d) => if d == c then 1 else 0
    case Map(_, inner) => Dependencies(w, inner, c)
    case Flat(f) =>
      if f !in w.flats then 0
      else
        (if f in w.outers then Dependencies(w, w.outers[f], c) else 0)
        + match w.flats[f].cached
          case None => 0
          case Some(cached) => Dependencies(w, cached.source, c)
  }

  lemma {:induction false} ArrivalsAreDependencies(w: World, s: Source, c: nat)
    requires Valid(w) && AllOnce(w) && SourceOk(s)
    ensures ArrivalsAt(w, OfCell(c), Base(s)) == Dependencies(w, s, c)
    decreases Level(s)
  {
    match s
    case Const(_) =>
    case Cell(d) => NeverArrives(w, OfCell(c), SubscribersOf(w, OfCell(c)), OfCell(d));
    case Map(_, inner) => ArrivalsAreDependencies(w, inner, c);
    case Flat(f) =>
      if f in w.flats {
        ArrivalsBackwards(w, OfCell(c), f);
        if f in w.outers { ArrivalsAreDependencies(w, w.outers[f], c); }
        if w.flats[f].cached.Some? { ArrivalsAreDependencies(w, w.flats[f].cached.value.source, c); }
      } else {
        NeverArrives(w, OfCell(c), SubscribersOf(w, OfCell(c)), OfFlat(f));
      }
  }

  // ----- clients

  /** What client `k` has subscribed to. */
  ghost function Subscriptions(ops: seq<Op>, k: nat): (sources: seq<Source>)
    requires forall op :: op in ops ==> Allowed(op)
    ensures forall s :: s in sources ==> SourceOk(s)
    decreases |ops|
  {
    if ops == [] then []
    else
      assert Allowed(ops[0]);
      (match ops[0] case Subscribe(s, k') => (if k' == k then [s] else []) case _ => []) + Subscriptions(ops[1..], k)
  }

  /** How many of `sources` are notified by `n` itself. */
  ghost function ListedBy(sources: seq<Source>, n: NotifierId): nat {
    if sources == [] then 0 else (if Base(sources[0]) == Some(n) then 1 else 0) + ListedBy(sources[1..], n)
  }

  ghost function TotalThrough(w: World, n: NotifierId, subs: seq<Subscriber>, sources: seq<Source>): nat
    requires SubscribersOk(w) && AllUpward(w, n, subs)
  {
    if sources == [] then 0 else ThroughTo(w, n, subs, Base(sources[0])) + TotalThrough(w, n, subs, sources[1..])
  }

  ghost function TotalArrivals(w: World, n: NotifierId, sources: seq<Source>): nat
    requires SubscribersOk(w)
  {
    if sources == [] then 0 else ArrivalsAt(w, n, Base(sources[0])) + TotalArrivals(w, n, sources[1..])
  }

  lemma {:induction false} TotalArrivalsAre(w: World, n: NotifierId, sources: seq<Source>)
    requires SubscribersOk(w)
    ensures TotalArrivals(w, n, sources)
         == ListedBy(sources, n) + TotalThrough(w, n, SubscribersOf(w, n), sources)
  {
    if sources != [] { TotalArrivalsAre(w, n, sources[1..]); }
  }

  lemma {:induction false} TotalThroughNobody(w: World, n: NotifierId, sources: seq<Source>)
    requires SubscribersOk(w)
    ensures TotalThrough(w, n, [], sources) == 0
  {
    if sources != [] { TotalThroughNobody(w, n, sources[1..]); }
  }

  lemma {:induction false} TotalThroughFirst(w: World, n: NotifierId, subs: seq<Subscriber>, sources: seq<Source>)
    requires SubscribersOk(w) && AllUpward(w, n, subs) && subs != []
    ensures Upward(n, w.flats.Keys, subs[0])
    ensures TotalThrough(w, n, subs, sources)
         == (if subs[0].Client? || Closed(w, subs[0]) then 0 else TotalArrivals(w, OfFlat(subs[0].f), sources))
            + TotalThrough(w, n, subs[1..], sources)
  {
    assert Upward(n, w.flats.Keys, subs[0]);
    if sources != [] { TotalThroughFirst(w, n, subs, sources[1..]); }
  }

  /** Client `k` is listed once for each of `sources`. */
  ghost predicate ListedFor(w: World, k: nat, sources: seq<Source>) {
    forall n :: Listed(w, n, Client(k)) == ListedBy(sources, n)
  }

  lemma {:induction false} WaysAreArrivals(w: World, n: NotifierId, subs: seq<Subscriber>, k: nat,
                                           sources: seq<Source>)
    requires SubscribersOk(w) && AllUpward(w, n, subs) && ListedFor(w, k, sources)
    ensures Ways(w, n, subs, Client(k)) == multiset(subs)[Client(k)] + TotalThrough(w, n, subs, sources)
    decreases Above(w, n), |subs|
  {
    if subs == [] {
      TotalThroughNobody(w, n, sources);
    } else {
      var sub := subs[0];
      assert Upward(n, w.flats.Keys, sub);
      if !sub.Client? && !Closed(w, sub) {
        assert sub.f in Above(w, n) && sub.f !in Above(w, OfFlat(sub.f));
        WaysAreArrivals(w, OfFlat(sub.f), SubscribersOf(w, OfFlat(sub.f)), k, sources);
        TotalArrivalsAre(w, OfFlat(sub.f), sources);
        assert Listed(w, OfFlat(sub.f), Client(k)) == ListedBy(sources, OfFlat(sub.f));
      }
      WaysAreArrivals(w, n, subs[1..], k, sources);
      TotalThroughFirst(w, n, subs, sources);
      assert subs == [sub] + subs[1..];
      assert multiset(subs) == multiset{sub} + multiset(subs[1..]);
    }
  }

  ghost function TotalDependencies(w: World, sources: seq<Source>, c: nat): nat
    requires Valid(w) && forall s :: s in sources ==> SourceOk(s)
  {
    if sources == [] then 0 else Dependencies(w, sources[0], c) + TotalDependencies(w, sources[1..], c)
  }

  lemma {:induction false} TotalsAreDependencies(w: World, sources: seq<Source>, c: nat)
    requires Valid(w) && AllOnce(w) && forall s :: s in sources ==> SourceOk(s)
    ensures TotalArrivals(w, OfCell(c), sources) == TotalDependencies(w, sources, c)
  {
    if sources != [] {
      ArrivalsAreDependencies(w, sources[0], c);
      TotalsAreDependencies(w, sources[1..], c);
    }
  }

  lemma HeardPerDependency(w: World, c: nat, v: Val, k: nat, sources: seq<Source>)
    requires Valid(w) && AllOnce(w) && ListedFor(w, k, sources) && forall s :: s in sources ==> SourceOk(s)
    ensures Heard(SetCell(w, c, v), k) == Heard(w, k) + TotalDependencies(w, sources, c)
  {
    Held.HeardOncePerWay(w, c, v, k);
    WaysAreArrivals(w, OfCell(c), SubscribersOf(w, OfCell(c)), k, sources);
    TotalArrivalsAre(w, OfCell(c), sources);
    TotalsAreDependencies(w, sources, c);
    assert Listed(w, OfCell(c), Client(k)) == ListedBy(sources, OfCell(c));
  }

  // ----- runs

  lemma {:induction false} GetListsNoClient(w: World, s: Source, n: NotifierId, k: nat)
    requires Valid(w) && SourceOk(s)
    ensures Listed(Sources.Get(w, s).0, n, Client(k)) == Listed(w, n, Client(k))
    decreases Level(s), 1
  {
    match s
    case Const(_) =>
    case Cell(_) =>
    case Map(_, inner) => GetListsNoClient(w, inner, n, k);
    case Flat(f) =>
      CreateIsValid(w, f);
      CreateListsNoClient(w, f, n, k);
      GetSourceListsNoClient(Create(w, f), f, n, k);
      var (w1, source) := GetSource(Create(w, f), f);
      GetListsNoClient(w1, source, n, k);
  }

  lemma CreateListsNoClient(w: World, f: nat, n: NotifierId, k: nat)
    ensures Listed(Create(w, f), n, Client(k)) == Listed(w, n, Client(k))
  {
    if f !in w.flats { CreateJoins(w, f); }
  }

  lemma {:induction false} GetSourceListsNoClient(w: World, f: nat, n: NotifierId, k: nat)
    requires Valid(w) && f in w.flats
    ensures Listed(GetSource(w, f).0, n, Client(k)) == Listed(w, n, Client(k))
    decreases f + 1, 0
  {
    var needed := w.flats[f].counted % WRAP;
    var cached := w.flats[f].cached;
    if !(cached.Some? && cached.value.generation == needed) {
      GetListsNoClient(w, OuterOf(w, f), n, k);
      var (w1, v) := Sources.Get(w, OuterOf(w, f));
      StoreListsNoClient(w1, f, needed, AsSource(v), n, k);
    }
  }

  lemma StoreListsNoClient(w: World, f: nat, needed: nat, source: Source, n: NotifierId, k: nat)
    ensures Listed(ListenAndStore(w, f, needed, source).0, n, Client(k)) == Listed(w, n, Client(k))
  {
    StoreJoins(w, f, needed, source);
    NoClientJoins(w, ListenAndStore(w, f, needed, source).0, Base(source), Inner(f, w.nextGate), n, k);
  }

  lemma NoClientJoins(w: World, w': World, at: Option<NotifierId>, sub: Subscriber, n: NotifierId, k: nat)
    requires Joins(w, w', at, sub) && !sub.Client?
    ensures Listed(w', n, Client(k)) == Listed(w, n, Client(k))
  {
  }

  lemma StepLists(w: World, op: Op, n: NotifierId, k: nat)
    requires Valid(w) && Allowed(op)
    ensures Listed(Step(w, op), n, Client(k))
         == Listed(w, n, Client(k)) + if op.Subscribe? && op.client == k && Base(op.s) == Some(n) then 1 else 0
  {
    match op
    case New(f) => CreateListsNoClient(w, f, n, k);
    case Get(s) => GetListsNoClient(w, s, n, k);
    case Set(_, _) =>
    case SetIfUnequal(_, _) =>
    case Subscribe(s, k') => ListenLists(w, s, Client(k'), n, Client(k));
  }

  lemma {:induction false} RunLists(w: World, ops: seq<Op>, n: NotifierId, k: nat)
    requires Valid(w) && forall op :: op in ops ==> Allowed(op)
    ensures Listed(Run(w, ops), n, Client(k)) == Listed(w, n, Client(k)) + ListedBy(Subscriptions(ops, k), n)
    decreases |ops|
  {
    if ops != [] {
      StepIsValid(w, ops[0]);
      StepLists(w, ops[0], n, k);
      RunLists(Step(w, ops[0]), ops[1..], n, k);
      SubscriptionsFirst(ops, k, n);
    }
  }

  lemma SubscriptionsFirst(ops: seq<Op>, k: nat, n: NotifierId)
    requires ops != [] && forall op :: op in ops ==> Allowed(op)
    ensures ListedBy(Subscriptions(ops, k), n)
         == (if ops[0].Subscribe? && ops[0].client == k && Base(ops[0].s) == Some(n) then 1 else 0)
            + ListedBy(Subscriptions(ops[1..], k), n)
  {
    var later := Subscriptions(ops[1..], k);
    if ops[0].Subscribe? && ops[0].client == k {
      assert ([ops[0].s] + later)[1..] == later;
    } else {
      assert [] + later == later;
    }
  }

  /** Exactly how often a set is heard: after any run, for any client, whatever it has subscribed to and
      however often, once for each way in which that depends on the cell. */
  lemma HeardOncePerDependency(w: World, ops: seq<Op>, c: nat, v: Val, k: nat)
    requires Initial(w) && forall op :: op in ops ==> Allowed(op)
    ensures var w' := Run(w, ops);
            Heard(SetCell(w', c, v), k) == Heard(w', k) + TotalDependencies(w', Subscriptions(ops, k), c)
  {
    RunListsOnce(w, ops);
    forall n ensures Listed(Run(w, ops), n, Client(k)) == ListedBy(Subscriptions(ops, k), n) { RunLists(w, ops, n, k); }
    HeardPerDependency(Run(w, ops), c, v, k, Subscriptions(ops, k));
  }

  /** A flatten node that has been created, or got, exists from then on. */
  lemma {:induction false} CreatedNodesExist(w: World, ops: seq<Op>, f: nat)
    requires Valid(w) && (forall op :: op in ops ==> Allowed(op))
    ensures f in w.flats || New(f) in ops || Op.Get(Flat(f)) in ops ==> f in Run(w, ops).flats
    decreases |ops|
  {
    if ops != [] {
      StepIsValid(w, ops[0]);
      StepCreates(w, ops[0], f);
      CreatedNodesExist(Step(w, ops[0]), ops[1..], f);
    }
  }

  lemma StepCreates(w: World, op: Op, f: nat)
    requires Valid(w) && Allowed(op)
    ensures f in w.flats || op == New(f) || op == Op.Get(Flat(f)) ==> f in Step(w, op).flats
  {
    match op
    case New(g) => CreateIsValid(w, g);
    case Get(Flat(g)) => CreateIsValid(w, g);
    case _ =>
  }

  // ----- a flatten node over a cell

  /** The inner source came from below the cell. */
  ghost predicate FetchedFromCell(w: World, f: nat) {
    f in w.outers && w.outers[f].Cell? && FlatAt(w, f).cached.Some? ==>
      Level(FlatAt(w, f).cached.value.source) <= w.outers[f].c
  }

  lemma {:induction false} GetFetchesFromCell(w: World, s: Source, f: nat)
    requires Valid(w) && SourceOk(s) && FetchedFromCell(w, f)
    ensures FetchedFromCell(Sources.Get(w, s).0, f)
    decreases Level(s), 1
  {
    match s
    case Const(_) =>
    case Cell(_) =>
    case Map(_, inner) => GetFetchesFromCell(w, inner, f);
    case Flat(g) =>
      CreateIsValid(w, g);
      GetSourceFetchesFromCell(Create(w, g), g, f);
      var (w1, source) := GetSource(Create(w, g), g);
      GetFetchesFromCell(w1, source, f);
  }

  lemma {:induction false} GetSourceFetchesFromCell(w: World, g: nat, f: nat)
    requires Valid(w) && g in w.flats && FetchedFromCell(w, f)
    ensures FetchedFromCell(GetSource(w, g).0, f)
    decreases g + 1, 0
  {
    var needed := w.flats[g].counted % WRAP;
    var cached := w.flats[g].cached;
    if !(cached.Some? && cached.value.generation == needed) {
      GetFetchesFromCell(w, OuterOf(w, g), f);
      var (w1, v) := Sources.Get(w, OuterOf(w, g));
      StoreCachesOne(w1, g, needed, AsSource(v), f);
    }
  }

  lemma {:induction false} RunFetchesFromCell(w: World, ops: seq<Op>, f: nat)
    requires Valid(w) && (forall op :: op in ops ==> Allowed(op)) && FetchedFromCell(w, f)
    ensures FetchedFromCell(Run(w, ops), f)
    decreases |ops|
  {
    if ops != [] {
      StepIsValid(w, ops[0]);
      StepFetchesFromCell(w, ops[0], f);
      RunFetchesFromCell(Step(w, ops[0]), ops[1..], f);
    }
  }

  lemma StepFetchesFromCell(w: World, op: Op, f: nat)
    requires Valid(w) && Allowed(op) && FetchedFromCell(w, f)
    ensures FetchedFromCell(Step(w, op), f)
  {
    match op
    case New(g) => CreateIsValid(w, g);
    case Get(s) => GetFetchesFromCell(w, s, f);
    case Set(_, _) =>
    case SetIfUnequal(_, _) =>
    case Subscribe(_, _) =>
  }

  lemma {:induction false} NothingDependsUpwards(w: World, s: Source, c: nat)
    requires Valid(w) && SourceOk(s) && Level(s) <= c
    ensures Dependencies(w, s, c) == 0
    decreases Level(s)
  {
    match s
    case Const(_) =>
    case Cell(_) =>
    case Map(_, inner) => NothingDependsUpwards(w, inner, c);
    case Flat(f) =>
      if f in w.flats {
        if f in w.outers { NothingDependsUpwards(w, w.outers[f], c); }
        if w.flats[f].cached.Some? { NothingDependsUpwards(w, w.flats[f].cached.value.source, c); }
      }
  }

  /** A client that has subscribed once, to a flatten node over a cell, hears of each set of that cell
      exactly once, however often and through whatever sources the node has been got. */
  lemma OuterSetIsHeardOnce(w: World, ops: seq<Op>, f: nat, o: nat, v: Val, k: nat)
    requires Initial(w) && (forall op :: op in ops ==> Allowed(op)) && f in w.outers && w.outers[f] == Cell(o)
    requires Subscriptions(ops, k) == [Flat(f)] && f in Run(w, ops).flats
    ensures Heard(SetCell(Run(w, ops), o, v), k) == Heard(Run(w, ops), k) + 1
  {
    var w' := Run(w, ops);
    HeardOncePerDependency(w, ops, o, v, k);
    RunKeepsWiring(w, ops);
    RunFetchesFromCell(w, ops, f);
    if w'.flats[f].cached.Some? { NothingDependsUpwards(w', w'.flats[f].cached.value.source, o); }
    assert Dependencies(w', Cell(o), o) == 1;
    assert TotalDependencies(w', [Flat(f)], o) == Dependencies(w', Flat(f), o) + TotalDependencies(w', [], o);
  }

  lemma {:induction false} RunKeepsWiring(w: World, ops: seq<Op>)
    requires Valid(w) && forall op :: op in ops ==> Allowed(op)
    ensures Run(w, ops).outers == w.outers
    decreases |ops|
  {
    if ops != [] {
      StepIsValid(w, ops[0]);
      StepKeepsWiring(w, ops[0]);
      RunKeepsWiring(Step(w, ops[0]), ops[1..]);
    }
  }

  lemma StepKeepsWiring(w: World, op: Op)
    requires Valid(w) && Allowed(op)
    ensures Step(w, op).outers == w.outers
  {
    if op.New? { CreateIsValid(w, op.f); }
  }
}
