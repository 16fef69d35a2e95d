/** Sources on one thread (src/source.rs, src/source/map.rs, src/source/flatten.rs,
    src/cell.rs): constants, cells, `map` and `flatten`, nested and shared in any way that has
    no cycles. A notifier is the list of its subscribers, in order of registration. */
module Sources {
  import opened Wrappers

  /** A value may itself be a source. */
  datatype Val = Int(n: int) | Src(source: Source)

  /** Cells, `map` nodes and flatten nodes are numbered so that each refers only to lower
      numbers: that is what it means to have no cycles. */
  datatype Source =
    | Const(value: Val)
    | Cell(c: nat)
    | Map(m: nat, inner: Source)
    | Flat(f: nat)

  datatype NotifierId = OfCell(c: nat) | OfFlat(f: nat)

  datatype Subscriber =
    | Client(k: nat)
    | Outer(f: nat)                          // OuterListener of the flatten node f
    | Inner(f: nat, gate: nat)               // InnerListener behind that gate

  /** `State` in the source. */
  datatype Cached = Cached(generation: nat, source: Source, gate: nat)

  /** `counted` is how often the outer source has notified; `generation_from_listening` is that
      number as a `u32`. */
  datatype FlatState = FlatState(counted: nat, cached: Option<Cached>)

  datatype World = World(
    cells: map<nat, Val>,
    apply: (nat, Val) -> Val,             // of each map node
    outers: map<nat, Source>,                // `source_of_source` of each flatten node
    flats: map<nat, FlatState>,              // those that exist
    subscribers: map<NotifierId, seq<Subscriber>>,
    nextGate: nat,
    heard: map<nat, nat>)                    // notifications each client has received

  // ----- reading a world

  function CellAt(w: World, c: nat): Val { if c in w.cells then w.cells[c] else Int(0) }

  function OuterOf(w: World, f: nat): Source { if f in w.outers then w.outers[f] else Const(Int(0)) }

  function FlatAt(w: World, f: nat): FlatState { if f in w.flats then w.flats[f] else FlatState(0, None) }

  function SubscribersOf(w: World, n: NotifierId): seq<Subscriber> {
    if n in w.subscribers then w.subscribers[n] else []
  }

  function Heard(w: World, k: nat): nat { if k in w.heard then w.heard[k] else 0 }

  /** Rust's types make every value of an outer source a source; a number is treated as a
      constant source here. */
  function AsSource(v: Val): Source { if v.Src? then v.source else Const(v) }

  /** Above the number of every node the source refers to. */
  function Level(s: Source): nat {
    match s
    case Const(v) => ValLevel(v)
    case Cell(c) => c + 1
    case Map(m, _) => m + 1
    case Flat(f) => f + 1
  }

  function ValLevel(v: Val): nat {
    match v
    case Int(_) => 0
    case Src(s) => Level(s)
  }

  predicate SourceOk(s: Source) {
    match s
    case Const(v) => ValOk(v)
    case Cell(_) => true
    case Map(m, inner) => Level(inner) <= m && SourceOk(inner)
    case Flat(_) => true
  }

  predicate ValOk(v: Val) { v.Src? ==> SourceOk(v.source) }

  /** The values a cell holds, a function yields or a flatten node starts from stay below it. */
  ghost predicate Wired(w: World) {
    && (forall c :: c in w.cells ==> ValOk(w.cells[c]) && ValLevel(w.cells[c]) <= c)
    && (forall m, v :: ValOk(w.apply(m, v)) && ValLevel(w.apply(m, v)) <= m)
    && (forall f :: f in w.outers ==> SourceOk(w.outers[f]) && Level(w.outers[f]) <= f)
  }

  /** What a source is worth: no caches, no notifications. */
  ghost function Denote(w: World, s: Source): (v: Val)
    requires Wired(w) && SourceOk(s)
    ensures ValOk(v) && ValLevel(v) <= Level(s)
    decreases Level(s)
  {
    match s
    case Const(v) => v
    case Cell(c) => CellAt(w, c)
    case Map(m, inner) => w.apply(m, Denote(w, inner))
    case Flat(f) => Denote(w, AsSource(Denote(w, OuterOf(w, f))))
  }

  // ----- subscribing

  /** Where `listen` ends up: `map` passes it on, and constants ignore it. */
  function Base(s: Source): Option<NotifierId> {
    match s
    case Const(_) => None
    case Cell(c) => Some(OfCell(c))
    case Map(_, inner) => Base(inner)
    case Flat(f) => Some(OfFlat(f))
  }

  function Rank(n: NotifierId): nat { match n case OfCell(c) => c case OfFlat(f) => f }

  function Listen(w: World, s: Source, sub: Subscriber): World {
    match Base(s)
    case None => w
    case Some(n) => w.(subscribers := w.subscribers[n := SubscribersOf(w, n) + [sub]])
  }

  /** `Flatten::new`. In the model a flatten node is created at the latest when it is first used. */
  function Create(w: World, f: nat): World {
    if f in w.flats then w
    else Listen(w.(flats := w.flats[f := FlatState(0, None)]), OuterOf(w, f), Outer(f))
  }

  // ----- notifying

  predicate Upward(n: NotifierId, flats: set<nat>, sub: Subscriber) {
    match sub
    case Client(_) => true
    case Outer(f) => f in flats && Rank(n) < f
    case Inner(f, _) => f in flats && Rank(n) < f
  }

  ghost predicate SubscribersOk(w: World) {
    forall n, i :: n in w.subscribers && 0 <= i < |w.subscribers[n]| ==> Upward(n, w.flats.Keys, w.subscribers[n][i])
  }

  /** The gate of an `InnerListener` is open while the flatten node's state owns it. */
  predicate GateOpen(w: World, f: nat, gate: nat) {
    FlatAt(w, f).cached.Some? && FlatAt(w, f).cached.value.gate == gate
  }

  function Count(w: World, f: nat): World {
    w.(flats := w.flats[f := FlatAt(w, f).(counted := FlatAt(w, f).counted + 1)])
  }

  /** What notifying changes: counts and what clients have heard, upwards. */
  ghost predicate Calm(w: World, w': World) {
    && w'.cells == w.cells && w'.apply == w.apply && w'.outers == w.outers
    && w'.subscribers == w.subscribers && w'.nextGate == w.nextGate
    && w'.flats.Keys == w.flats.Keys
    && (forall f :: f in w.flats ==>
          w'.flats[f].cached == w.flats[f].cached && w'.flats[f].counted >= w.flats[f].counted)
    && (forall k :: Heard(w', k) >= Heard(w, k))
  }

  /** The flatten nodes a notification from `n` may still pass through. */
  ghost function Above(w: World, n: NotifierId): set<nat> { set f | f in w.flats && f > Rank(n) }

  /** Deliver one notification to the subscribers of `n` from number `k` on. */
  ghost function Deliver(w: World, n: NotifierId, k: nat): (w': World)
    requires SubscribersOk(w) && k <= |SubscribersOf(w, n)|
    ensures Calm(w, w')
    decreases Above(w, n), |SubscribersOf(w, n)| - k
  {
    if k == |SubscribersOf(w, n)| then w
    else
      var w1 := Receive(w, n, k);
      Deliver(w1, n, k + 1)
  }

  /** `receive` of subscriber number `k` of `n`. */
  ghost function Receive(w: World, n: NotifierId, k: nat): (w': World)
    requires SubscribersOk(w) && k < |SubscribersOf(w, n)|
    ensures Calm(w, w')
    decreases Above(w, n), |SubscribersOf(w, n)| - k, 0
  {
    var sub := SubscribersOf(w, n)[k];
    assert Upward(n, w.flats.Keys, sub);
    assert !sub.Client? ==> sub.f in Above(w, n) && sub.f !in Above(w, OfFlat(sub.f));
    match sub
    case Client(c) => w.(heard := w.heard[c := Heard(w, c) + 1])
    case Outer(f) =>
      assert Above(Count(w, f), OfFlat(f)) == Above(w, OfFlat(f));
      Deliver(Count(w, f), OfFlat(f), 0)
    case Inner(f, gate) => if GateOpen(w, f, gate) then Deliver(w, OfFlat(f), 0) else w
  }

  /** `Cell::set`. */
  ghost function SetCell(w: World, c: nat, v: Val): World
    requires SubscribersOk(w)
  {
    Deliver(w.(cells := w.cells[c := v]), OfCell(c), 0)
  }

  /** `Cell::set_if_unequal`. */
  ghost function SetCellIfUnequal(w: World, c: nat, v: Val): World
    requires SubscribersOk(w)
  {
    if CellAt(w, c) == v then w else SetCell(w, c, v)
  }

  // ----- getting

  ghost predicate Subscribed(w: World, s: Source, sub: Subscriber) {
    Base(s).Some? ==> sub in SubscribersOf(w, Base(s).value)
  }

  ghost predicate Valid(w: World) {
    && Wired(w) && SubscribersOk(w)
    && (forall f :: f in w.flats ==> Subscribed(w, OuterOf(w, f), Outer(f)))
    && (forall f :: f in w.flats && w.flats[f].cached.Some? ==>
          var Cached(generation, source, _) := w.flats[f].cached.value;
          generation == 0 && SourceOk(source) && Level(source) <= f)
  }

  lemma {:induction false} BaseIsBelow(s: Source)
    requires SourceOk(s)
    ensures Base(s).Some? ==> Rank(Base(s).value) < Level(s)
  {
    match s
    case Map(_, inner) => BaseIsBelow(inner);
    case _ =>
  }

  /** Adding a subscriber. */
  ghost predicate Joined(w: World, w': World) {
    && w'.cells == w.cells && w'.apply == w.apply && w'.outers == w.outers && w'.heard == w.heard
    && forall n :: SubscribersOf(w, n) <= SubscribersOf(w', n)
  }

  lemma ListenIsValid(w: World, s: Source, sub: Subscriber)
    requires SourceOk(s) && SubscribersOk(w)
    requires !sub.Client? ==> sub.f in w.flats && Level(s) <= sub.f
    ensures var w' := Listen(w, s, sub);
            && SubscribersOk(w') && Joined(w, w') && Subscribed(w', s, sub)
            && w'.flats == w.flats && w'.nextGate == w.nextGate
  {
    BaseIsBelow(s);
  }

  lemma CreateIsValid(w: World, f: nat)
    requires Valid(w)
    ensures Valid(Create(w, f)) && Joined(w, Create(w, f))
    ensures f in Create(w, f).flats
    ensures forall g :: FlatAt(Create(w, f), g) == FlatAt(w, g)
  {
    if f !in w.flats {
      var w0 := w.(flats := w.flats[f := FlatState(0, None)]);
      var w1 := Create(w, f);
      assert SubscribersOk(w0);
      ListenIsValid(w0, OuterOf(w, f), Outer(f));
      forall g | g in w1.flats ensures Subscribed(w1, OuterOf(w1, g), Outer(g)) {
        if g != f { assert Subscribed(w, OuterOf(w, g), Outer(g)); }
      }
    }
  }

  /** The last part of `get_source_and_listen_if_new`: listen to the source behind a new gate,
      and store both unless somebody else has been faster. The old gate goes with the old state. */
  function ListenAndStore(w: World, f: nat, needed: nat, source: Source): (World, Source) {
    var w1 := Attach(w, f, source);
    var cached := FlatAt(w, f).cached;
    if cached.Some? && cached.value.generation >= needed
    then (w1, cached.value.source)
    else (Put(w1, f, Cached(0, source, w.nextGate)), source)
  }

  function Attach(w: World, f: nat, source: Source): World {
    Listen(NewGate(w), source, Inner(f, w.nextGate))
  }

  function NewGate(w: World): World { w.(nextGate := w.nextGate + 1) }

  function Put(w: World, f: nat, cached: Cached): World {
    w.(flats := w.flats[f := FlatAt(w, f).(cached := Some(cached))])
  }

  lemma PutIsValid(w: World, f: nat, cached: Cached)
    requires Valid(w) && f in w.flats
    requires cached.generation == 0 && SourceOk(cached.source) && Level(cached.source) <= f
    ensures Valid(Put(w, f, cached))
  {
    var w' := Put(w, f, cached);
    forall g | g in w'.flats ensures Subscribed(w', OuterOf(w', g), Outer(g)) {
      assert Subscribed(w, OuterOf(w, g), Outer(g));
    }
  }

  lemma ListenKeepsValid(w: World, s: Source, sub: Subscriber)
    requires Valid(w) && SourceOk(s) && (!sub.Client? ==> sub.f in w.flats && Level(s) <= sub.f)
    ensures Valid(Listen(w, s, sub)) && Joined(w, Listen(w, s, sub))
    ensures Subscribed(Listen(w, s, sub), s, sub)
  {
    var w' := Listen(w, s, sub);
    ListenIsValid(w, s, sub);
    forall g | g in w'.flats ensures Subscribed(w', OuterOf(w', g), Outer(g)) {
      assert Subscribed(w, OuterOf(w, g), Outer(g));
    }
  }

  lemma NewGateIsValid(w: World)
    requires Valid(w)
    ensures Valid(NewGate(w)) && Joined(w, NewGate(w))
  {
    var w0 := NewGate(w);
    forall g | g in w0.flats ensures Subscribed(w0, OuterOf(w0, g), Outer(g)) {
      assert Subscribed(w, OuterOf(w, g), Outer(g));
    }
  }

  lemma AttachIsValid(w: World, f: nat, source: Source)
    requires Valid(w) && f in w.flats && SourceOk(source) && Level(source) <= f
    ensures var w1 := Attach(w, f, source);
            && Valid(w1) && Joined(w, w1) && w1.flats == w.flats && Subscribed(w1, source, Inner(f, w.nextGate))
  {
    NewGateIsValid(w);
    ListenKeepsValid(NewGate(w), source, Inner(f, w.nextGate));
  }

  lemma PutJoins(w: World, f: nat, cached: Cached)
    requires f in w.flats
    ensures var w' := Put(w, f, cached);
            && Joined(w, w') && w'.flats.Keys == w.flats.Keys && w'.subscribers == w.subscribers
            && w' == Put(w', f, cached)
            && (forall g :: g != f ==> FlatAt(w', g) == FlatAt(w, g)) && FlatAt(w', f).counted == FlatAt(w, f).counted
  {}

  lemma ListenAndStoreJoins(w: World, f: nat, needed: nat, source: Source)
    requires Valid(w) && f in w.flats && SourceOk(source) && Level(source) <= f
    ensures var w' := ListenAndStore(w, f, needed, source).0;
            && Joined(w, w') && w'.flats.Keys == w.flats.Keys
            && Subscribed(w', source, Inner(f, w.nextGate))
            && (w'.flats == w.flats || w' == Put(w', f, Cached(0, source, w.nextGate)))
            && (forall g :: g != f ==> FlatAt(w', g) == FlatAt(w, g)) && FlatAt(w', f).counted == FlatAt(w, f).counted
  {
    AttachIsValid(w, f, source);
    PutJoins(Attach(w, f, source), f, Cached(0, source, w.nextGate));
  }

  lemma ListenAndStoreIsValid(w: World, f: nat, needed: nat, source: Source)
    requires Valid(w) && f in w.flats && SourceOk(source) && Level(source) <= f
    ensures var (w', source') := ListenAndStore(w, f, needed, source);
            Valid(w') && SourceOk(source') && Level(source') <= f
  {
    AttachIsValid(w, f, source);
    PutIsValid(Attach(w, f, source), f, Cached(0, source, w.nextGate));
  }

  /** `Source::get`. */
  ghost function Get(w: World, s: Source): (r: (World, Val))
    requires Valid(w) && SourceOk(s)
    ensures Valid(r.0) && Joined(w, r.0) && w.flats.Keys <= r.0.flats.Keys
    ensures ValOk(r.1) && ValLevel(r.1) <= Level(s)
    decreases Level(s), 1
  {
    match s
    case Const(v) => (w, v)
    case Cell(c) => (w, CellAt(w, c))
    case Map(m, inner) =>
      var (w1, v) := Get(w, inner);
      (w1, w1.apply(m, v))
    case Flat(f) =>
      CreateIsValid(w, f);
      var (w1, source) := GetSource(Create(w, f), f);
      Get(w1, source)
  }

  /** `Flatten::get_source_and_listen_if_new`. */
  ghost function GetSource(w: World, f: nat): (r: (World, Source))
    requires Valid(w) && f in w.flats
    ensures Valid(r.0) && Joined(w, r.0) && w.flats.Keys <= r.0.flats.Keys
    ensures SourceOk(r.1) && Level(r.1) <= f
    decreases f + 1, 0
  {
    var needed := w.flats[f].counted % WRAP;
    var cached := w.flats[f].cached;
    if cached.Some? && cached.value.generation == needed then (w, cached.value.source)
    else
      var (w1, v) := Get(w, OuterOf(w, f));
      ListenAndStoreIsValid(w1, f, needed, AsSource(v));
      ListenAndStoreJoins(w1, f, needed, AsSource(v));
      ListenAndStore(w1, f, needed, AsSource(v))
  }
}
