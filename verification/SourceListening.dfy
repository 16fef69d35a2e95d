/** Listening to a flatten node is not enough to hear of changes of its inner source: what counts
    is which inner source the last `get` of the node was given. */
module SourceListening {
  import opened Wrappers
  import opened Sources
  import opened SourceLaws
  import opened SourceRuns
  import opened SourceWays

  // ----- the last get of a node

  /** A `get` of `s` comes to the flatten node `f`. */
  ghost predicate Visits(w: World, s: Source, f: nat)
    requires Wired(w) && SourceOk(s)
    decreases Level(s)
  {
    match s
    case Const(_) => false
    case Cell(_) => false
    case Map(_, inner) => Visits(w, inner, f)
    case Flat(g) =>
      g == f || Visits(w, OuterOf(w, g), f) || Visits(w, AsSource(Denote(w, OuterOf(w, g))), f)
  }

  /** The inner source of `f` at the time of the last `get` that came to `f`. */
  ghost function LastGot(w: World, ops: seq<Op>, f: nat): Option<Source>
    requires Valid(w) && forall op :: op in ops ==> Allowed(op)
    decreases |ops|
  {
    if ops == [] then None
    else
      StepIsValid(w, ops[0]);
      match LastGot(Step(w, ops[0]), ops[1..], f)
      case Some(source) => Some(source)
      case None =>
        if ops[0].Get? && Visits(w, ops[0].s, f) then Some(AsSource(Denote(w, OuterOf(w, f)))) else None
  }

  lemma {:induction false} VisitsAlike(w: World, w': World, s: Source, f: nat)
    requires Wired(w) && Wired(w') && SameCells(w, w') && SourceOk(s)
    ensures Visits(w', s, f) == Visits(w, s, f)
    decreases Level(s)
  {
    match s
    case Const(_) =>
    case Cell(_) =>
    case Map(_, inner) => VisitsAlike(w, w', inner, f);
    case Flat(g) =>
      DenotesAlike(w, w', OuterOf(w, g));
      VisitsAlike(w, w', OuterOf(w, g), f);
      VisitsAlike(w, w', AsSource(Denote(w, OuterOf(w, g))), f);
  }

  lemma {:induction false} ArmedVisits(w: World, s: Source, f: nat)
    requires Valid(w) && SourceOk(s) && Armed(w, s) && Visits(w, s, f)
    ensures Linked(w, f)
    decreases Level(s)
  {
    match s
    case Const(_) =>
    case Cell(_) =>
    case Map(_, inner) => ArmedVisits(w, inner, f);
    case Flat(g) =>
      if Visits(w, OuterOf(w, g), f) {
        ArmedVisits(w, OuterOf(w, g), f);
      } else if g != f {
        ArmedVisits(w, w.flats[g].cached.value.source, f);
      }
  }

  lemma {:induction false} UnvisitedStays(w: World, s: Source, f: nat)
    requires Good(w) && SourceOk(s) && !Visits(w, s, f)
    ensures FlatAt(Sources.Get(w, s).0, f).cached == FlatAt(w, f).cached
    decreases Level(s), 1
  {
    match s
    case Const(_) =>
    case Cell(_) =>
    case Map(_, inner) => UnvisitedStays(w, inner, f);
    case Flat(g) =>
      var w0 := Create(w, g);
      CreateRefreshes(w, g);
      CreateIsValid(w, g);
      GoodStaysGood(w, w0, g);
      VisitsAlike(w, w0, s, f);
      UnvisitedSourceStays(w0, g, f);
      GetSourceIsRight(w0, g);
      var (w1, source) := GetSource(w0, g);
      VisitsAlike(w0, w1, source, f);
      UnvisitedStays(w1, source, f);
  }

  lemma {:induction false} UnvisitedSourceStays(w: World, g: nat, f: nat)
    requires Good(w) && g in w.flats && g != f && !Visits(w, OuterOf(w, g), f)
    ensures FlatAt(GetSource(w, g).0, f).cached == FlatAt(w, f).cached
    decreases g + 1, 0
  {
    var needed := w.flats[g].counted % WRAP;
    var cached := w.flats[g].cached;
    if !(cached.Some? && cached.value.generation == needed) {
      var (w1, v) := Sources.Get(w, OuterOf(w, g));
      UnvisitedStays(w, OuterOf(w, g), f);
      ListenAndStoreJoins(w1, g, needed, AsSource(v));
    }
  }

  // ----- the state remembers it

  /** `f` holds `source`, and has a listener there behind the gate it holds. */
  ghost predicate Holds(w: World, f: nat, source: Source) {
    && FlatAt(w, f).cached.Some? && FlatAt(w, f).cached.value.source == source
    && Subscribed(w, source, Inner(f, FlatAt(w, f).cached.value.gate))
  }

  lemma StepHolds(w: World, op: Op, f: nat)
    requires Good(w) && Allowed(op)
    ensures Valid(Step(w, op))
    ensures if op.Get? && Visits(w, op.s, f) then Holds(Step(w, op), f, AsSource(Denote(w, OuterOf(w, f))))
            else FlatAt(Step(w, op), f).cached == FlatAt(w, f).cached
  {
    match op
    case New(g) => CreateIsValid(w, g);
    case Get(s) => GetHolds(w, s, f);
    case Set(c, v) => SetIsValid(w, c, v);
    case SetIfUnequal(c, v) => SetIsValid(w, c, v);
    case Subscribe(s, client) => ListenKeepsValid(w, s, Client(client));
  }

  lemma GetHolds(w: World, s: Source, f: nat)
    requires Good(w) && SourceOk(s)
    ensures var w' := Sources.Get(w, s).0;
            if Visits(w, s, f) then Holds(w', f, AsSource(Denote(w, OuterOf(w, f))))
            else FlatAt(w', f).cached == FlatAt(w, f).cached
  {
    if Visits(w, s, f) {
      var w' := Sources.Get(w, s).0;
      GetIsRight(w, s);
      VisitsAlike(w, w', s, f);
      ArmedVisits(w', s, f);
      DenotesAlike(w, w', OuterOf(w, f));
    } else {
      UnvisitedStays(w, s, f);
    }
  }

  lemma {:induction false} RunJoins(w: World, ops: seq<Op>, n: NotifierId)
    requires Valid(w) && (forall op :: op in ops ==> Allowed(op))
    ensures SubscribersOf(w, n) <= SubscribersOf(Run(w, ops), n)
    decreases |ops|
  {
    if ops != [] {
      StepIsValid(w, ops[0]);
      RunJoins(Step(w, ops[0]), ops[1..], n);
    }
  }

  lemma {:induction false} LastGotIsHeld(w: World, ops: seq<Op>, f: nat)
    requires Good(w) && (forall op :: op in ops ==> Allowed(op)) && Bounded(Run(w, ops))
    ensures match LastGot(w, ops, f)
            case Some(source) => Holds(Run(w, ops), f, source)
            case None => FlatAt(Run(w, ops), f).cached == FlatAt(w, f).cached
    decreases |ops|
  {
    if ops != [] {
      var w1 := Step(w, ops[0]);
      StepIsValid(w, ops[0]);
      RunGrows(w1, ops[1..]);
      StepKeepsGood(w, ops[0]);
      LastGotIsHeld(w1, ops[1..], f);
      StepHolds(w, ops[0], f);
      if LastGot(w1, ops[1..], f).None? && ops[0].Get? && Visits(w, ops[0].s, f) {
        var source := AsSource(Denote(w, OuterOf(w, f)));
        if Base(source).Some? { RunJoins(w1, ops[1..], Base(source).value); }
      }
    }
  }

  // ----- a gate in use has one source

  /** The gate that `f` holds is used for the source that `f` holds, and nowhere else. */
  ghost predicate GateOk(w: World, f: nat) {
    FlatAt(w, f).cached.Some? ==>
      var Cached(_, source, gate) := FlatAt(w, f).cached.value;
      && gate < w.nextGate
      && forall n, g: nat :: Inner(g, gate) in SubscribersOf(w, n) ==> Base(source) == Some(n)
  }

  ghost predicate GatesOk(w: World) {
    && (forall f: nat :: GateOk(w, f))
    && forall n, f: nat, gate: nat :: Inner(f, gate) in SubscribersOf(w, n) ==> gate < w.nextGate
  }

  /** A listener more, which is not behind a gate in use. */
  lemma JoinKeepsGates(w: World, w': World, n: NotifierId, sub: Subscriber)
    requires GatesOk(w) && w'.nextGate >= w.nextGate && (sub.Inner? ==> w.nextGate <= sub.gate < w'.nextGate)
    requires forall f: nat :: FlatAt(w', f).cached == FlatAt(w, f).cached
    requires forall m :: SubscribersOf(w', m) == if m == n then SubscribersOf(w, m) + [sub] else SubscribersOf(w, m)
    ensures GatesOk(w')
  {
    forall f: nat ensures GateOk(w', f) { assert GateOk(w, f); }
  }

  lemma AlikeKeepsGates(w: World, w': World)
    requires GatesOk(w) && w'.nextGate >= w.nextGate
    requires forall f: nat :: FlatAt(w', f).cached == FlatAt(w, f).cached
    requires forall m :: SubscribersOf(w', m) == SubscribersOf(w, m)
    ensures GatesOk(w')
  {
    forall f: nat ensures GateOk(w', f) { assert GateOk(w, f); }
  }

  lemma ListenKeepsGates(w: World, s: Source, sub: Subscriber)
    requires GatesOk(w) && !sub.Inner?
    ensures GatesOk(Listen(w, s, sub))
  {
    if Base(s).Some? { JoinKeepsGates(w, Listen(w, s, sub), Base(s).value, sub); }
  }

  lemma AttachKeepsGates(w: World, f: nat, source: Source)
    requires GatesOk(w)
    ensures GatesOk(Attach(w, f, source))
    ensures forall n, g: nat :: Inner(g, w.nextGate) in SubscribersOf(Attach(w, f, source), n) ==>
              Base(source) == Some(n)
  {
    var w' := Attach(w, f, source);
    if Base(source).Some? {
      JoinKeepsGates(w, w', Base(source).value, Inner(f, w.nextGate));
    } else {
      AlikeKeepsGates(w, w');
    }
  }

  lemma PutKeepsGates(w: World, f: nat, source: Source, gate: nat)
    requires GatesOk(w) && gate < w.nextGate
    requires forall n, g: nat :: Inner(g, gate) in SubscribersOf(w, n) ==> Base(source) == Some(n)
    ensures GatesOk(Put(w, f, Cached(0, source, gate)))
  {
    var w' := Put(w, f, Cached(0, source, gate));
    assert forall n :: SubscribersOf(w', n) == SubscribersOf(w, n);
    forall g: nat ensures GateOk(w', g) { assert GateOk(w, g); }
  }

  lemma {:induction false} GetKeepsGates(w: World, s: Source)
    requires Valid(w) && SourceOk(s) && GatesOk(w)
    ensures GatesOk(Sources.Get(w, s).0)
    decreases Level(s), 1
  {
    match s
    case Const(_) =>
    case Cell(_) =>
    case Map(_, inner) => GetKeepsGates(w, inner);
    case Flat(f) =>
      CreateIsValid(w, f);
      CreateKeepsGates(w, f);
      GetSourceKeepsGates(Create(w, f), f);
      var (w1, source) := GetSource(Create(w, f), f);
      GetKeepsGates(w1, source);
  }

  lemma CreateKeepsGates(w: World, f: nat)
    requires GatesOk(w)
    ensures GatesOk(Create(w, f))
  {
    if f !in w.flats {
      var w0 := w.(flats := w.flats[f := FlatState(0, None)]);
      AlikeKeepsGates(w, w0);
      ListenKeepsGates(w0, OuterOf(w, f), Outer(f));
    }
  }

  lemma {:induction false} GetSourceKeepsGates(w: World, f: nat)
    requires Valid(w) && f in w.flats && GatesOk(w)
    ensures GatesOk(GetSource(w, f).0)
    decreases f + 1, 0
  {
    var needed := w.flats[f].counted % WRAP;
    var cached := w.flats[f].cached;
    if !(cached.Some? && cached.value.generation == needed) {
      var (w1, v) := Sources.Get(w, OuterOf(w, f));
      GetKeepsGates(w, OuterOf(w, f));
      StoreKeepsGates(w1, f, needed, AsSource(v));
    }
  }

  lemma StoreKeepsGates(w: World, f: nat, needed: nat, source: Source)
    requires GatesOk(w)
    ensures GatesOk(ListenAndStore(w, f, needed, source).0)
  {
    AttachKeepsGates(w, f, source);
    PutKeepsGates(Attach(w, f, source), f, source, w.nextGate);
  }

  lemma StepKeepsGates(w: World, op: Op)
    requires Valid(w) && Allowed(op) && GatesOk(w)
    ensures GatesOk(Step(w, op))
  {
    match op
    case New(f) => CreateKeepsGates(w, f);
    case Get(s) => GetKeepsGates(w, s);
    case Set(c, v) => SetKeepsGates(w, c, v);
    case SetIfUnequal(c, v) => SetKeepsGates(w, c, v);
    case Subscribe(s, client) => ListenKeepsGates(w, s, Client(client));
  }

  lemma SetKeepsGates(w: World, c: nat, v: Val)
    requires Valid(w) && Fits(c, v) && GatesOk(w)
    ensures GatesOk(SetCell(w, c, v))
  {
    SetIsValid(w, c, v);
    AlikeKeepsGates(w, SetCell(w, c, v));
  }

  lemma {:induction false} RunKeepsGates(w: World, ops: seq<Op>)
    requires Valid(w) && (forall op :: op in ops ==> Allowed(op)) && GatesOk(w)
    ensures GatesOk(Run(w, ops))
    decreases |ops|
  {
    if ops != [] {
      StepIsValid(w, ops[0]);
      StepKeepsGates(w, ops[0]);
      RunKeepsGates(Step(w, ops[0]), ops[1..]);
    }
  }

  // ----- who hears

  /** Any set of any cell, any client, whoever else listens: the client hears of it exactly as often as
      there are ways from the cell to the client. */
  lemma HeardOncePerWay(w: World, c: nat, v: Val, k: nat)
    requires SubscribersOk(w)
    ensures Heard(SetCell(w, c, v), k) == Heard(w, k) + WaysFrom(w, OfCell(c), Client(k))
  {
    var w1, subs := Written(w, c, v), SubscribersOf(w, OfCell(c));
    WaysStay(w, w1, OfCell(c), subs, Client(k));
    DeliverAdds(w1, OfCell(c), 0, Client(k));
    assert subs[0..] == subs;
  }

  lemma {:induction false} SomeWay(w: World, n: NotifierId, subs: seq<Subscriber>, x: Subscriber) returns (i: nat)
    requires SubscribersOk(w) && AllUpward(w, n, subs) && Ways(w, n, subs, x) > 0
    ensures i < |subs| && WaysBy(w, n, subs[i], x) > 0
  {
    if WaysBy(w, n, subs[0], x) > 0 {
      i := 0;
    } else {
      i := SomeWay(w, n, subs[1..], x);
      i := i + 1;
    }
  }

  /** No way from cell `c` to the client but through inner listeners of `f`. */
  ghost predicate OnlyThrough(w: World, f: nat, c: nat, k: nat)
    requires SubscribersOk(w)
  {
    var subs := SubscribersOf(w, OfCell(c));
    forall j: nat :: j < |subs| && WaysBy(w, OfCell(c), subs[j], Client(k)) > 0 ==> subs[j].Inner? && subs[j].f == f
  }

  /** Then a set of the cell is heard if and only if `f` holds a gate with a listener there. */
  lemma HeardIffOpen(w: World, f: nat, c: nat, v: Val, k: nat)
    requires SubscribersOk(w) && OnlyThrough(w, f, c, k) && WaysFrom(w, OfFlat(f), Client(k)) > 0
    ensures Heard(SetCell(w, c, v), k) > Heard(w, k) <==>
              var cached := FlatAt(w, f).cached;
              cached.Some? && Inner(f, cached.value.gate) in SubscribersOf(w, OfCell(c))
  {
    var cached, subs := FlatAt(w, f).cached, SubscribersOf(w, OfCell(c));
    HeardOncePerWay(w, c, v, k);
    if cached.Some? && Inner(f, cached.value.gate) in subs {
      var j: nat :| j < |subs| && subs[j] == Inner(f, cached.value.gate);
      WaysWithout(w, OfCell(c), subs, j, Client(k));
    }
    if WaysFrom(w, OfCell(c), Client(k)) > 0 {
      var j := SomeWay(w, OfCell(c), subs, Client(k));
      assert subs[j].Inner? && subs[j].f == f && GateOpen(w, f, subs[j].gate);
      assert subs[j] == Inner(f, cached.value.gate);
    }
  }

  /** After any run, a client that can hear of an inner cell only through the flatten node `f` does
      hear of a set of it if and only if the last `get` that came to the node was given a source
      that listens to that cell: a `get` since the outer source last changed to it, so to speak, but
      also one before, if the outer source has come back. */
  lemma HeardIffLastGotHere(w: World, ops: seq<Op>, f: nat, c: nat, v: Val, k: nat)
    requires Initial(w) && (forall op :: op in ops ==> Allowed(op)) && Bounded(Run(w, ops))
    requires OnlyThrough(Run(w, ops), f, c, k) && WaysFrom(Run(w, ops), OfFlat(f), Client(k)) > 0
    ensures Heard(SetCell(Run(w, ops), c, v), k) > Heard(Run(w, ops), k) <==>
              var got := LastGot(w, ops, f);
              got.Some? && Base(got.value) == Some(OfCell(c))
  {
    var w' := Run(w, ops);
    HeardIffOpen(w', f, c, v, k);
    LastGotIsHeld(w, ops, f);
    RunKeepsGates(w, ops);
    if FlatAt(w', f).cached.Some? { HeldHere(w', f, c); }
  }

  lemma HeldHere(w: World, f: nat, c: nat)
    requires GatesOk(w) && FlatAt(w, f).cached.Some? && Holds(w, f, FlatAt(w, f).cached.value.source)
    ensures var Cached(_, source, gate) := FlatAt(w, f).cached.value;
            Inner(f, gate) in SubscribersOf(w, OfCell(c)) <==> Base(source) == Some(OfCell(c))
  {
    assert GateOk(w, f);
  }

  /** A flatten node, a client that listens to it, and no `get`: however the inner cell is changed,
      the client hears nothing. */
  lemma ListeningAloneIsDeaf(w: World, f: nat, outer: nat, c: nat, v: Val, k: nat)
    requires Initial(w) && OuterOf(w, f) == Cell(outer) && CellAt(w, outer) == Src(Cell(c)) && Fits(c, v)
    ensures var w1 := Listen(Create(w, f), Flat(f), Client(k));
            && Valid(w1) && Client(k) in SubscribersOf(w1, OfFlat(f)) && Denote(w1, Flat(f)) == CellAt(w, c)
            && var w2 := SetCell(w1, c, v);
            && Valid(w2) && Denote(w2, Flat(f)) == v && Heard(w2, k) == Heard(w, k)
  {
    var w1 := Listen(Create(w, f), Flat(f), Client(k));
    FreshListener(w, f, outer, c, k);
    SilentSet(w1, c, v);
  }

  lemma FreshListener(w: World, f: nat, outer: nat, c: nat, k: nat)
    requires Initial(w) && OuterOf(w, f) == Cell(outer) && CellAt(w, outer) == Src(Cell(c))
    ensures var w1 := Listen(Create(w, f), Flat(f), Client(k));
            && Valid(w1) && SameCells(w, w1) && w1.heard == w.heard
            && Client(k) in SubscribersOf(w1, OfFlat(f)) && SubscribersOf(w1, OfCell(c)) == [] && c < outer
  {
    CreateIsValid(w, f);
    ListenKeepsValid(Create(w, f), Flat(f), Client(k));
    assert outer in w.cells && ValLevel(w.cells[outer]) == Level(Cell(c)) == c + 1;
  }

  lemma SilentSet(w: World, c: nat, v: Val)
    requires Valid(w) && Fits(c, v) && SubscribersOf(w, OfCell(c)) == []
    ensures Valid(Written(w, c, v)) && SetCell(w, c, v) == Written(w, c, v)
  {
    SetIsValid(w, c, v);
  }
}
