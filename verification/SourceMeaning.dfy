/** What operations on sources come to, in terms of the maps of the world and the list of operations
    alone. */
module SourceMeaning {
  import opened Wrappers
  import opened Sources
  import opened SourceLaws
  import opened SourceRuns
  import opened SourceWays
  import Sweeps = SourceSweeps
  import Held = SourceListening

  // ----- what a source is worth

  function Value(cells: map<nat, Val>, c: nat): Val { if c in cells then cells[c] else Int(0) }

  /** The value of the value, where there is one: `source_of_source.get().get()`. */
  ghost function Worth(w: World, s: Source): (v: Val)
    requires Wired(w) && SourceOk(s)
    ensures ValOk(v) && ValLevel(v) <= Level(s)
    decreases Level(s)
  {
    match s
    case Const(v) => v
    case Cell(c) => Value(w.cells, c)
    case Map(m, inner) => w.apply(m, Worth(w, inner))
    case Flat(f) =>
      if f !in w.outers then Int(0)
      else
        match Worth(w, w.outers[f])
        case Src(inner) => Worth(w, inner)
        case Int(n) => Int(n)
  }

  lemma {:induction false} DenoteIsWorth(w: World, s: Source)
    requires Wired(w) && SourceOk(s)
    ensures Denote(w, s) == Worth(w, s)
    decreases Level(s)
  {
    match s
    case Const(_) =>
    case Cell(_) =>
    case Map(_, inner) => DenoteIsWorth(w, inner);
    case Flat(f) =>
      DenoteIsWorth(w, OuterOf(w, f));
      if f in w.outers && Worth(w, w.outers[f]).Src? { DenoteIsWorth(w, Worth(w, w.outers[f]).source); }
  }

  lemma {:induction false} WorthByValues(w: World, w': World, s: Source)
    requires Wired(w) && Wired(w') && SourceOk(s) && w'.apply == w.apply && w'.outers == w.outers
    requires SameValues(w.cells, w'.cells)
    ensures Worth(w', s) == Worth(w, s)
    decreases Level(s)
  {
    match s
    case Const(_) =>
    case Cell(_) =>
    case Map(_, inner) => WorthByValues(w, w', inner);
    case Flat(f) =>
      if f in w.outers {
        WorthByValues(w, w', w.outers[f]);
        if Worth(w, w.outers[f]).Src? { WorthByValues(w, w', Worth(w, w.outers[f]).source); }
      }
  }

  // ----- what a set does

  /** `Cell::set`: the cell holds the value, no other cell changes, and everyone hears of it once for
      each way. */
  lemma SetSets(w: World, c: nat, v: Val, k: nat)
    requires SubscribersOk(w)
    ensures var w' := SetCell(w, c, v);
            && (forall d :: Value(w'.cells, d) == if d == c then v else Value(w.cells, d))
            && Heard(w', k) == Heard(w, k) + WaysFrom(w, OfCell(c), Client(k))
  {
    var w1, subs := Written(w, c, v), SubscribersOf(w, OfCell(c));
    WaysStay(w, w1, OfCell(c), subs, Client(k));
    DeliverAdds(w1, OfCell(c), 0, Client(k));
    assert subs[0..] == subs;
  }

  /** `Cell::set_if_unequal`: the cell holds the value afterwards, and no other cell changes; an equal
      value leaves everything as it was, and an unequal one is heard once for each way. */
  lemma SetIfUnequalSets(w: World, c: nat, v: Val, k: nat)
    requires SubscribersOk(w)
    ensures var w' := SetCellIfUnequal(w, c, v);
            && (forall d :: Value(w'.cells, d) == if d == c then v else Value(w.cells, d))
            && (Value(w.cells, c) == v ==> w' == w)
            && (Value(w.cells, c) != v ==> Heard(w', k) == Heard(w, k) + WaysFrom(w, OfCell(c), Client(k)))
  {
    SetSets(w, c, v, k);
  }

  // ----- runs

  function CellsSet(cells: map<nat, Val>, op: Op): map<nat, Val> {
    match op
    case Set(c, v) => cells[c := v]
    case SetIfUnequal(c, v) => cells[c := v]
    case _ => cells
  }

  /** What the cells hold after `ops`: each what it was set to last. */
  ghost function CellsAfter(cells: map<nat, Val>, ops: seq<Op>): map<nat, Val>
    decreases |ops|
  {
    if ops == [] then cells else CellsAfter(CellsSet(cells, ops[0]), ops[1..])
  }

  ghost predicate SameValues(cells: map<nat, Val>, cells': map<nat, Val>) {
    forall c :: Value(cells', c) == Value(cells, c)
  }

  lemma CellsSetAlike(cells: map<nat, Val>, cells': map<nat, Val>, op: Op)
    requires SameValues(cells, cells')
    ensures SameValues(CellsSet(cells, op), CellsSet(cells', op))
  {
    forall c ensures Value(CellsSet(cells', op), c) == Value(CellsSet(cells, op), c) {
      assert Value(cells', c) == Value(cells, c);
    }
  }

  lemma {:induction false} CellsAfterAlike(cells: map<nat, Val>, cells': map<nat, Val>, ops: seq<Op>)
    requires SameValues(cells, cells')
    ensures SameValues(CellsAfter(cells, ops), CellsAfter(cells', ops))
    decreases |ops|
  {
    if ops != [] {
      CellsSetAlike(cells, cells', ops[0]);
      CellsAfterAlike(CellsSet(cells, ops[0]), CellsSet(cells', ops[0]), ops[1..]);
    }
  }

  lemma StepSets(w: World, op: Op)
    requires Valid(w) && Allowed(op)
    ensures var w' := Step(w, op);
            w'.apply == w.apply && w'.outers == w.outers && SameValues(CellsSet(w.cells, op), w'.cells)
  {
    match op
    case New(f) => CreateIsValid(w, f);
    case Get(_) =>
    case Set(c, v) => SetSets(w, c, v, 0);
    case SetIfUnequal(c, v) => SetIfUnequalSets(w, c, v, 0);
    case Subscribe(_, _) =>
  }

  /** After any run every cell holds what it was set to last. */
  lemma {:induction false} LastSetIsHeld(w: World, ops: seq<Op>)
    requires Valid(w) && forall op :: op in ops ==> Allowed(op)
    ensures var w' := Run(w, ops);
            w'.apply == w.apply && w'.outers == w.outers && SameValues(CellsAfter(w.cells, ops), w'.cells)
    decreases |ops|
  {
    if ops != [] {
      var w1 := Step(w, ops[0]);
      StepIsValid(w, ops[0]);
      StepSets(w, ops[0]);
      LastSetIsHeld(w1, ops[1..]);
      CellsAfterAlike(CellsSet(w.cells, ops[0]), w1.cells, ops[1..]);
    }
  }

  lemma {:induction false} CellsStayWired(w: World, ops: seq<Op>)
    requires Wired(w) && forall op :: op in ops ==> Allowed(op)
    ensures Wired(w.(cells := CellsAfter(w.cells, ops)))
    decreases |ops|
  {
    if ops != [] {
      var w1 := w.(cells := CellsSet(w.cells, ops[0]));
      assert Allowed(ops[0]);
      CellsStayWired(w1, ops[1..]);
      assert w1.(cells := CellsAfter(w1.cells, ops[1..])) == w.(cells := CellsAfter(w.cells, ops));
    }
  }

  /** In every run in which no counter wraps around, every `get` gives what the source is worth, told
      from nothing but what the cells were set to last, the functions and the wiring. */
  lemma EveryGetIsWorth(w: World, ops: seq<Op>, s: Source)
    requires Initial(w) && SourceOk(s) && (forall op :: op in ops ==> Allowed(op)) && Bounded(Run(w, ops))
    ensures Wired(w.(cells := CellsAfter(w.cells, ops)))
    ensures Sources.Get(Run(w, ops), s).1 == Worth(w.(cells := CellsAfter(w.cells, ops)), s)
  {
    EveryGetIsRight(w, ops, s);
    DenoteIsWorth(Run(w, ops), s);
    LastSetIsHeld(w, ops);
    CellsStayWired(w, ops);
    WorthByValues(w.(cells := CellsAfter(w.cells, ops)), Run(w, ops), s);
  }

  // ----- storing

  /** The source that is handed out is the one that is cached, and unless the cache is new enough it is
      the one that has just been fetched, behind the newest gate. */
  lemma StoreHandsOutTheCached(w: World, f: nat, needed: nat, source: Source)
    requires f in w.flats
    ensures var ((w', handedOut), old_) := (ListenAndStore(w, f, needed, source), w.flats[f].cached);
            && f in w'.flats && w'.flats[f].cached.Some? && handedOut == w'.flats[f].cached.value.source
            && w'.nextGate == w.nextGate + 1
            && if old_.Some? && old_.value.generation >= needed then w'.flats == w.flats
               else handedOut == source && w'.flats[f].cached.value.gate == w.nextGate
  {
  }

  // ----- the cache

  /** `get_source_and_listen_if_new` is answered from the cache, and then leaves everything as it was, if
      and only if there is a cache and the counter, as a `u32`, is 0; otherwise it ends with a new gate
      (src/source/flatten.rs:88-127). */
  lemma KeepsItsGateIff(w: World, f: nat)
    requires Valid(w) && Held.GatesOk(w) && f in w.flats
    ensures var w' := GetSource(w, f).0;
            var hit := w.flats[f].cached.Some? && w.flats[f].counted % WRAP == 0;
            && (hit ==> GetSource(w, f) == (w, w.flats[f].cached.value.source))
            && (!hit ==> FlatAt(w', f).cached.Some? && FlatAt(w', f).cached.value.gate >= w.nextGate)
            && (FlatAt(w', f).cached == w.flats[f].cached <==> hit)
  {
    assert Held.GateOk(w, f);
    var (w1, v) := Sources.Get(w, OuterOf(w, f));
    GetTouches(w, OuterOf(w, f), f);
    Sweeps.GetUsesNewGates(w, OuterOf(w, f));
    StoreHandsOutTheCached(w1, f, w.flats[f].counted % WRAP, AsSource(v));
  }

  lemma {:induction false} ArmedGetIsFree(w: World, s: Source)
    requires Valid(w) && SourceOk(s) && Armed(w, s) && forall f :: f in w.flats ==> w.flats[f].counted == 0
    ensures Sources.Get(w, s).0 == w
    decreases Level(s)
  {
    match s
    case Const(_) =>
    case Cell(_) =>
    case Map(_, inner) => ArmedGetIsFree(w, inner);
    case Flat(f) => ArmedGetIsFree(w, w.flats[f].cached.value.source);
  }

  lemma {:induction false} QuietRunCountsNothing(w: World, ops: seq<Op>)
    requires Good(w) && (forall op :: op in ops ==> Allowed(op) && !SourceRuns.Sets(op))
    requires forall f :: f in w.flats ==> w.flats[f].counted == 0
    ensures Good(Run(w, ops)) && forall f :: f in Run(w, ops).flats ==> Run(w, ops).flats[f].counted == 0
    decreases |ops|
  {
    if ops != [] {
      var w1 := Step(w, ops[0]);
      QuietStep(w, ops[0]);
      forall f | f in w1.flats ensures w1.flats[f].counted == 0 {
        assert FlatAt(w1, f).counted == FlatAt(w, f).counted;
      }
      QuietRunCountsNothing(w1, ops[1..]);
    }
  }

  /** Before anything is set, a source that has been got once is got again at no cost: nothing in the
      world changes, and nobody registers anywhere. */
  lemma GetAgainIsFree(w: World, ops: seq<Op>, s: Source)
    requires Initial(w) && SourceOk(s) && (forall op :: op in ops ==> Allowed(op) && !SourceRuns.Sets(op))
    ensures var w1 := Sources.Get(Run(w, ops), s).0; Sources.Get(w1, s).0 == w1
  {
    var w0 := Run(w, ops);
    var w1 := Sources.Get(w0, s).0;
    QuietRunCountsNothing(w, ops);
    GetIsRight(w0, s);
    forall f | f in w1.flats ensures w1.flats[f].counted == 0 {
      assert FlatAt(w1, f).counted == FlatAt(w0, f).counted;
    }
    ArmedGetIsFree(w1, s);
  }
}
