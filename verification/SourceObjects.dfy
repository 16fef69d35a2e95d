/** Cells, `map` and flatten nodes as they run: state changed in place, notifications delivered by
    walking the listeners. Each method is proved against its function in module Sources. */
module SourceObjects {
  import opened Wrappers
  import S = Sources

  type Source = S.Source
  type Val = S.Val

  /** All nodes of one source graph; node `f` of a kind is entry `f` of the maps of that kind. */
  class Graph {
    const apply: (nat, Val) -> Val
    const outers: map<nat, Source>
    var cells: map<nat, Val>
    var generationFromListening: map<nat, nat>   // of each flatten node, a u32
    var states: map<nat, S.Cached>               // those that are not None
    var subscribers: map<S.NotifierId, seq<S.Subscriber>>
    var heard: map<nat, nat>
    var nextGate: nat
    ghost var flats: map<nat, S.FlatState>       // the two above, and the counts without wrapping

    ghost predicate Consistent() reads this {
      && flats.Keys == generationFromListening.Keys && states.Keys <= flats.Keys
      && forall f :: f in flats ==>
           && generationFromListening[f] == flats[f].counted % WRAP
           && flats[f].cached == if f in states then Some(states[f]) else None
    }

    /** The abstract value. */
    ghost function World(): S.World reads this {
      S.World(cells, apply, outers, flats, subscribers, nextGate, heard)
    }

    constructor (apply: (nat, Val) -> Val, outers: map<nat, Source>, cells: map<nat, Val>)
      ensures Consistent()
      ensures World() == S.World(cells, apply, outers, map[], map[], 0, map[])
    {
      this.apply, this.outers, this.cells := apply, outers, cells;
      generationFromListening, states, subscribers, heard, nextGate := map[], map[], map[], map[], 0;
      flats := map[];
    }

    method ListenTo(s: Source, sub: S.Subscriber)
      requires Consistent()
      modifies `subscribers
      ensures Consistent() && World() == S.Listen(old(World()), s, sub)
    {
      var n := S.Base(s);
      if n.Some? {
        var before := if n.value in subscribers then subscribers[n.value] else [];
        subscribers := subscribers[n.value := before + [sub]];
      }
    }

    /** `Flatten::new`. */
    method NewFlatten(f: nat)
      requires Consistent()
      modifies this
      ensures Consistent() && World() == S.Create(old(World()), f)
    {
      if f !in generationFromListening {
        generationFromListening := generationFromListening[f := 0];
        flats := flats[f := S.FlatState(0, None)];
        ListenTo(if f in outers then outers[f] else S.Const(S.Int(0)), S.Outer(f));
      }
    }

    // ----- notifying

    method Notify(n: S.NotifierId)
      requires Consistent() && S.SubscribersOk(World())
      modifies `heard, `generationFromListening, `flats
      ensures Consistent() && World() == S.Deliver(old(World()), n, 0)
      decreases S.Above(World(), n), 2
    {
      ghost var w0 := World();
      var length := if n in subscribers then |subscribers[n]| else 0;
      for k := 0 to length
        invariant Consistent() && Delivered(w0, World(), n, k)
      {
        NotifyNext(n, k, w0);
      }
    }

    method NotifyNext(n: S.NotifierId, k: nat, ghost w0: S.World)
      requires Consistent() && S.SubscribersOk(w0) && Delivered(w0, World(), n, k) && k < |S.SubscribersOf(w0, n)|
      modifies `heard, `generationFromListening, `flats
      ensures Consistent() && Delivered(w0, World(), n, k + 1)
      decreases S.Above(World(), n), 1
    {
      Pass(n, k);
    }

    /** `receive` of listener `k` of `n`. */
    method Pass(n: S.NotifierId, k: nat)
      requires Consistent() && S.SubscribersOk(World()) && k < |S.SubscribersOf(World(), n)|
      modifies `heard, `generationFromListening, `flats
      ensures Consistent() && World() == S.Receive(old(World()), n, k)
      decreases S.Above(World(), n), 0
    {
      var sub := subscribers[n][k];
      assert S.Upward(n, flats.Keys, sub);
      match sub
      case Client(c) =>
        heard := heard[c := (if c in heard then heard[c] else 0) + 1];
      case Outer(f) =>
        Narrows(World(), n, f);
        FetchAdd(f);
        Notify(S.OfFlat(f));
      case Inner(f, gate) =>
        Narrows(World(), n, f);
        if f in states && states[f].gate == gate { Notify(S.OfFlat(f)); }
    }

    method FetchAdd(f: nat)
      requires Consistent() && f in flats
      modifies `generationFromListening, `flats
      ensures Consistent() && World() == S.Count(old(World()), f)
    {
      Wraps(flats[f].counted);
      generationFromListening := generationFromListening[f := (generationFromListening[f] + 1) % WRAP];
      ghost var w := World();
      flats := flats[f := flats[f].(counted := flats[f].counted + 1)];
      assert S.FlatAt(w, f) == w.flats[f];
    }

    /** `Cell::set`. */
    method Set(c: nat, v: Val)
      requires Consistent() && S.SubscribersOk(World())
      modifies this
      ensures Consistent() && World() == S.SetCell(old(World()), c, v)
    {
      cells := cells[c := v];
      Notify(S.OfCell(c));
    }

    /** `Cell::set_if_unequal`. */
    method SetIfUnequal(c: nat, v: Val)
      requires Consistent() && S.SubscribersOk(World())
      modifies this
      ensures Consistent() && World() == S.SetCellIfUnequal(old(World()), c, v)
    {
      if (if c in cells then cells[c] else S.Int(0)) != v { Set(c, v); }
    }

    // ----- getting

    /** `Source::get`. */
    method Get(s: Source) returns (v: Val)
      requires Consistent() && S.Valid(World()) && S.SourceOk(s)
      modifies this
      ensures Consistent() && (World(), v) == S.Get(old(World()), s)
      decreases S.Level(s), 1
    {
      match s
      case Const(value) => v := value;
      case Cell(c) => v := if c in cells then cells[c] else S.Int(0);
      case Map(m, inner) =>
        v := Get(inner);
        v := apply(m, v);
      case Flat(f) =>
        S.CreateIsValid(World(), f);
        NewFlatten(f);
        var source := GetSourceAndListenIfNew(f);
        v := Get(source);
    }

    method GetSourceAndListenIfNew(f: nat) returns (source: Source)
      requires Consistent() && S.Valid(World()) && f in flats
      modifies this
      ensures Consistent() && (World(), source) == S.GetSource(old(World()), f)
      decreases f + 1, 0
    {
      var needed := generationFromListening[f];
      if f in states && states[f].generation == needed {
        return states[f].source;
      }
      var v := Get(if f in outers then outers[f] else S.Const(S.Int(0)));
      S.ListenAndStoreIsValid(World(), f, needed, S.AsSource(v));
      source := Store(f, needed, S.AsSource(v));
    }

    method Store(f: nat, needed: nat, fetched: Source) returns (source: Source)
      requires Consistent() && f in flats
      modifies `nextGate, `subscribers, `states, `flats
      ensures Consistent() && (World(), source) == S.ListenAndStore(old(World()), f, needed, fetched)
    {
      var gate := Attach(f, fetched);
      if f in states && states[f].generation >= needed {
        source := states[f].source;
      } else {
        Put(f, S.Cached(0, fetched, gate));
        source := fetched;
      }
    }

    method Attach(f: nat, source: Source) returns (gate: nat)
      requires Consistent()
      modifies `nextGate, `subscribers
      ensures Consistent() && World() == S.Attach(old(World()), f, source) && gate == old(nextGate)
    {
      gate := nextGate;
      nextGate := nextGate + 1;
      ListenTo(source, S.Inner(f, gate));
    }

    method Put(f: nat, cached: S.Cached)
      requires Consistent() && f in flats
      modifies `states, `flats
      ensures Consistent() && World() == S.Put(old(World()), f, cached)
    {
      states := states[f := cached];
      flats := flats[f := flats[f].(cached := Some(cached))];
    }
  }

  lemma Wraps(count: nat)
    ensures (count % WRAP + 1) % WRAP == (count + 1) % WRAP
  {}

  /** `w` is what there is when the first `k` listeners of `n` have been notified. */
  ghost predicate Delivered(w0: S.World, w: S.World, n: S.NotifierId, k: nat)
    requires S.SubscribersOk(w0)
  {
    && S.SubscribersOk(w) && k <= |S.SubscribersOf(w, n)| && S.Above(w, n) == S.Above(w0, n)
    && w.subscribers == w0.subscribers
    && S.Deliver(w, n, k) == S.Deliver(w0, n, 0)
  }

  /** A flatten node has fewer nodes above it than what it listens to. */
  lemma Narrows(w: S.World, n: S.NotifierId, f: nat)
    requires f in w.flats && S.Rank(n) < f
    ensures S.Above(w, S.OfFlat(f)) < S.Above(w, n)
    ensures S.Above(S.Count(w, f), S.OfFlat(f)) == S.Above(w, S.OfFlat(f))
  {
    assert f in S.Above(w, n) && f !in S.Above(w, S.OfFlat(f));
  }
}
