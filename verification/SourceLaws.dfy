/** `get` returns what a source denotes, and no change of what it denotes goes unannounced. */
module SourceLaws {
  import opened Wrappers
  import opened Sources

  // ----- what a world denotes depends on the cells alone

  ghost predicate SameCells(w: World, w': World) {
    w'.cells == w.cells && w'.apply == w.apply && w'.outers == w.outers
  }

  lemma {:induction false} DenotesAlike(w: World, w': World, s: Source)
    requires Wired(w) && Wired(w') && SameCells(w, w') && SourceOk(s)
    ensures Denote(w', s) == Denote(w, s)
    decreases Level(s)
  {
    match s
    case Const(_) =>
    case Cell(_) =>
    case Map(_, inner) => DenotesAlike(w, w', inner);
    case Flat(f) =>
      DenotesAlike(w, w', OuterOf(w, f));
      DenotesAlike(w, w', AsSource(Denote(w, OuterOf(w, f))));
  }

  // ----- armed: any change will be announced

  /** The state of `f` holds the source it should, and both that source and the outer one will
      tell `f` when they have something to tell. */
  ghost predicate Linked(w: World, f: nat)
    requires Valid(w)
    decreases f + 1, 0
  {
    && f in w.flats && w.flats[f].cached.Some?
    && var Cached(_, source, gate) := w.flats[f].cached.value;
    && source == AsSource(Denote(w, OuterOf(w, f)))
    && Armed(w, OuterOf(w, f))
    && Subscribed(w, source, Inner(f, gate))
  }

  ghost predicate Armed(w: World, s: Source)
    requires Valid(w) && SourceOk(s)
    decreases Level(s), 1
  {
    match s
    case Const(_) => true
    case Cell(_) => true
    case Map(_, inner) => Armed(w, inner)
    case Flat(f) => Linked(w, f) && Armed(w, w.flats[f].cached.value.source)
  }

  /** A cache that can still be hit is right. */
  ghost predicate CachesOk(w: World)
    requires Valid(w)
  {
    forall f :: f in w.flats && w.flats[f].cached.Some? && w.flats[f].counted == 0 ==> Linked(w, f)
  }

  /** No counter has wrapped around. */
  ghost predicate Bounded(w: World) {
    forall f :: f in w.flats ==> w.flats[f].counted < WRAP
  }

  // ----- getting only adds

  /** `w'` has more subscribers, and where it has another cached source it has the right one. */
  ghost predicate Refreshed(w: World, w': World)
    requires Valid(w) && Valid(w')
  {
    && Joined(w, w') && w.flats.Keys <= w'.flats.Keys
    && forall f :: FlatAt(w', f).counted == FlatAt(w, f).counted
                   && (FlatAt(w', f).cached == FlatAt(w, f).cached || Right(w', f))
  }

  ghost predicate Right(w: World, f: nat)
    requires Valid(w)
  {
    && f in w.flats && w.flats[f].cached.Some?
    && var Cached(_, source, gate) := w.flats[f].cached.value;
    && source == AsSource(Denote(w, OuterOf(w, f)))
    && Subscribed(w, source, Inner(f, gate))
  }

  lemma RightStaysRight(w: World, w': World, f: nat)
    requires Valid(w) && Valid(w') && Refreshed(w, w') && Right(w, f)
    ensures Right(w', f)
  {
    DenotesAlike(w, w', OuterOf(w, f));
    assert FlatAt(w', f).cached == FlatAt(w, f).cached || Right(w', f);
  }

  lemma RefreshedTwice(w: World, w1: World, w2: World)
    requires Valid(w) && Valid(w1) && Valid(w2) && Refreshed(w, w1) && Refreshed(w1, w2)
    ensures Refreshed(w, w2)
  {
    forall f ensures FlatAt(w2, f).counted == FlatAt(w, f).counted
                     && (FlatAt(w2, f).cached == FlatAt(w, f).cached || Right(w2, f))
    {
      if Right(w1, f) { RightStaysRight(w1, w2, f); }
    }
    forall n ensures SubscribersOf(w, n) <= SubscribersOf(w2, n) {
      assert SubscribersOf(w, n) <= SubscribersOf(w1, n) <= SubscribersOf(w2, n);
    }
  }

  lemma {:induction false} ArmedStaysArmed(w: World, w': World, s: Source)
    requires Valid(w) && Valid(w') && Refreshed(w, w') && SourceOk(s) && Armed(w, s)
    ensures Armed(w', s)
    decreases Level(s)
  {
    match s
    case Const(_) =>
    case Cell(_) =>
    case Map(_, inner) => ArmedStaysArmed(w, w', inner);
    case Flat(f) =>
      RightStaysRight(w, w', f);
      ArmedStaysArmed(w, w', OuterOf(w, f));
      DenotesAlike(w, w', OuterOf(w, f));
      ArmedStaysArmed(w, w', w.flats[f].cached.value.source);
  }

  lemma LinkedStaysLinked(w: World, w': World, f: nat)
    requires Valid(w) && Valid(w') && Refreshed(w, w') && Linked(w, f)
    ensures Linked(w', f)
  {
    RightStaysRight(w, w', f);
    ArmedStaysArmed(w, w', OuterOf(w, f));
  }

  // ----- get

  lemma CreateRefreshes(w: World, f: nat)
    requires Valid(w)
    ensures Valid(Create(w, f)) && Refreshed(w, Create(w, f)) && f in Create(w, f).flats
  {
    CreateIsValid(w, f);
  }

  lemma StoreRefreshes(w: World, f: nat, needed: nat, source: Source)
    requires Valid(w) && f in w.flats && (needed > 0 || w.flats[f].cached.None?)
    requires source == AsSource(Denote(w, OuterOf(w, f)))
    ensures SourceOk(source) && Level(source) <= f
    ensures var (w', source') := ListenAndStore(w, f, needed, source);
            Valid(w') && Refreshed(w, w') && Right(w', f) && source' == source
            && w'.flats[f].cached.value.source == source
  {
    var (w', source') := ListenAndStore(w, f, needed, source);
    ListenAndStoreIsValid(w, f, needed, source);
    ListenAndStoreJoins(w, f, needed, source);
    DenotesAlike(w, w', OuterOf(w, f));
  }

  ghost predicate Good(w: World) { Valid(w) && CachesOk(w) && Bounded(w) }

  /** Refreshing with a link of its own for every cache that is new. */
  lemma GoodStaysGood(w: World, w': World, f: nat)
    requires Good(w) && Valid(w') && Refreshed(w, w')
    requires forall g :: FlatAt(w', g).cached == FlatAt(w, g).cached || (g == f && Linked(w', f))
    ensures Good(w')
  {
    forall g | g in w'.flats && w'.flats[g].cached.Some? && w'.flats[g].counted == 0 ensures Linked(w', g) {
      if FlatAt(w', g).cached == FlatAt(w, g).cached {
        assert FlatAt(w', g) == FlatAt(w, g);
        LinkedStaysLinked(w, w', g);
      }
    }
    forall g | g in w'.flats ensures w'.flats[g].counted < WRAP {
      assert FlatAt(w', g).counted == FlatAt(w, g).counted;
    }
  }

  lemma {:induction false} GetIsRight(w: World, s: Source)
    requires Good(w) && SourceOk(s)
    ensures var (w', v) := Get(w, s);
            Good(w') && Refreshed(w, w') && Armed(w', s) && v == Denote(w, s)
    decreases Level(s), 1
  {
    match s
    case Const(_) =>
    case Cell(_) =>
    case Map(_, inner) => GetIsRight(w, inner);
    case Flat(f) => GetFlatIsRight(w, f);
  }

  lemma {:induction false} GetFlatIsRight(w: World, f: nat)
    requires Good(w)
    ensures var (w', v) := Get(w, Flat(f));
            Good(w') && Refreshed(w, w') && Armed(w', Flat(f)) && v == Denote(w, Flat(f))
    decreases Level(Flat(f)), 0
  {
    var w0 := Create(w, f);
    CreateIsValid(w, f);
    GoodStaysGood(w, w0, f);
    GetSourceIsRight(w0, f);
    var (w1, source) := GetSource(w0, f);
    var w2 := Get(w1, source).0;
    GetIsRight(w1, source);
    LinkedStaysLinked(w1, w2, f);
    DenotesAlike(w, w0, OuterOf(w, f));
    DenotesAlike(w, w1, source);
    DenotesAlike(w0, w2, OuterOf(w, f));
    RefreshedTwice(w0, w1, w2);
    RefreshedTwice(w, w0, w2);
  }

  /** The inner source is the one the outer source denotes, and the state is linked to both,
      whether the cache was hit or not. */
  lemma {:induction false} GetSourceIsRight(w: World, f: nat)
    requires Good(w) && f in w.flats
    ensures var (w', source) := GetSource(w, f);
            Good(w') && Refreshed(w, w') && Linked(w', f) && source == AsSource(Denote(w, OuterOf(w, f)))
    decreases Level(Flat(f)), 0, 0
  {
    var needed := w.flats[f].counted % WRAP;
    var cached := w.flats[f].cached;
    if cached.Some? && cached.value.generation == needed {
      HitIsRight(w, f);
    } else {
      var (w1, v) := Get(w, OuterOf(w, f));
      FetchIsRight(w, f);
      StoreLinks(w1, f, needed, AsSource(v));
      RefreshedTwice(w, w1, ListenAndStore(w1, f, needed, AsSource(v)).0);
    }
  }

  lemma HitIsRight(w: World, f: nat)
    requires Good(w) && f in w.flats && w.flats[f].cached.Some?
    requires w.flats[f].cached.value.generation == w.flats[f].counted % WRAP
    ensures Refreshed(w, w) && Linked(w, f) && w.flats[f].cached.value.source == AsSource(Denote(w, OuterOf(w, f)))
  {
  }

  lemma {:induction false} FetchIsRight(w: World, f: nat)
    requires Good(w) && f in w.flats
    ensures var (w1, v) := Get(w, OuterOf(w, f));
            && Good(w1) && Refreshed(w, w1) && Armed(w1, OuterOf(w, f)) && FlatAt(w1, f) == FlatAt(w, f)
            && v == Denote(w, OuterOf(w, f)) == Denote(w1, OuterOf(w, f))
    decreases f, 2
  {
    GetIsRight(w, OuterOf(w, f));
    GetTouches(w, OuterOf(w, f), f);
    DenotesAlike(w, Get(w, OuterOf(w, f)).0, OuterOf(w, f));
  }

  lemma StoreLinks(w: World, f: nat, needed: nat, source: Source)
    requires Good(w) && f in w.flats && (needed > 0 || w.flats[f].cached.None?)
    requires source == AsSource(Denote(w, OuterOf(w, f))) && Armed(w, OuterOf(w, f))
    ensures SourceOk(source) && Level(source) <= f
    ensures var (w', source') := ListenAndStore(w, f, needed, source);
            Good(w') && Refreshed(w, w') && Linked(w', f) && source' == source
  {
    StoreRefreshes(w, f, needed, source);
    ListenAndStoreJoins(w, f, needed, source);
    var w' := ListenAndStore(w, f, needed, source).0;
    ArmedStaysArmed(w, w', OuterOf(w, f));
    GoodStaysGood(w, w', f);
  }

  /** A get counts nothing, and does not touch the flatten nodes that are not part of the source. */
  lemma {:induction false} GetTouches(w: World, s: Source, g: nat)
    requires Valid(w) && SourceOk(s)
    ensures FlatAt(Get(w, s).0, g).counted == FlatAt(w, g).counted
    ensures Level(s) <= g ==> FlatAt(Get(w, s).0, g) == FlatAt(w, g)
    decreases Level(s), 1
  {
    match s
    case Const(_) =>
    case Cell(_) =>
    case Map(_, inner) => GetTouches(w, inner, g);
    case Flat(f) =>
      CreateIsValid(w, f);
      GetSourceTouches(Create(w, f), f, g);
      var (w1, source) := GetSource(Create(w, f), f);
      GetTouches(w1, source, g);
  }

  lemma {:induction false} GetSourceTouches(w: World, f: nat, g: nat)
    requires Valid(w) && f in w.flats
    ensures FlatAt(GetSource(w, f).0, g).counted == FlatAt(w, g).counted
    ensures f < g ==> FlatAt(GetSource(w, f).0, g) == FlatAt(w, g)
    decreases f + 1, 0
  {
    var needed := w.flats[f].counted % WRAP;
    var cached := w.flats[f].cached;
    if !(cached.Some? && cached.value.generation == needed) {
      var (w1, v) := Get(w, OuterOf(w, f));
      GetTouches(w, OuterOf(w, f), g);
      ListenAndStoreJoins(w1, f, needed, AsSource(v));
    }
  }
}
