/** Neither condition of FlattenNotices.NoMissedChange can be dropped. */
module FlattenLimits {
  import opened Wrappers
  import opened FlattenProtocol
  import opened FlattenNotices
  import Fresh = FlattenFreshness
  import Gates = FlattenGates

  /** Since the get that returned `r` began: another value now, nobody at work, and nobody told. */
  ghost predicate ChangeMissed(s: State, r: Result) {
    s.setters == map[] && s.inner(Current(s)) != r.value && s.notices == r.ticket.start
  }

  /** A state together with a run that leads to it. */
  datatype Trace = Trace(actions: seq<Action>, state: State)

  ghost predicate Leads(init: State, r: Trace) {
    init.outer != [] && r.state == Run(init, r.actions)
  }

  lemma Go(init: State, r: Trace, a: Action) returns (r': Trace)
    requires Leads(init, r) && Enabled(r.state, a)
    ensures Leads(init, r') && r' == Trace(r.actions + [a], Step(r.state, a))
  {
    r' := Trace(r.actions + [a], Step(r.state, a));
    RunOne(init, r.actions, a);
  }

  lemma Then(init: State, r: Trace, a: Action) returns (r': Trace)
    requires Leads(init, r) && Enabled(r.state, a)
    ensures Leads(init, r') && r' == Trace(r.actions + [a], Step(r.state, a))
    ensures Serial(init, r.actions) && (a.Start? ==> r.state.getters == map[]) ==> Serial(init, r'.actions)
  {
    r' := Go(init, r, a);
    assert r'.actions[..|r.actions|] == r.actions;
  }

  /** All of one set of the outer cell. */
  lemma SetOuterFully(init: State, r: Trace, t: nat, x: nat) returns (r': Trace)
    requires Leads(init, r) && t !in r.state.setters
    ensures Leads(init, r') && (Serial(init, r.actions) ==> Serial(init, r'.actions))
    ensures r'.state == r.state.(outer := r.state.outer + [x], counted := r.state.counted + 1,
                                 announced := Max(r.state.announced, |r.state.outer|),
                                 notices := r.state.notices + 1)
  {
    r' := SetAndCount(init, r, t, x);
    r' := Then(init, r', TellOuter(t));
    assert r'.state.setters == r.state.setters;
  }

  lemma SetAndCount(init: State, r: Trace, t: nat, x: nat) returns (r': Trace)
    requires Leads(init, r) && t !in r.state.setters
    ensures Leads(init, r') && (Serial(init, r.actions) ==> Serial(init, r'.actions))
    ensures r'.state == r.state.(outer := r.state.outer + [x], counted := r.state.counted + 1,
                                 announced := Max(r.state.announced, |r.state.outer|),
                                 setters := r.state.setters[t := OuterCounted])
  {
    r' := Then(init, r, SetOuter(t, x));
    r' := Then(init, r', CountOuter(t));
  }

  /** The first part of a get that misses the cache. */
  lemma GetFetches(init: State, r: Trace, k: nat) returns (r': Trace)
    requires Leads(init, r) && k !in r.state.getters
    requires r.state.cache.Some? ==> r.state.cache.value.generation != Generation(r.state)
    ensures Leads(init, r') && (Serial(init, r.actions) && r.state.getters == map[] ==> Serial(init, r'.actions))
    ensures var s := r.state;
            r'.state == s.(getters := s.getters[k := Getter(Ticket(Generation(s), s.counted, s.announced, s.notices),
                                                             Fetched(Current(s), |s.outer| - 1))])
  {
    r' := Then(init, r, Start(k));
    r' := Then(init, r', Look(k));
    r' := Then(init, r', Fetch(k));
  }

  /** The second part, up to reading the value. */
  lemma GetStores(init: State, r: Trace, k: nat) returns (r': Trace)
    requires Leads(init, r) && At(r.state, k).Some? && At(r.state, k).value.Fetched? && r.state.setters == map[]
    requires r.state.cache.Some? ==> r.state.cache.value.generation < r.state.getters[k].ticket.needed
    requires r.state.cache.Some? ==> r.state.cache.value.gate < r.state.nextGate
    ensures Leads(init, r') && (Serial(init, r.actions) ==> Serial(init, r'.actions))
    ensures var (s, Getter(ticket, Fetched(x, v))) := (r.state, r.state.getters[k]);
            r'.state == s.(getters := s.getters[k := Getter(ticket, Chosen(x, v))],
                           cache := Some(Cache(0, x, s.nextGate, v)),
                           live := s.live - (if s.cache.Some? then {s.cache.value.gate} else {}) + {s.nextGate},
                           nextGate := s.nextGate + 1,
                           registered := s.registered + {(x, s.nextGate)})
  {
    var g := r.state.nextGate;
    r' := GetListens(init, r, k);
    r' := Then(init, r', Store(k));
    var closed := if r.state.cache.Some? then {r.state.cache.value.gate} else {};
    assert r.state.live + {g} - closed == r.state.live - closed + {g};
    assert r'.state.getters == r.state.getters[k := r'.state.getters[k]];
  }

  lemma GetListens(init: State, r: Trace, k: nat) returns (r': Trace)
    requires Leads(init, r) && At(r.state, k).Some? && At(r.state, k).value.Fetched? && r.state.setters == map[]
    ensures Leads(init, r') && (Serial(init, r.actions) ==> Serial(init, r'.actions))
    ensures var (s, Getter(ticket, Fetched(x, v))) := (r.state, r.state.getters[k]);
            r'.state == s.(getters := s.getters[k := Getter(ticket, Listening(x, v, s.nextGate))],
                           live := s.live + {s.nextGate}, nextGate := s.nextGate + 1,
                           registered := s.registered + {(x, s.nextGate)})
  {
    r' := Then(init, r, MakeGate(k));
    r' := Then(init, r', Listen(k));
    assert r'.state.getters == r.state.getters[k := r'.state.getters[k]];
  }

  // ----- more than 2^32 outer notifications

  lemma {:induction false} SetOuterOften(init: State, r: Trace, t: nat, x: nat, n: nat) returns (r': Trace)
    requires Leads(init, r) && r.state.setters == map[] && Serial(init, r.actions) && n > 0
    ensures Leads(init, r') && Serial(init, r'.actions)
    ensures r'.state == r.state.(outer := r'.state.outer, counted := r.state.counted + n,
                                 announced := r'.state.announced, notices := r.state.notices + n)
    ensures Current(r'.state) == x
    decreases n
  {
    if n == 1 {
      r' := SetOuterFully(init, r, t, x);
    } else {
      var r1 := SetOuterOften(init, r, t, x, n - 1);
      r' := SetOuterFully(init, r1, t, x);
    }
  }

  /** With 2^32 outer notifications the counter is back where it was when the cache was filled,
      and one thread alone, in a get of its own, is given the first inner source although the
      outer cell has held another for a long time. */
  lemma WrappingMissesAChange(a: nat, b: nat, inner: nat -> Val) returns (actions: seq<Action>)
    requires inner(a) != inner(b)
    ensures var s := Run(Init(a, inner), actions);
            && Serial(Init(a, inner), actions) && s.getters == map[] && s.counted == WRAP
            && s.last.Some? && ChangeMissed(s, s.last.value)
  {
    var init := Init(a, inner);
    var r := FirstGet(a, inner);
    r := SetOuterOften(init, r, 0, b, WRAP);
    r := GetHits(init, r);
    actions := r.actions;
  }

  lemma FirstGet(a: nat, inner: nat -> Val) returns (r: Trace)
    ensures var init := Init(a, inner); Leads(init, r) && Serial(init, r.actions)
    ensures var s := r.state;
            && s.getters == map[] && s.setters == map[] && s.inner == inner && s.counted == 0 && s.last.Some?
            && s.cache.Some? && s.cache.value.generation == 0 && s.cache.value.source == a
  {
    var init := Init(a, inner);
    r := GetFetches(init, Trace([], init), 0);
    r := GetStores(init, r, 0);
    r := Then(init, r, Read(0));
    assert r.state.getters == map[];
  }

  /** A get that finds the counter at 0 is given the cached source. */
  lemma GetHits(init: State, r: Trace) returns (r': Trace)
    requires Leads(init, r) && Serial(init, r.actions) && r.state.getters == map[]
    requires r.state.cache.Some? && r.state.cache.value.generation == Generation(r.state)
    ensures Leads(init, r') && Serial(init, r'.actions)
    ensures var (s, c) := (r.state, r.state.cache.value);
            r'.state == s.(last := Some(Result(s.inner(c.source), c.source, c.version,
                                               Ticket(Generation(s), s.counted, s.announced, s.notices))))
  {
    r' := Then(init, r, Start(0));
    r' := Then(init, r', Look(0));
    r' := Then(init, r', Read(0));
    assert r'.state.getters == map[];
  }

  // ----- two gets at once

  /** Two gets have each fetched a source: the first the older one, 1; the second the newer, 2. */
  lemma TwoGetsFetch(inner: nat -> Val) returns (r: Trace)
    ensures Leads(Init(0, inner), r)
    ensures var s := r.state;
            && s.cache == None && s.setters == map[] && s.live == {} && s.nextGate == 0 && s.registered == {}
            && s.inner == inner && s.last == None && s.notices == 2 && s.counted == 2 && Current(s) == 2
            && s.getters == map[0 := Getter(Ticket(1, 1, 1, 1), Fetched(1, 1)),
                                1 := Getter(Ticket(2, 2, 2, 2), Fetched(2, 2))]
  {
    var init := Init(0, inner);
    r := ChangedAndFetched(init, Trace([], init), 1, 0);
    r := ChangedAndFetched(init, r, 2, 1);
  }

  /** The outer cell is set, and a get fetches what it holds. */
  lemma ChangedAndFetched(init: State, r: Trace, x: nat, k: nat) returns (r': Trace)
    requires Leads(init, r) && r.state.setters == map[] && k !in r.state.getters && r.state.cache == None
    requires r.state.counted + 1 < WRAP
    requires r.state.announced == r.state.counted == r.state.notices == |r.state.outer| - 1
    ensures Leads(init, r')
    ensures var (s, n) := (r.state, r.state.counted + 1);
            r'.state == s.(outer := s.outer + [x], counted := n, announced := n, notices := n,
                           getters := s.getters[k := Getter(Ticket(n, n, n, n), Fetched(x, n))])
  {
    r' := SetOuterFully(init, r, 0, x);
    assert Max(r.state.announced, |r.state.outer|) == r.state.counted + 1 == Generation(r'.state);
    assert Current(r'.state) == x;
    r' := GetFetches(init, r', k);
  }

  /** The older get, and the newer; each has picked its source. */
  const OLDER := Getter(Ticket(1, 1, 1, 1), Chosen(1, 1))
  const NEWER := Getter(Ticket(2, 2, 2, 2), Chosen(2, 2))

  /** The second stores its source and is about to read it when the first stores the older
      one over it, which closes the second's gate. */
  lemma TheOlderOneWins(inner: nat -> Val) returns (r: Trace)
    ensures Leads(Init(0, inner), r)
    ensures var s := r.state;
            && s.setters == map[] && s.live == {1} && s.registered == {(2, 0), (1, 1)}
            && s.getters == map[0 := OLDER, 1 := NEWER]
            && s.inner == inner && s.notices == 2 && s.counted == 2 && Current(s) == 2
  {
    var init := Init(0, inner);
    r := TwoGetsFetch(inner);
    r := GetStores(init, r, 1);
    r := GetStores(init, r, 0);
    assert r.state.live == {1};
  }

  /** Get number `k`, the other one having completed or not. */
  lemma OneReads(init: State, r: Trace, k: nat, g: Getter, others: map<nat, Getter>) returns (r': Trace)
    requires Leads(init, r) && k !in others && r.state.getters == others[k := g] && g.stage.Chosen?
    ensures Leads(init, r')
    ensures var x := g.stage.source;
            r'.state == r.state.(getters := others,
                                 last := Some(Result(r.state.inner(x), x, g.stage.version, g.ticket)))
  {
    r' := Then(init, r, Read(k));
    assert r'.state.getters == others;
  }

  /** A set of an inner cell that nobody with an open gate listens to. */
  lemma SilentSet(init: State, r: Trace, x: nat, v: Val) returns (r': Trace)
    requires Leads(init, r) && r.state.setters == map[] && Gates.OpenAt(r.state, x) == {}
    ensures Leads(init, r') && r'.state == r.state.(inner := r'.state.inner) && r'.state.inner(x) == v
    ensures BySetters(r.actions) ==> BySetters(r'.actions)
  {
    r' := SetAndBegin(init, r, x, v);
    r' := AskAll(init, r', x, GatesAt(r.state, x));
    r' := Go(init, r', End(0));
    assert r'.state.setters == map[];
  }

  lemma SetAndBegin(init: State, r: Trace, x: nat, v: Val) returns (r': Trace)
    requires Leads(init, r) && r.state.setters == map[]
    ensures Leads(init, r') && r'.state.inner(x) == v
    ensures r'.state == r.state.(inner := r'.state.inner, setters := map[0 := Telling(x, GatesAt(r.state, x))])
    ensures BySetters(r.actions) ==> BySetters(r'.actions)
  {
    r' := Go(init, r, SetInner(0, x, v));
    assert GatesAt(r'.state, x) == GatesAt(r.state, x);
    r' := Go(init, r', Begin(0));
    assert r'.state.setters == map[0 := Telling(x, GatesAt(r.state, x))];
  }

  /** Every gate is found closed. */
  lemma {:induction false} AskAll(init: State, r: Trace, x: nat, todo: set<nat>) returns (r': Trace)
    requires Leads(init, r) && r.state.setters == map[0 := Telling(x, todo)] && todo * r.state.live == {}
    ensures Leads(init, r') && r'.state == r.state.(setters := map[0 := Telling(x, {})])
    ensures BySetters(r.actions) ==> BySetters(r'.actions)
    decreases |todo|
  {
    if todo == {} {
      r' := r;
    } else {
      var g :| g in todo;
      r' := AskOne(init, r, x, todo, g);
      r' := AskAll(init, r', x, todo - {g});
    }
  }

  lemma AskOne(init: State, r: Trace, x: nat, todo: set<nat>, g: nat) returns (r': Trace)
    requires Leads(init, r) && r.state.setters == map[0 := Telling(x, todo)] && g in todo && todo * r.state.live == {}
    ensures Leads(init, r') && r'.actions == r.actions + [Ask(0, g)]
    ensures r'.state == r.state.(setters := map[0 := Telling(x, todo - {g})])
  {
    AskClosed(r.state, x, todo, g);
    r' := Go(init, r, Ask(0, g));
  }

  lemma AskClosed(s: State, x: nat, todo: set<nat>, g: nat)
    requires s.outer != [] && s.setters == map[0 := Telling(x, todo)] && g in todo && todo * s.live == {}
    ensures Enabled(s, Ask(0, g)) && Step(s, Ask(0, g)) == s.(setters := map[0 := Telling(x, todo - {g})])
  {
    assert g !in todo * s.live;
    assert s.setters[0 := Telling(x, todo - {g})] == map[0 := Telling(x, todo - {g})];
  }

  /** When gets overlap, a change can go unannounced although the get that returned the value
      was up to date when it returned: its cache entry has been replaced by an older one. */
  lemma OverlappingGetsMissAChange(inner: nat -> Val, v: Val) returns (actions: seq<Action>)
    requires v != inner(2)
    ensures var s := Run(Init(0, inner), actions);
            Fresh.Unwrapped(s) && s.getters == map[] && s.last.Some? && ChangeMissed(s, s.last.value)
  {
    var init := Init(0, inner);
    var r := TheOlderOneWins(inner);
    r := OneReads(init, r, 0, OLDER, map[1 := NEWER]);
    r := OneReads(init, r, 1, NEWER, map[]);
    assert GatesAt(r.state, 2) == {0};
    r := SilentSet(init, r, 2, v);
    actions := r.actions;
  }

  /** Nor does it help to have been told since the last get began: if the newer get completes first,
      it is the other one that was told last, and the newer one's change goes unannounced. */
  lemma EarlierGetMissesAChange(inner: nat -> Val, v: Val) returns (before: seq<Action>, rest: seq<Action>)
    requires v != inner(2)
    ensures var (s0, s) := (Run(Init(0, inner), before), Run(Init(0, inner), before + rest));
            && Fresh.Unwrapped(s) && s.getters == map[]
            && s0.last.Some? && s0.last.value.value == inner(2) && ChangeMissed(s, s0.last.value)
            && s.last.Some? && s.notices > s.last.value.ticket.start
  {
    var init := Init(0, inner);
    var r := TheOlderOneWins(inner);
    r := OneReads(init, r, 1, NEWER, map[0 := OLDER]);
    before := r.actions;
    var q := OneReads(r.state, Trace([], r.state), 0, OLDER, map[]);
    assert GatesAt(q.state, 2) == {0};
    q := SilentSet(r.state, q, 2, v);
    rest := q.actions;
    RunInTwo(init, before, rest);
  }
}
