/** Which gates of a flatten source are open. */
module FlattenGates {
  import opened Wrappers
  import opened FlattenProtocol

  /** Between making a gate and letting go of it. */
  predicate Holding(stage: Stage) { stage.Gated? || stage.Listening? || stage.Beaten? }

  ghost function Holders(s: State): set<nat> {
    set k | k in s.getters && Holding(s.getters[k].stage)
  }

  ghost function Held(s: State, k: nat): nat
    requires k in Holders(s)
  {
    s.getters[k].stage.gate
  }

  ghost predicate Inv(s: State) { OneOwner(s) && OneSource(s) }

  /** A gate is open exactly while the cache or a getter owns it, and it has one owner. */
  ghost predicate OneOwner(s: State) {
    && (forall g :: g in s.live <==>
          (s.cache.Some? && s.cache.value.gate == g) || exists k :: k in Holders(s) && Held(s, k) == g)
    && (forall k :: k in Holders(s) && s.cache.Some? ==> Held(s, k) != s.cache.value.gate)
    && (forall k, k' :: k in Holders(s) && k' in Holders(s) && Held(s, k) == Held(s, k') ==> k == k')
    && (forall g :: g in s.live ==> g < s.nextGate)
  }

  /** Its listener is registered with one source. */
  ghost predicate OneSource(s: State) {
    && (forall r :: r in s.registered ==> r.1 < s.nextGate)
    && (forall r, r' :: r in s.registered && r' in s.registered && r.1 == r'.1 ==> r == r')
    && (s.cache.Some? ==> (s.cache.value.source, s.cache.value.gate) in s.registered)
    && (forall k :: k in Holders(s) ==>
          match s.getters[k].stage
          case Gated(_, _, g) => forall r :: r in s.registered ==> r.1 != g
          case Listening(x, _, g) => (x, g) in s.registered
          case _ => true)
  }

  lemma MakeGateKeepsInv(s: State, k: nat)
    requires s.outer != [] && Inv(s) && Enabled(s, MakeGate(k))
    ensures Inv(Step(s, MakeGate(k)))
  {
    var s' := Step(s, MakeGate(k));
    assert Holders(s') == Holders(s) + {k};
    assert Held(s', k) == s.nextGate;
    forall k' | k' in Holders(s) ensures Held(s', k') == Held(s, k') < s.nextGate {
      assert Held(s, k') in s.live;
    }
  }

  lemma ListenKeepsInv(s: State, k: nat)
    requires s.outer != [] && Inv(s) && Enabled(s, Listen(k))
    ensures Inv(Step(s, Listen(k)))
  {
    var s' := Step(s, Listen(k));
    assert k in Holders(s) && Holders(s') == Holders(s);
    assert forall k' :: k' in Holders(s) ==> Held(s', k') == Held(s, k');
    assert Held(s, k) in s.live;
  }

  lemma StoreKeepsInv(s: State, k: nat)
    requires s.outer != [] && Inv(s) && Enabled(s, Store(k))
    ensures Inv(Step(s, Store(k)))
  {
    StoreKeepsHolders(s, k);
    StoreKeepsOneOwner(s, k);
    assert k in Holders(s);
  }

  lemma StoreKeepsHolders(s: State, k: nat)
    requires s.outer != [] && Enabled(s, Store(k))
    ensures var s' := Step(s, Store(k));
            && k in Holders(s) && Holders(s') == (if s'.getters[k].stage.Beaten? then Holders(s) else Holders(s) - {k})
            && forall k' :: k' in Holders(s') ==> Held(s', k') == Held(s, k')
  {
  }

  lemma StoreKeepsOneOwner(s: State, k: nat)
    requires s.outer != [] && OneOwner(s) && Enabled(s, Store(k))
    ensures OneOwner(Step(s, Store(k)))
  {
    StoreKeepsHolders(s, k);
  }

  lemma DiscardKeepsInv(s: State, k: nat)
    requires s.outer != [] && Inv(s) && Enabled(s, Discard(k))
    ensures Inv(Step(s, Discard(k)))
  {
    var s' := Step(s, Discard(k));
    assert k in Holders(s) && Holders(s') == Holders(s) - {k};
    assert forall k' :: k' in Holders(s') ==> Held(s', k') == Held(s, k');
  }

  lemma StepKeepsInv(s: State, a: Action)
    requires s.outer != [] && Inv(s) && Enabled(s, a)
    ensures Inv(Step(s, a))
  {
    match a
    case MakeGate(k) => MakeGateKeepsInv(s, k);
    case Listen(k) => ListenKeepsInv(s, k);
    case Store(k) => StoreKeepsInv(s, k);
    case Discard(k) => DiscardKeepsInv(s, k);
    case _ => OthersKeepInv(s, a);
  }

  /** No other action touches a gate, or a getter that holds one. */
  lemma OthersKeepInv(s: State, a: Action)
    requires s.outer != [] && Inv(s) && Enabled(s, a)
    requires !a.MakeGate? && !a.Listen? && !a.Store? && !a.Discard?
    ensures Inv(Step(s, a))
  {
    var s' := Step(s, a);
    OthersKeepHolders(s, a);
    assert forall k :: k in Holders(s) ==> Held(s', k) == Held(s, k);
  }

  lemma OthersKeepHolders(s: State, a: Action)
    requires s.outer != [] && Enabled(s, a)
    requires !a.MakeGate? && !a.Listen? && !a.Store? && !a.Discard?
    ensures var s' := Step(s, a);
            && Holders(s') == Holders(s)
            && (forall k :: k in Holders(s) ==> s'.getters[k] == s.getters[k])
            && s'.cache == s.cache && s'.live == s.live && s'.nextGate == s.nextGate && s'.registered == s.registered
  {
  }

  lemma {:induction false} RunKeepsInv(source: nat, inner: nat -> Val, actions: seq<Action>)
    ensures Inv(Run(Init(source, inner), actions))
  {
    if actions != [] {
      var front := actions[..|actions| - 1];
      RunKeepsInv(source, inner, front);
      var s1 := Run(Init(source, inner), front);
      if Enabled(s1, actions[|actions| - 1]) { StepKeepsInv(s1, actions[|actions| - 1]); }
    }
  }

  lemma {:induction false} ImageSize(s: State, ks: set<nat>)
    requires ks <= Holders(s)
    ensures |set k | k in ks :: Held(s, k)| <= |ks|
  {
    if ks != {} {
      var k :| k in ks;
      ImageSize(s, ks - {k});
      assert (set k' | k' in ks :: Held(s, k')) == (set k' | k' in ks - {k} :: Held(s, k')) + {Held(s, k)};
    }
  }

  lemma FewGates(s: State)
    requires Inv(s)
    ensures |s.live| <= 1 + |Holders(s)|
  {
    var held := set k | k in Holders(s) :: Held(s, k);
    var cached := if s.cache.Some? then {s.cache.value.gate} else {};
    ImageSize(s, Holders(s));
    forall g | g in s.live ensures g in held + cached {
      if !(s.cache.Some? && s.cache.value.gate == g) {
        var k :| k in Holders(s) && Held(s, k) == g;
      }
    }
    SubsetSize(s.live, held + cached);
    assert |held + cached| <= |held| + |cached|;
  }

  lemma {:induction false} SubsetSize(a: set<nat>, b: set<nat>)
    requires a <= b
    ensures |a| <= |b|
  {
    if a != {} {
      var x :| x in a;
      SubsetSize(a - {x}, b - {x});
    }
  }

  /** In every interleaving, at most one gate is open besides those of the getters between
      making a gate and letting go of it (src/source/flatten.rs:103-127). */
  lemma FewGatesAreOpen(source: nat, inner: nat -> Val, actions: seq<Action>)
    ensures var s := Run(Init(source, inner), actions); |s.live| <= 1 + |Holders(s)|
  {
    RunKeepsInv(source, inner, actions);
    FewGates(Run(Init(source, inner), actions));
  }

  /** The open gates among those a setter of `source` would find. */
  ghost function OpenAt(s: State, source: nat): set<nat> {
    GatesAt(s, source) * s.live
  }

  /** Once no get is in progress and one has been completed, exactly one gate is open, and its
      listener is registered with the cached inner source and with no other. */
  lemma OneGateIsOpen(source: nat, inner: nat -> Val, actions: seq<Action>)
    requires var s := Run(Init(source, inner), actions); s.getters == map[] && s.last.Some?
    ensures var s := Run(Init(source, inner), actions);
            && s.cache.Some? && s.live == {s.cache.value.gate}
            && forall x: nat :: OpenAt(s, x) == if x == s.cache.value.source then s.live else {}
  {
    var s := Run(Init(source, inner), actions);
    RunKeepsInv(source, inner, actions);
    CompletedGetsAreCached(source, inner, actions);
    assert Holders(s) == {};
    var c := s.cache.value;
    forall x: nat ensures OpenAt(s, x) == if x == c.source then {c.gate} else {} {
      if x == c.source { assert (x, c.gate) in s.registered; }
      forall g | g in OpenAt(s, x) ensures g == c.gate && x == c.source {
        assert (x, g) in s.registered && (c.source, c.gate) in s.registered;
      }
    }
  }

  ghost predicate CachedOnce(s: State) {
    && (s.last.Some? ==> s.cache.Some?)
    && (forall k :: k in s.getters && (s.getters[k].stage.Chosen? || s.getters[k].stage.Beaten?) ==> s.cache.Some?)
  }

  lemma StepCachesOnce(s: State, a: Action)
    requires s.outer != [] && Enabled(s, a) && CachedOnce(s)
    ensures CachedOnce(Step(s, a))
  {
    if s.cache.Some? {
      assert Step(s, a).cache.Some?;
    }
  }

  lemma {:induction false} CompletedGetsAreCached(source: nat, inner: nat -> Val, actions: seq<Action>)
    ensures CachedOnce(Run(Init(source, inner), actions))
  {
    if actions != [] {
      var front, a := actions[..|actions| - 1], actions[|actions| - 1];
      CompletedGetsAreCached(source, inner, front);
      if Enabled(Run(Init(source, inner), front), a) { StepCachesOnce(Run(Init(source, inner), front), a); }
    }
  }

  // ----- what setters owe

  /** Notifications setter `t` still has to deliver, if no get intervenes. */
  ghost function Due(s: State, t: nat): nat
    requires t in s.setters
  {
    match s.setters[t]
    case Telling(_, todo) => |todo * s.live|
    case Delivering(_, todo) => 1 + |todo * s.live|
    case InnerReplaced(x) => |OpenAt(s, x)|
    case _ => 1
  }

  /** The setters `ts` together. */
  ghost function Dues(s: State, ts: set<nat>): nat
    requires ts <= s.setters.Keys
  {
    if ts == {} then 0
    else
      var t :| t in ts;
      Due(s, t) + Dues(s, ts - {t})
  }

  lemma {:induction false} DuesOfOne(s: State, ts: set<nat>, t: nat)
    requires ts <= s.setters.Keys && t in ts
    ensures Dues(s, ts) == Due(s, t) + Dues(s, ts - {t})
  {
    var t' :| t' in ts && Dues(s, ts) == Due(s, t') + Dues(s, ts - {t'});
    if t' != t {
      DuesOfOne(s, ts - {t'}, t);
      DuesOfOne(s, ts - {t}, t');
      assert ts - {t'} - {t} == ts - {t} - {t'};
    }
  }

  lemma {:induction false} DuesAlike(s: State, s': State, ts: set<nat>)
    requires ts <= s.setters.Keys && ts <= s'.setters.Keys && forall t :: t in ts ==> Due(s', t) == Due(s, t)
    ensures Dues(s', ts) == Dues(s, ts)
  {
    if ts != {} {
      var t :| t in ts;
      DuesAlike(s, s', ts - {t});
      DuesOfOne(s, ts, t);
      DuesOfOne(s', ts, t);
    }
  }

  ghost function DueOf(s: State, t: nat): nat { if t in s.setters then Due(s, t) else 0 }

  lemma DuesWithout(s: State, t: nat)
    ensures Dues(s, s.setters.Keys) == DueOf(s, t) + Dues(s, s.setters.Keys - {t})
  {
    if t in s.setters { DuesOfOne(s, s.setters.Keys, t); } else { assert s.setters.Keys - {t} == s.setters.Keys; }
  }

  /** Where one setter moves and no gate does, what the others owe stays the same. */
  lemma OneSetterMoves(s: State, s': State, t: nat)
    requires s'.live == s.live && s'.registered == s.registered
    requires forall t' :: t' != t ==> Doing(s', t') == Doing(s, t')
    ensures Dues(s', s'.setters.Keys) + DueOf(s, t) == Dues(s, s.setters.Keys) + DueOf(s', t)
  {
    var others := s.setters.Keys - {t};
    forall t' | t' in others ensures t' in s'.setters && s'.setters[t'] == s.setters[t'] {
      assert Doing(s', t') == Doing(s, t');
    }
    forall t' | t' in s'.setters.Keys - {t} ensures t' in others { assert Doing(s', t') == Doing(s, t'); }
    assert s'.setters.Keys - {t} == others;
    forall t' | t' in others ensures Due(s', t') == Due(s, t') {
      assert forall x: nat :: GatesAt(s', x) == GatesAt(s, x);
    }
    DuesWithout(s, t);
    DuesWithout(s', t);
    DuesAlike(s, s', others);
  }

  /** The notifications that are bound to follow from this action. */
  ghost function Ordered(s: State, a: Action): nat {
    match a
    case SetOuter(_, _) => 1
    case SetInner(_, x, _) => |OpenAt(s, x)|
    case _ => 0
  }

  lemma SetterPays(s: State, a: Action)
    requires s.outer != [] && BySetter(a) && Enabled(s, a)
    ensures var s' := Step(s, a);
            s'.live == s.live && s'.notices + DueOf(s', a.t) == s.notices + DueOf(s, a.t) + Ordered(s, a)
  {
    match a
    case SetInner(t, x, v) => assert OpenAt(Step(s, a), x) == OpenAt(s, x);
    case Begin(_) =>
    case Ask(t, g) => AskPays(s, t, g);
    case End(t) => assert s.setters[t].todo * s.live == {};
    case _ =>
  }

  lemma OnlyOneSetterMoves(s: State, a: Action)
    requires s.outer != [] && BySetter(a) && Enabled(s, a)
    ensures var s' := Step(s, a);
            && s'.live == s.live && s'.registered == s.registered && s'.cache == s.cache
            && forall t :: t != a.t ==> Doing(s', t) == Doing(s, t)
  {
  }

  lemma AskPays(s: State, t: nat, g: nat)
    requires s.outer != [] && Enabled(s, Ask(t, g))
    ensures var s' := Step(s, Ask(t, g));
            t in s'.setters && s'.live == s.live && s'.notices == s.notices && Due(s', t) == Due(s, t)
  {
    var todo := s.setters[t].todo;
    assert (todo - {g}) * s.live == (todo * s.live) - {g};
  }

  /** The notifications that `more` orders: one for each set of the outer cell, and one for each open
      gate where an inner cell is set. */
  ghost function OrderedBy(s: State, more: seq<Action>): nat
    requires s.outer != []
  {
    if more == [] then 0
    else
      var front, a := more[..|more| - 1], more[|more| - 1];
      OrderedBy(s, front) + if Enabled(Run(s, front), a) then Ordered(Run(s, front), a) else 0
  }

  /** Conservation: in every interleaving of setters, what has been delivered and what is still owed
      come to what was ordered. */
  lemma {:induction false} SettersPayInFull(s: State, more: seq<Action>)
    requires s.outer != [] && BySetters(more)
    ensures var s' := Run(s, more);
            && s'.live == s.live && s'.registered == s.registered && s'.cache == s.cache
            && s'.notices + Dues(s', s'.setters.Keys) == s.notices + Dues(s, s.setters.Keys) + OrderedBy(s, more)
  {
    if more != [] {
      var front, a := more[..|more| - 1], more[|more| - 1];
      SettersPayInFull(s, front);
      var s1 := Run(s, front);
      assert BySetter(a);
      if Enabled(s1, a) {
        OnlyOneSetterMoves(s1, a);
        SetterPays(s1, a);
        OneSetterMoves(s1, Step(s1, a), a.t);
      }
    }
  }

  /** How often `more` sets the outer cell, or the inner cell `x`. */
  ghost function Sets(s: State, more: seq<Action>, x: nat): nat
    requires s.outer != []
  {
    if more == [] then 0
    else
      var front, a := more[..|more| - 1], more[|more| - 1];
      Sets(s, front, x)
      + if Enabled(Run(s, front), a) && (a.SetOuter? || (a.SetInner? && a.source == x)) then 1 else 0
  }

  lemma {:induction false} OnlyTheCachedOne(s: State, more: seq<Action>, x: nat)
    requires s.outer != [] && BySetters(more)
    requires |s.live| == 1 && forall y: nat :: OpenAt(s, y) == if y == x then s.live else {}
    ensures OrderedBy(s, more) == Sets(s, more, x)
  {
    if more != [] {
      var front, a := more[..|more| - 1], more[|more| - 1];
      OnlyTheCachedOne(s, front, x);
      SettersPayInFull(s, front);
      if a.SetInner? { assert OpenAt(Run(s, front), a.source) == OpenAt(s, a.source); }
    }
  }

  /** So with no get in progress, in every interleaving of any number of setters, the listeners of the
      flatten source are notified exactly once for each set of the outer cell and of the inner cell in
      use, and for a set of one no longer in use not at all, however often gets have registered with
      either (src/source/flatten.rs:192-196; src/gate.rs:58-64): as far as the setters have got, and
      in full when they are done. */
  lemma SetsNotifyOnce(source: nat, inner: nat -> Val, actions: seq<Action>, more: seq<Action>)
    requires var s := Run(Init(source, inner), actions); s.getters == map[] && s.last.Some?
    requires BySetters(more)
    ensures var s := Run(Init(source, inner), actions);
            var s' := Run(s, more);
            && s.cache.Some?
            && s'.notices + Dues(s', s'.setters.Keys)
               == s.notices + Dues(s, s.setters.Keys) + Sets(s, more, s.cache.value.source)
            && (s.setters == map[] && s'.setters == map[] ==>
                  s'.notices == s.notices + Sets(s, more, s.cache.value.source))
  {
    var s := Run(Init(source, inner), actions);
    OneGateIsOpen(source, inner, actions);
    SettersPayInFull(s, more);
    OnlyTheCachedOne(s, more, s.cache.value.source);
  }
}
