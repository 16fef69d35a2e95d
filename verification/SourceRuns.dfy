/** No change of what a source denotes goes unannounced, in any run on one thread. */
module SourceRuns {
  import opened Wrappers
  import opened Sources
  import opened SourceLaws

  // ----- who has been notified between two moments

  /** Every subscriber of `n` has been notified, and has passed it on. */
  ghost predicate Fired(w: World, w': World, n: NotifierId)
    requires SubscribersOk(w)
    decreases Above(w, n), 1
  {
    forall k :: 0 <= k < |SubscribersOf(w, n)| ==> FiredAt(w, w', n, k)
  }

  ghost predicate FiredAt(w: World, w': World, n: NotifierId, k: nat)
    requires SubscribersOk(w) && k < |SubscribersOf(w, n)|
    decreases Above(w, n), 0
  {
    var sub := SubscribersOf(w, n)[k];
    assert Upward(n, w.flats.Keys, sub);
    assert !sub.Client? ==> sub.f in Above(w, n) && sub.f !in Above(w, OfFlat(sub.f));
    match sub
    case Client(c) => Heard(w', c) > Heard(w, c)
    case Outer(f) => FlatAt(w', f).counted > FlatAt(w, f).counted && Fired(w, w', OfFlat(f))
    case Inner(f, gate) => GateOpen(w, f, gate) ==> Fired(w, w', OfFlat(f))
  }

  lemma {:induction false} FiredWithin(w: World, w1: World, w2: World, w3: World, n: NotifierId, k: nat)
    requires SubscribersOk(w) && SubscribersOk(w1) && Calm(w, w1) && Calm(w2, w3)
    requires k < |SubscribersOf(w, n)| && FiredAt(w1, w2, n, k) && w2.flats.Keys == w.flats.Keys
    ensures FiredAt(w, w3, n, k)
    decreases Above(w, n)
  {
    var sub := SubscribersOf(w, n)[k];
    assert Upward(n, w.flats.Keys, sub);
    match sub
    case Client(c) => assert Heard(w1, c) >= Heard(w, c) && Heard(w3, c) >= Heard(w2, c);
    case _ =>
      assert sub.f in Above(w, n) && sub.f !in Above(w, OfFlat(sub.f));
      if Fired(w1, w2, OfFlat(sub.f)) {
        forall j | 0 <= j < |SubscribersOf(w, OfFlat(sub.f))| ensures FiredAt(w, w3, OfFlat(sub.f), j) {
          FiredWithin(w, w1, w2, w3, OfFlat(sub.f), j);
        }
      }
  }

  lemma {:induction false} DeliverFires(w: World, n: NotifierId, k: nat)
    requires SubscribersOk(w) && k <= |SubscribersOf(w, n)|
    ensures forall i :: k <= i < |SubscribersOf(w, n)| ==> FiredAt(w, Deliver(w, n, k), n, i)
    decreases Above(w, n), |SubscribersOf(w, n)| - k
  {
    if k < |SubscribersOf(w, n)| {
      var w1 := Receive(w, n, k);
      ReceiveFires(w, n, k);
      assert Above(w1, n) == Above(w, n);
      DeliverFires(w1, n, k + 1);
      FiredTogether(w, w1, Deliver(w1, n, k + 1), n, k);
    }
  }

  lemma FiredTogether(w: World, w1: World, w': World, n: NotifierId, k: nat)
    requires SubscribersOk(w) && SubscribersOk(w1) && Calm(w, w1) && Calm(w1, w') && k < |SubscribersOf(w, n)|
    requires FiredAt(w, w1, n, k) && forall i :: k < i < |SubscribersOf(w1, n)| ==> FiredAt(w1, w', n, i)
    ensures forall i :: k <= i < |SubscribersOf(w, n)| ==> FiredAt(w, w', n, i)
  {
    forall i | k <= i < |SubscribersOf(w, n)| ensures FiredAt(w, w', n, i) {
      if i == k { FiredWithin(w, w, w1, w', n, k); } else { FiredWithin(w, w1, w', w', n, i); }
    }
  }

  lemma {:induction false} ReceiveFires(w: World, n: NotifierId, k: nat)
    requires SubscribersOk(w) && k < |SubscribersOf(w, n)|
    ensures FiredAt(w, Receive(w, n, k), n, k)
    decreases Above(w, n), |SubscribersOf(w, n)| - k, 0
  {
    var sub := SubscribersOf(w, n)[k];
    assert Upward(n, w.flats.Keys, sub);
    assert !sub.Client? ==> sub.f in Above(w, n) && sub.f !in Above(w, OfFlat(sub.f));
    match sub
    case Client(_) =>
    case Outer(f) =>
      assert Above(Count(w, f), OfFlat(f)) == Above(w, OfFlat(f));
      DeliverFires(Count(w, f), OfFlat(f), 0);
      CountedFires(w, Count(w, f), Deliver(Count(w, f), OfFlat(f), 0), OfFlat(f));
    case Inner(f, gate) => DeliverFires(w, OfFlat(f), 0);
  }

  lemma CountedFires(w: World, w1: World, w': World, n: NotifierId)
    requires SubscribersOk(w) && SubscribersOk(w1) && Calm(w, w1) && Calm(w1, w') && Fired(w1, w', n)
    ensures Fired(w, w', n)
  {
    forall i | 0 <= i < |SubscribersOf(w, n)| ensures FiredAt(w, w', n, i) {
      FiredWithin(w, w1, w', w', n, i);
    }
  }

  // ----- setting a cell

  ghost predicate Fits(c: nat, v: Val) { ValOk(v) && ValLevel(v) <= c }

  ghost function Written(w: World, c: nat, v: Val): World { w.(cells := w.cells[c := v]) }

  lemma SetIsValid(w: World, c: nat, v: Val)
    requires Valid(w) && Fits(c, v)
    ensures var w' := SetCell(w, c, v);
            Valid(Written(w, c, v)) && Calm(Written(w, c, v), w') && Fired(Written(w, c, v), w', OfCell(c)) && Valid(w')
  {
    var w1 := Written(w, c, v);
    var w' := SetCell(w, c, v);
    forall f | f in w1.flats ensures Subscribed(w1, OuterOf(w1, f), Outer(f)) {
      assert Subscribed(w, OuterOf(w, f), Outer(f));
    }
    DeliverFires(w1, OfCell(c), 0);
    CalmIsValid(w1, w');
  }

  lemma CalmIsValid(w: World, w': World)
    requires Valid(w) && Calm(w, w')
    ensures Valid(w')
  {
    forall f | f in w'.flats ensures Subscribed(w', OuterOf(w', f), Outer(f)) {
      assert Subscribed(w, OuterOf(w, f), Outer(f));
    }
  }

  /** Whoever listened to `s` has been notified, or nothing about `s` has changed. */
  ghost predicate Announced(w: World, w1: World, w': World, s: Source)
    requires Valid(w) && Valid(w1) && Valid(w') && SourceOk(s)
  {
    || (Base(s).Some? && Fired(w1, w', Base(s).value))
    || (Armed(w', s) && Denote(w', s) == Denote(w, s))
  }

  lemma {:induction false} SetIsAnnounced(w: World, c: nat, v: Val, s: Source)
    requires Valid(w) && Fits(c, v) && SourceOk(s) && Armed(w, s)
    ensures Valid(Written(w, c, v)) && Valid(SetCell(w, c, v))
    ensures Announced(w, Written(w, c, v), SetCell(w, c, v), s)
    decreases Level(s)
  {
    var w1, w' := Written(w, c, v), SetCell(w, c, v);
    SetIsValid(w, c, v);
    match s
    case Const(_) =>
    case Cell(_) =>
    case Map(_, inner) => SetIsAnnounced(w, c, v, inner);
    case Flat(f) =>
      SetIsAnnounced(w, c, v, OuterOf(w, f));
      SetIsAnnounced(w, c, v, w.flats[f].cached.value.source);
      FlatIsAnnounced(w, w1, w', f);
  }

  lemma FlatIsAnnounced(w: World, w1: World, w': World, f: nat)
    requires Valid(w) && Valid(w1) && Valid(w') && Calm(w1, w') && Armed(w, Flat(f))
    requires w1 == w.(cells := w1.cells)
    requires Linked(w, f) && Announced(w, w1, w', OuterOf(w, f)) && Announced(w, w1, w', w.flats[f].cached.value.source)
    ensures Announced(w, w1, w', Flat(f))
  {
    var Cached(_, source, gate) := w.flats[f].cached.value;
    if Base(OuterOf(w, f)).Some? && Fired(w1, w', Base(OuterOf(w, f)).value) {
      OuterIsFired(w1, w', f);
    } else if Base(source).Some? && Fired(w1, w', Base(source).value) {
      InnerIsFired(w1, w', f, source, gate);
    } else {
      assert w'.flats[f].cached == w.flats[f].cached;
      assert Linked(w', f);
    }
  }

  lemma OuterIsFired(w: World, w': World, f: nat)
    requires Valid(w) && f in w.flats && Base(OuterOf(w, f)).Some?
    requires Fired(w, w', Base(OuterOf(w, f)).value)
    ensures FlatAt(w', f).counted > FlatAt(w, f).counted && Fired(w, w', OfFlat(f))
  {
    var n := Base(OuterOf(w, f)).value;
    assert Subscribed(w, OuterOf(w, f), Outer(f));
    var k :| 0 <= k < |SubscribersOf(w, n)| && SubscribersOf(w, n)[k] == Outer(f);
    assert FiredAt(w, w', n, k);
  }

  lemma InnerIsFired(w: World, w': World, f: nat, source: Source, gate: nat)
    requires Valid(w) && GateOpen(w, f, gate) && Subscribed(w, source, Inner(f, gate)) && Base(source).Some?
    requires Fired(w, w', Base(source).value)
    ensures Fired(w, w', OfFlat(f))
  {
    var n := Base(source).value;
    var k :| 0 <= k < |SubscribersOf(w, n)| && SubscribersOf(w, n)[k] == Inner(f, gate);
    assert FiredAt(w, w', n, k);
  }

  /** A set keeps every cache that may still be hit right: had it made one wrong, it would have
      counted. */
  lemma SetKeepsCaches(w: World, c: nat, v: Val)
    requires Valid(w) && CachesOk(w) && Fits(c, v)
    ensures Valid(SetCell(w, c, v)) && CachesOk(SetCell(w, c, v))
  {
    var w1, w' := Written(w, c, v), SetCell(w, c, v);
    SetIsValid(w, c, v);
    forall f | f in w'.flats && w'.flats[f].cached.Some? && w'.flats[f].counted == 0 ensures Linked(w', f) {
      assert Linked(w, f);
      SetIsAnnounced(w, c, v, OuterOf(w, f));
      if Base(OuterOf(w, f)).Some? && Fired(w1, w', Base(OuterOf(w, f)).value) { OuterIsFired(w1, w', f); }
    }
  }

  // ----- runs

  datatype Op =
    | New(f: nat)
    | Get(s: Source)
    | Set(c: nat, v: Val)
    | SetIfUnequal(c: nat, v: Val)
    | Subscribe(s: Source, client: nat)

  /** No cycles. */
  ghost predicate Allowed(op: Op) {
    match op
    case New(_) => true
    case Get(s) => SourceOk(s)
    case Set(c, v) => Fits(c, v)
    case SetIfUnequal(c, v) => Fits(c, v)
    case Subscribe(s, _) => SourceOk(s)
  }

  ghost function Step(w: World, op: Op): World
    requires Valid(w) && Allowed(op)
  {
    match op
    case New(f) => Create(w, f)
    case Get(s) => Sources.Get(w, s).0
    case Set(c, v) => SetCell(w, c, v)
    case SetIfUnequal(c, v) => SetCellIfUnequal(w, c, v)
    case Subscribe(s, client) => Listen(w, s, Client(client))
  }

  lemma {:induction false} StepIsValid(w: World, op: Op)
    requires Valid(w) && Allowed(op)
    ensures Valid(Step(w, op))
    ensures forall n :: SubscribersOf(w, n) <= SubscribersOf(Step(w, op), n)
    ensures forall k :: Heard(w, k) <= Heard(Step(w, op), k)
    ensures forall f :: f in w.flats ==> f in Step(w, op).flats && w.flats[f].counted <= Step(w, op).flats[f].counted
  {
    match op
    case New(f) => CreateRefreshes(w, f);
    case Get(s) => GetCountsNothing(w, s);
    case Set(c, v) => SetIsValid(w, c, v);
    case SetIfUnequal(c, v) => SetIsValid(w, c, v);
    case Subscribe(s, client) => ListenKeepsValid(w, s, Client(client));
  }

  lemma GetCountsNothing(w: World, s: Source)
    requires Valid(w) && SourceOk(s)
    ensures var w' := Sources.Get(w, s).0;
            forall f :: f in w.flats ==> f in w'.flats && w'.flats[f].counted == w.flats[f].counted
  {
    var w' := Sources.Get(w, s).0;
    forall f | f in w.flats ensures w'.flats[f].counted == w.flats[f].counted { GetTouches(w, s, f); }
  }

  ghost function Run(w: World, ops: seq<Op>): (w': World)
    requires Valid(w) && (forall op :: op in ops ==> Allowed(op))
    ensures Valid(w')
    decreases |ops|
  {
    if ops == [] then w
    else
      StepIsValid(w, ops[0]);
      Run(Step(w, ops[0]), ops[1..])
  }

  lemma {:induction false} RunGrows(w: World, ops: seq<Op>)
    requires Valid(w) && (forall op :: op in ops ==> Allowed(op))
    ensures forall k :: Heard(w, k) <= Heard(Run(w, ops), k)
    ensures Bounded(Run(w, ops)) ==> Bounded(w)
    decreases |ops|
  {
    if ops != [] {
      var w1 := Step(w, ops[0]);
      StepIsValid(w, ops[0]);
      RunGrows(w1, ops[1..]);
      forall k ensures Heard(w, k) <= Heard(Run(w, ops), k) { assert Heard(w, k) <= Heard(w1, k); }
    }
  }

  predicate Sets(op: Op) { op.Set? || op.SetIfUnequal? }

  /** Everything but a set only refreshes. */
  lemma QuietStep(w: World, op: Op)
    requires Good(w) && Allowed(op) && !Sets(op)
    ensures Good(Step(w, op)) && Refreshed(w, Step(w, op))
  {
    match op
    case New(f) =>
      CreateRefreshes(w, f);
      CreateIsValid(w, f);
      GoodStaysGood(w, Create(w, f), f);
    case Get(s) => GetIsRight(w, s);
    case Subscribe(s, client) =>
      ListenKeepsValid(w, s, Client(client));
      GoodStaysGood(w, Listen(w, s, Client(client)), 0);
  }

  lemma StepKeepsGood(w: World, op: Op)
    requires Good(w) && Allowed(op) && Bounded(Step(w, op))
    ensures Good(Step(w, op))
  {
    match op
    case Set(c, v) => SetKeepsCaches(w, c, v);
    case SetIfUnequal(c, v) => SetKeepsCaches(w, c, v);
    case _ => QuietStep(w, op);
  }

  lemma {:induction false} RunKeepsGood(w: World, ops: seq<Op>)
    requires Good(w) && (forall op :: op in ops ==> Allowed(op)) && Bounded(Run(w, ops))
    ensures Good(Run(w, ops))
    decreases |ops|
  {
    if ops != [] {
      var w1 := Step(w, ops[0]);
      StepIsValid(w, ops[0]);
      RunGrows(w1, ops[1..]);
      StepKeepsGood(w, ops[0]);
      RunKeepsGood(w1, ops[1..]);
    }
  }

  /** Before the first flatten node. */
  ghost predicate Initial(w: World) { Wired(w) && w.flats == map[] && w.subscribers == map[] }

  /** In every run of creations, gets, sets and subscriptions in which no flatten node is notified
      by its outer source 2^32 times, a `get` gives what the source denotes. */
  lemma EveryGetIsRight(w: World, ops: seq<Op>, s: Source)
    requires Initial(w) && SourceOk(s) && (forall op :: op in ops ==> Allowed(op))
    requires Bounded(Run(w, ops))
    ensures Sources.Get(Run(w, ops), s).1 == Denote(Run(w, ops), s)
  {
    RunKeepsGood(w, ops);
    GetIsRight(Run(w, ops), s);
  }

  /** Client `k` has heard something, or `s` is as it was. */
  ghost predicate Informed(w: World, w': World, s: Source, k: nat)
    requires Valid(w) && Valid(w') && SourceOk(s)
  {
    Heard(w', k) > Heard(w, k) || (Armed(w', s) && Denote(w', s) == Denote(w, s))
  }

  lemma SetInforms(w: World, c: nat, v: Val, s: Source, k: nat)
    requires Valid(w) && Fits(c, v) && SourceOk(s) && Armed(w, s)
    requires Base(s).Some? ==> Client(k) in SubscribersOf(w, Base(s).value)
    ensures Valid(SetCell(w, c, v)) && Informed(w, SetCell(w, c, v), s, k)
  {
    var w1, w' := Written(w, c, v), SetCell(w, c, v);
    SetIsValid(w, c, v);
    SetIsAnnounced(w, c, v, s);
    if Base(s).Some? && Fired(w1, w', Base(s).value) {
      var n := Base(s).value;
      var i :| 0 <= i < |SubscribersOf(w, n)| && SubscribersOf(w, n)[i] == Client(k);
      assert FiredAt(w1, w', n, i);
    }
  }

  lemma StepInforms(w: World, op: Op, s: Source, k: nat)
    requires Good(w) && Allowed(op) && SourceOk(s) && Armed(w, s) && Bounded(Step(w, op))
    requires Base(s).Some? ==> Client(k) in SubscribersOf(w, Base(s).value)
    ensures Valid(Step(w, op)) && Informed(w, Step(w, op), s, k)
  {
    match op
    case Set(c, v) => SetInforms(w, c, v, s, k);
    case SetIfUnequal(c, v) => SetInforms(w, c, v, s, k);
    case _ =>
      QuietStep(w, op);
      ArmedStaysArmed(w, Step(w, op), s);
      DenotesAlike(w, Step(w, op), s);
  }

  lemma {:induction false} QuietRun(w: World, ops: seq<Op>, s: Source)
    requires Good(w) && SourceOk(s) && Armed(w, s) && (forall op :: op in ops ==> Allowed(op) && !Sets(op))
    ensures Good(Run(w, ops)) && Armed(Run(w, ops), s) && Denote(Run(w, ops), s) == Denote(w, s)
    decreases |ops|
  {
    if ops != [] {
      QuietStep(w, ops[0]);
      ArmedStaysArmed(w, Step(w, ops[0]), s);
      DenotesAlike(w, Step(w, ops[0]), s);
      QuietRun(Step(w, ops[0]), ops[1..], s);
    }
  }

  lemma {:induction false} RunInforms(w: World, ops: seq<Op>, s: Source, k: nat)
    requires Good(w) && SourceOk(s) && Armed(w, s)
    requires (forall op :: op in ops ==> Allowed(op)) && Bounded(Run(w, ops))
    requires Base(s).Some? ==> Client(k) in SubscribersOf(w, Base(s).value)
    ensures Informed(w, Run(w, ops), s, k)
    decreases |ops|
  {
    if ops != [] {
      var w1 := Step(w, ops[0]);
      StepIsValid(w, ops[0]);
      RunGrows(w1, ops[1..]);
      StepKeepsGood(w, ops[0]);
      StepInforms(w, ops[0], s, k);
      if Heard(w1, k) == Heard(w, k) {
        if Base(s).Some? { assert SubscribersOf(w, Base(s).value) <= SubscribersOf(w1, Base(s).value); }
        RunInforms(w1, ops[1..], s, k);
      }
    }
  }

  /** In every run: if what a source denotes differs from what an earlier `get` returned, each
      client that was listening before the first set after that `get` has been notified since. */
  lemma NoChangeGoesUnannounced(w: World, before: seq<Op>, s: Source, quiet: seq<Op>, after: seq<Op>, k: nat)
    requires Initial(w) && SourceOk(s)
    requires forall op :: op in before || op in quiet || op in after ==> Allowed(op)
    requires forall op :: op in quiet ==> !Sets(op)
    requires var w2 := Run(Sources.Get(Run(w, before), s).0, quiet);
             && Bounded(Run(w2, after))
             && (Base(s).Some? ==> Client(k) in SubscribersOf(w2, Base(s).value))
    ensures var (w1, v) := Sources.Get(Run(w, before), s);
            var w2 := Run(w1, quiet);
            Denote(Run(w2, after), s) != v ==> Heard(Run(w2, after), k) > Heard(w2, k)
  {
    var w0 := Run(w, before);
    var (w1, v) := Sources.Get(w0, s);
    RunGrows(Run(w1, quiet), after);
    RunGrows(w1, quiet);
    GetCountsNothing(w0, s);
    RunKeepsGood(w, before);
    GetIsRight(w0, s);
    DenotesAlike(w0, w1, s);
    QuietRun(w1, quiet, s);
    RunInforms(Run(w1, quiet), after, s, k);
  }
}
