/** The laws `Listener::receive` promises (src/listener.rs:40-55), proved of every listener tree. */
module ListenerLaws {
  import opened Wrappers
  import opened Listeners

  // ----- what a tree reaches, with no batching and no order between destinations

  /** The messages `l` hands to `x` out of `ms`: no batches, no early exit. */
  ghost function Reaches(w: World, l: Listener, ms: seq<Msg>, x: Shared): seq<Msg> {
    match l
    case Null => []
    case Weak(d) => if d == x && Live(w, d) then ms else []
    case Gated(g, t) => if Live(w, g) then Reaches(w, t, ms, x) else []
    case Filtered(f, _, _, t) => Reaches(w, t, FilterMap(f, ms), x)
    case Pair(a, b) => Reaches(w, a, ms, x) + Reaches(w, b, ms, x)
  }

  /** Somebody still wants messages. */
  predicate Alive(w: World, l: Listener) {
    match l
    case Null => false
    case Weak(d) => Live(w, d)
    case Gated(g, t) => Live(w, g) && Alive(w, t)
    case Filtered(_, _, _, t) => Alive(w, t)
    case Pair(a, b) => Alive(w, a) || Alive(w, b)
  }

  ghost predicate Mentions(l: Listener, x: Shared) {
    match l
    case Null => false
    case Weak(d) => d == x
    case Gated(_, t) => Mentions(t, x)
    case Filtered(_, _, _, t) => Mentions(t, x)
    case Pair(a, b) => Mentions(a, x) || Mentions(b, x)
  }

  /** No pair inside `l` can reach `x` from both sides. */
  ghost predicate Once(l: Listener, x: Shared) {
    match l
    case Null => true
    case Weak(_) => true
    case Gated(_, t) => Once(t, x)
    case Filtered(_, _, _, t) => Once(t, x)
    case Pair(a, b) => Once(a, x) && Once(b, x) && !(Mentions(a, x) && Mentions(b, x))
  }

  /** Every destination is one the library provides, not a listener of the user's own. */
  ghost predicate Provided(w: World, l: Listener) {
    match l
    case Null => true
    case Weak(d) => d in w ==> !w[d].content.Calls?
    case Gated(_, t) => Provided(w, t)
    case Filtered(_, _, _, t) => Provided(w, t)
    case Pair(a, b) => Provided(w, a) && Provided(w, b)
  }

  /** Equal, except that two logs may hold the same messages in different orders. */
  ghost predicate Similar(c: Content, c': Content) {
    c == c' || (c.Items? && c'.Items? && multiset(c.items) == multiset(c'.items))
  }

  ghost predicate SimilarWorlds(w: World, w': World) {
    && w'.Keys == w.Keys
    && forall x :: x in w ==> w'[x].strong == w[x].strong && Similar(w[x].content, w'[x].content)
  }

  // ----- the parts

  lemma {:induction false} FilterMapAppend(f: Msg -> Option<Msg>, a: seq<Msg>, b: seq<Msg>)
    ensures FilterMap(f, a + b) == FilterMap(f, a) + FilterMap(f, b)
  {
    if a == [] {
      assert a + b == b;
    } else {
      assert (a + b)[1..] == a[1..] + b;
      FilterMapAppend(f, a[1..], b);
    }
  }

  ghost function Concat(batches: seq<seq<Msg>>): seq<Msg> {
    if batches == [] then [] else batches[0] + Concat(batches[1..])
  }

  lemma {:induction false} ConcatAppend(a: seq<seq<Msg>>, b: seq<seq<Msg>>)
    ensures Concat(a + b) == Concat(a) + Concat(b)
  {
    if a == [] {
      assert a + b == b;
    } else {
      assert (a + b)[1..] == a[1..] + b;
      ConcatAppend(a[1..], b);
    }
  }

  /** Only the owners matter to what is reached. */
  lemma {:induction false} ReachesByOwners(w: World, w': World, l: Listener, ms: seq<Msg>, x: Shared)
    requires SameShape(w, w')
    ensures Reaches(w', l, ms, x) == Reaches(w, l, ms, x)
    ensures Alive(w', l) == Alive(w, l)
    ensures Provided(w', l) == Provided(w, l)
    decreases l
  {
    match l
    case Null =>
    case Weak(d) =>
    case Gated(g, t) => ReachesByOwners(w, w', t, ms, x);
    case Filtered(f, _, _, t) => ReachesByOwners(w, w', t, FilterMap(f, ms), x);
    case Pair(a, b) => ReachesByOwners(w, w', a, ms, x); ReachesByOwners(w, w', b, ms, x);
  }

  lemma {:induction false} ReachesNothing(w: World, l: Listener, ms: seq<Msg>, x: Shared)
    requires ms == [] || !Alive(w, l) || !Mentions(l, x)
    ensures Reaches(w, l, ms, x) == []
    decreases l
  {
    match l
    case Null =>
    case Weak(d) =>
    case Gated(g, t) => if Live(w, g) { ReachesNothing(w, t, ms, x); }
    case Filtered(f, _, _, t) => ReachesNothing(w, t, FilterMap(f, ms), x);
    case Pair(a, b) => ReachesNothing(w, a, ms, x); ReachesNothing(w, b, ms, x);
  }

  /** What is reached is additive in the messages: as a multiset always... */
  lemma {:induction false} ReachesAppendBag(w: World, l: Listener, a: seq<Msg>, b: seq<Msg>, x: Shared)
    ensures multiset(Reaches(w, l, a + b, x)) == multiset(Reaches(w, l, a, x)) + multiset(Reaches(w, l, b, x))
    decreases l
  {
    match l
    case Null =>
    case Weak(d) =>
    case Gated(g, t) => ReachesAppendBag(w, t, a, b, x);
    case Filtered(f, _, _, t) =>
      FilterMapAppend(f, a, b);
      ReachesAppendBag(w, t, FilterMap(f, a), FilterMap(f, b), x);
    case Pair(s, t) =>
      ReachesAppendBag(w, s, a, b, x);
      ReachesAppendBag(w, t, a, b, x);
  }

  /** ...and as a sequence where no pair reaches the destination from both sides. */
  lemma {:induction false} ReachesAppend(w: World, l: Listener, a: seq<Msg>, b: seq<Msg>, x: Shared)
    requires Once(l, x)
    ensures Reaches(w, l, a + b, x) == Reaches(w, l, a, x) + Reaches(w, l, b, x)
    decreases l
  {
    match l
    case Null =>
    case Weak(d) =>
    case Gated(g, t) => ReachesAppend(w, t, a, b, x);
    case Filtered(f, _, _, t) =>
      FilterMapAppend(f, a, b);
      ReachesAppend(w, t, FilterMap(f, a), FilterMap(f, b), x);
    case Pair(s, t) =>
      var (one, other) := if Mentions(s, x) then (s, t) else (t, s);
      ReachesAppend(w, one, a, b, x);
      forall ms { ReachesNothing(w, other, ms, x); }
  }

  lemma DepositTwice(c: Content, a: seq<Msg>, b: seq<Msg>)
    requires !c.Calls?
    ensures Deposit(Deposit(c, a), b) == Deposit(c, a + b)
    ensures Deposit(c, []) == c
  {
    if c.Members? {
      assert (set m | m in a + b) == (set m | m in a) + (set m | m in b);
    }
  }

  /** Contents depend on the multiset of messages deposited only, up to the order of a log. */
  lemma DepositSimilar(c: Content, c': Content, a: seq<Msg>, b: seq<Msg>)
    requires !c.Calls? && Similar(c, c') && multiset(a) == multiset(b)
    ensures Similar(Deposit(c, a), Deposit(c', b))
  {
    assert forall m :: m in a <==> m in multiset(a);
    assert forall m :: m in b <==> m in multiset(b);
    assert (set m | m in a) == (set m | m in b);
    assert a == [] <==> multiset(a) == multiset{};
    assert b == [] <==> multiset(b) == multiset{};
  }

  // ----- chunking

  lemma {:induction false} ChunkConcat(ms: seq<Msg>, batch: Positive)
    ensures Concat(Chunk(ms, batch)) == ms
    decreases |ms|
  {
    if |ms| <= batch {
      assert Concat([ms]) == ms + Concat([]);
    } else {
      ChunkConcat(ms[batch..], batch);
      assert Chunk(ms, batch)[1..] == Chunk(ms[batch..], batch);
    }
  }

  /** `max(1, ceil(k / BATCH))` batches for k messages, written without division; all but the
      last hold exactly BATCH messages. */
  lemma {:induction false} ChunkSizes(ms: seq<Msg>, batch: Positive)
    ensures var cs := Chunk(ms, batch);
            && |ms| <= |cs| * batch
            && (if ms == [] then |cs| == 1 else (|cs| - 1) * batch < |ms|)
            && (forall i :: 0 <= i < |cs| - 1 ==> |cs[i]| == batch)
            && |cs[|cs| - 1]| <= batch
    decreases |ms|
  {
    if |ms| > batch {
      ChunkSizes(ms[batch..], batch);
      var n := |Chunk(ms[batch..], batch)|;
      assert (n + 1) * batch == n * batch + batch;
      assert n * batch == (n - 1) * batch + batch;
    }
  }

  // ----- aliveness

  /** The answer does not depend on the messages. */
  lemma {:induction false} AnswerIsAliveness(w: World, l: Listener, ms: seq<Msg>)
    requires Provided(w, l)
    ensures Receive(w, l, ms).1 == Alive(w, l)
    decreases l, 0
  {
    match l
    case Null =>
    case Weak(d) =>
    case Gated(g, t) => if Live(w, g) { AnswerIsAliveness(w, t, ms); }
    case Filtered(f, batch, zst, t) =>
      AnswerIsAlivenessAll(w, t, if zst then [FilterMap(f, ms)] else Chunk(FilterMap(f, ms), batch));
    case Pair(a, b) =>
      AnswerIsAliveness(w, a, ms);
      AliveByOwners(w, Receive(w, a, ms).0, b);
      AnswerIsAliveness(Receive(w, a, ms).0, b, ms);
  }

  lemma {:induction false} AnswerIsAlivenessAll(w: World, l: Listener, batches: seq<seq<Msg>>)
    requires batches != [] && Provided(w, l)
    ensures ReceiveAll(w, l, batches).1 == Alive(w, l)
    decreases l, |batches|
  {
    AnswerIsAliveness(w, l, batches[0]);
    if Alive(w, l) && |batches| > 1 {
      AliveByOwners(w, Receive(w, l, batches[0]).0, l);
      AnswerIsAlivenessAll(Receive(w, l, batches[0]).0, l, batches[1..]);
    }
  }

  lemma {:induction false} AliveByOwners(w: World, w': World, l: Listener)
    requires SameShape(w, w')
    ensures Alive(w', l) == Alive(w, l) && Provided(w', l) == Provided(w, l)
    decreases l
  {
    match l
    case Null =>
    case Weak(d) =>
    case Gated(_, t) => AliveByOwners(w, w', t);
    case Filtered(_, _, _, t) => AliveByOwners(w, w', t);
    case Pair(a, b) => AliveByOwners(w, w', a); AliveByOwners(w, w', b);
  }

  // ----- delivery

  /** Each destination gets what `Reaches` says, whatever the batch sizes. */
  lemma {:induction false} Delivers(w: World, l: Listener, ms: seq<Msg>, x: Shared)
    requires Provided(w, l) && x in w && !w[x].content.Calls?
    ensures Similar(Receive(w, l, ms).0[x].content, Deposit(w[x].content, Reaches(w, l, ms, x)))
    ensures Once(l, x) ==> Receive(w, l, ms).0[x].content == Deposit(w[x].content, Reaches(w, l, ms, x))
    decreases l, 0
  {
    DepositTwice(w[x].content, [], []);
    match l
    case Null =>
    case Weak(d) =>
    case Gated(g, t) => if Live(w, g) { Delivers(w, t, ms, x); }
    case Filtered(f, batch, zst, t) =>
      var kept := FilterMap(f, ms);
      var batches := if zst then [kept] else Chunk(kept, batch);
      assert Concat(batches) == kept by {
        ChunkConcat(kept, batch);
        assert Concat([kept]) == kept + Concat([]);
      }
      DeliversAll(w, t, batches, x);
    case Pair(a, b) => DeliversPair(w, a, b, ms, x);
  }

  lemma {:induction false} DeliversPair(w: World, a: Listener, b: Listener, ms: seq<Msg>, x: Shared)
    requires Provided(w, Pair(a, b)) && x in w && !w[x].content.Calls?
    ensures Similar(Receive(w, Pair(a, b), ms).0[x].content,
                    Deposit(w[x].content, Reaches(w, Pair(a, b), ms, x)))
    ensures Once(Pair(a, b), x) ==>
              Receive(w, Pair(a, b), ms).0[x].content == Deposit(w[x].content, Reaches(w, Pair(a, b), ms, x))
    decreases Pair(a, b), 0, 0
  {
    var w1 := Receive(w, a, ms).0;
    var (ra, rb) := (Reaches(w, a, ms, x), Reaches(w, b, ms, x));
    Delivers(w, a, ms, x);
    ReachesByOwners(w, w1, b, ms, x);
    Delivers(w1, b, ms, x);
    DepositTwice(w[x].content, ra, rb);
    DepositSimilar(w1[x].content, Deposit(w[x].content, ra), rb, rb);
  }

  lemma {:induction false} DeliversAll(w: World, l: Listener, batches: seq<seq<Msg>>, x: Shared)
    requires batches != [] && Provided(w, l) && x in w && !w[x].content.Calls?
    ensures Similar(ReceiveAll(w, l, batches).0[x].content, Deposit(w[x].content, Reaches(w, l, Concat(batches), x)))
    ensures Once(l, x) ==>
              ReceiveAll(w, l, batches).0[x].content == Deposit(w[x].content, Reaches(w, l, Concat(batches), x))
    decreases l, |batches|
  {
    var (w1, alive) := Receive(w, l, batches[0]);
    var (head, rest) := (batches[0], Concat(batches[1..]));
    Delivers(w, l, head, x);
    AnswerIsAliveness(w, l, head);
    if !alive {
      ReachesNothing(w, l, head, x);
      ReachesNothing(w, l, Concat(batches), x);
    } else if |batches| == 1 {
      assert head + Concat([]) == head;
    } else {
      ReachesByOwners(w, w1, l, rest, x);
      DeliversAll(w1, l, batches[1..], x);
      ReachesAppendBag(w, l, head, rest, x);
      if Once(l, x) { ReachesAppend(w, l, head, rest, x); }
      var (rh, rr) := (Reaches(w, l, head, x), Reaches(w, l, rest, x));
      DepositTwice(w[x].content, rh, rr);
      DepositSimilar(w1[x].content, Deposit(w[x].content, rh), rr, rr);
      DepositSimilar(w[x].content, w[x].content, rh + rr, Reaches(w, l, Concat(batches), x));
    }
  }

  lemma {:induction false} Untouched(w: World, l: Listener, ms: seq<Msg>, x: Shared)
    requires x in w && (!Mentions(l, x) || (w[x].content.Calls? && Provided(w, l)))
    ensures Receive(w, l, ms).0[x] == w[x]
    decreases l, 0
  {
    match l
    case Null =>
    case Weak(d) =>
    case Gated(g, t) => if Live(w, g) { Untouched(w, t, ms, x); }
    case Filtered(f, batch, zst, t) =>
      UntouchedAll(w, t, if zst then [FilterMap(f, ms)] else Chunk(FilterMap(f, ms), batch), x);
    case Pair(a, b) =>
      var w1 := Receive(w, a, ms).0;
      Untouched(w, a, ms, x);
      if Provided(w, b) { ReachesByOwners(w, w1, b, ms, x); }
      Untouched(w1, b, ms, x);
  }

  lemma {:induction false} UntouchedAll(w: World, l: Listener, batches: seq<seq<Msg>>, x: Shared)
    requires batches != [] && x in w && (!Mentions(l, x) || (w[x].content.Calls? && Provided(w, l)))
    ensures ReceiveAll(w, l, batches).0[x] == w[x]
    decreases l, |batches|
  {
    var (w1, alive) := Receive(w, l, batches[0]);
    Untouched(w, l, batches[0], x);
    if alive && |batches| > 1 {
      if Provided(w, l) { ReachesByOwners(w, w1, l, [], x); }
      UntouchedAll(w1, l, batches[1..], x);
    }
  }

  // ----- what each kind of destination makes of it

  /** `after` is `before` with `ms` added, the way of its kind: a flag is up if it was, or if there are
      any messages at all; a log has them at its end; a set holds each of them. */
  ghost predicate Gained(before: Content, after: Content, ms: seq<Msg>) {
    match before
    case Unit => after.Unit?
    case Bit(raised) => after.Bit? && (after.raised <==> raised || |ms| > 0)
    case Items(items) => after.Items? && after.items == items + ms
    case Members(members) => after.Members? && forall m :: m in after.members <==> m in members || m in ms
    case Calls(calls, answers) => after == Calls(calls + [ms], answers)
  }

  lemma DepositGains(c: Content, ms: seq<Msg>)
    ensures Gained(c, Deposit(c, ms), ms)
  {
  }

  /** A flag behind any tree is up afterwards if and only if it was up before, or anything at all
      reaches it (src/simple_listeners.rs:300-311). */
  lemma FlagIsRaisedIff(w: World, l: Listener, ms: seq<Msg>, x: Shared)
    requires Provided(w, l) && x in w && w[x].content.Bit?
    ensures var after := Receive(w, l, ms).0[x].content;
            after.Bit? && (after.raised <==> w[x].content.raised || Reaches(w, l, ms, x) != [])
  {
    Delivers(w, l, ms, x);
    DepositGains(w[x].content, Reaches(w, l, ms, x));
  }

  /** A set behind any tree holds a message afterwards if and only if it did before, or the message
      reaches it (src/store.rs:134-138). */
  lemma SetHoldsIff(w: World, l: Listener, ms: seq<Msg>, x: Shared, m: Msg)
    requires Provided(w, l) && x in w && w[x].content.Members?
    ensures var after := Receive(w, l, ms).0[x].content;
            after.Members? && (m in after.members <==> m in w[x].content.members || m in Reaches(w, l, ms, x))
  {
    Delivers(w, l, ms, x);
    DepositGains(w[x].content, Reaches(w, l, ms, x));
  }

  /** `kept` is what `f` makes of `ms` at the positions `at`, in order, and `f` drops all the others. */
  ghost predicate Selects(f: Msg -> Option<Msg>, ms: seq<Msg>, kept: seq<Msg>, at: seq<nat>) {
    && |at| == |kept|
    && (forall j, k :: 0 <= j < k < |at| ==> at[j] < at[k])
    && (forall j :: 0 <= j < |at| ==> at[j] < |ms| && f(ms[at[j]]) == Some(kept[j]))
    && (forall i :: 0 <= i < |ms| && f(ms[i]).Some? ==> i in at)
  }

  /** What a filter keeps, told without any loop. */
  lemma {:induction false} FilterSelects(f: Msg -> Option<Msg>, ms: seq<Msg>) returns (at: seq<nat>)
    ensures Selects(f, ms, FilterMap(f, ms), at)
  {
    if ms == [] {
      at := [];
    } else {
      var later := FilterSelects(f, ms[1..]);
      at := Shifted(f, ms, FilterMap(f, ms[1..]), later);
      if f(ms[0]).Some? { at := KeepsFirst(f, ms, FilterMap(f, ms[1..]), at); }
    }
  }

  /** The positions in `ms` of those in `ms[1..]`. */
  lemma Shifted(f: Msg -> Option<Msg>, ms: seq<Msg>, kept: seq<Msg>, later: seq<nat>) returns (at: seq<nat>)
    requires ms != [] && Selects(f, ms[1..], kept, later)
    ensures |at| == |kept| && (forall j, k :: 0 <= j < k < |at| ==> at[j] < at[k])
    ensures forall j :: 0 <= j < |at| ==> 0 < at[j] < |ms| && f(ms[at[j]]) == Some(kept[j])
    ensures forall i :: 0 < i < |ms| && f(ms[i]).Some? ==> i in at
  {
    at := seq(|later|, j requires 0 <= j < |later| => later[j] + 1);
    forall j | 0 <= j < |at| ensures 0 < at[j] < |ms| && f(ms[at[j]]) == Some(kept[j]) {
      SecondOn(ms, later[j]);
    }
    forall i | 0 < i < |ms| && f(ms[i]).Some? ensures i in at {
      SecondOn(ms, i - 1);
      ShiftedHas(later, at, i - 1);
    }
  }

  lemma SecondOn(ms: seq<Msg>, i: nat)
    requires i + 1 < |ms|
    ensures ms[1..][i] == ms[i + 1]
  {
  }

  lemma ShiftedHas(later: seq<nat>, at: seq<nat>, i: nat)
    requires i in later && |at| == |later| && forall j :: 0 <= j < |at| ==> at[j] == later[j] + 1
    ensures i + 1 in at
  {
    var j :| 0 <= j < |later| && later[j] == i;
    assert at[j] == i + 1;
  }

  lemma KeepsFirst(f: Msg -> Option<Msg>, ms: seq<Msg>, kept: seq<Msg>, later: seq<nat>) returns (at: seq<nat>)
    requires ms != [] && f(ms[0]).Some?
    requires |later| == |kept| && (forall j, k :: 0 <= j < k < |later| ==> later[j] < later[k])
    requires forall j :: 0 <= j < |later| ==> 0 < later[j] < |ms| && f(ms[later[j]]) == Some(kept[j])
    requires forall i :: 0 < i < |ms| && f(ms[i]).Some? ==> i in later
    ensures Selects(f, ms, [f(ms[0]).value] + kept, at)
  {
    at := [0] + later;
    forall i | 0 <= i < |ms| && f(ms[i]).Some? ensures i in at { assert i == 0 || i in later; }
  }

  // ----- the laws

  /** A call of the form `receive(&[])` changes nothing and reports aliveness
      (src/listener.rs:45-46, 55). */
  lemma {:induction false} EmptyBatchIsAQuery(w: World, l: Listener)
    requires Provided(w, l)
    ensures Receive(w, l, []) == (w, Alive(w, l))
    decreases l
  {
    match l
    case Null =>
    case Weak(d) => if Live(w, d) { DepositTwice(w[d].content, [], []); assert w[d := w[d]] == w; }
    case Gated(g, t) => if Live(w, g) { EmptyBatchIsAQuery(w, t); }
    case Filtered(f, batch, zst, t) => EmptyBatchIsAQuery(w, t);
    case Pair(a, b) => EmptyBatchIsAQuery(w, a); EmptyBatchIsAQuery(w, b);
  }

  /** Owners may have been dropped between `w` and `later`, and no dead weak reference revived. */
  ghost predicate Later(w: World, later: World) {
    && later.Keys == w.Keys
    && forall x :: x in w ==>
      SameKind(w[x].content, later[x].content) && (w[x].strong == 0 ==> later[x].strong == 0)
  }

  /** The absorbing-death law: a listener that answered `false` answers `false` for ever, and
      nothing it is given has any effect (src/listener.rs:42-46). */
  lemma {:induction false} DeathIsForEver(w: World, later: World, l: Listener, before: seq<Msg>, ms: seq<Msg>)
    requires Provided(w, l) && Later(w, later)
    requires !Receive(w, l, before).1
    ensures Receive(later, l, ms) == (later, false)
    decreases l
  {
    match l
    case Null =>
    case Weak(d) =>
    case Gated(g, t) => if Live(w, g) { DeathIsForEver(w, later, t, before, ms); }
    case Filtered(f, batch, zst, t) =>
      var kept := FilterMap(f, before);
      var first := if zst then kept else Chunk(kept, batch)[0];
      AnswerIsAliveness(w, l, before);
      AnswerIsAliveness(w, t, first);
      DeathIsForEver(w, later, t, first, (if zst then [FilterMap(f, ms)] else Chunk(FilterMap(f, ms), batch))[0]);
    case Pair(a, b) =>
      AnswerIsAliveness(w, l, before);
      AnswerIsAliveness(w, a, before);
      AnswerIsAliveness(w, b, before);
      DeathIsForEver(w, later, a, before, ms);
      DeathIsForEver(w, later, b, before, ms);
  }

  /** Batching cannot be observed (src/listener.rs:52-55): one call with `a + b` and two calls
      with `a` and `b` give the same answer and leave the same world, except that a log reached
      from both sides of a pair may hold its messages in another order. */
  lemma BatchesDoNotMatter(w: World, l: Listener, a: seq<Msg>, b: seq<Msg>)
    requires Provided(w, l)
    ensures var (w1, alive1) := Receive(w, l, a);
            var (w2, alive2) := Receive(w1, l, b);
            var (w', alive') := Receive(w, l, a + b);
            && alive1 == alive2 == alive'
            && SimilarWorlds(w', w2)
            && (forall x :: x in w && Once(l, x) ==> w2[x] == w'[x])
  {
    var w1 := Receive(w, l, a).0;
    AnswerIsAliveness(w, l, a);
    AliveByOwners(w, w1, l);
    AnswerIsAliveness(w1, l, b);
    AnswerIsAliveness(w, l, a + b);
    forall x | x in w
      ensures Similar(Receive(w, l, a + b).0[x].content, Receive(w1, l, b).0[x].content)
      ensures Once(l, x) ==> Receive(w, l, a + b).0[x] == Receive(w1, l, b).0[x]
    {
      if w[x].content.Calls? {
        Untouched(w, l, a, x);
        Untouched(w1, l, b, x);
        Untouched(w, l, a + b, x);
      } else {
        BatchesDoNotMatterAt(w, l, a, b, x);
      }
    }
  }

  lemma BatchesDoNotMatterAt(w: World, l: Listener, a: seq<Msg>, b: seq<Msg>, x: Shared)
    requires Provided(w, l) && x in w && !w[x].content.Calls?
    ensures var w2 := Receive(Receive(w, l, a).0, l, b).0;
            var w' := Receive(w, l, a + b).0;
            && Similar(w'[x].content, w2[x].content)
            && (Once(l, x) ==> w2[x] == w'[x])
  {
    var w1 := Receive(w, l, a).0;
    var (ra, rb) := (Reaches(w, l, a, x), Reaches(w, l, b, x));
    var c := w[x].content;
    Delivers(w, l, a, x);
    Delivers(w, l, a + b, x);
    ReachesByOwners(w, w1, l, b, x);
    Delivers(w1, l, b, x);
    DepositTwice(c, ra, rb);
    ReachesAppendBag(w, l, a, b, x);
    DepositSimilar(w1[x].content, Deposit(c, ra), rb, rb);
    DepositSimilar(c, c, ra + rb, Reaches(w, l, a + b, x));
    if Once(l, x) { ReachesAppend(w, l, a, b, x); }
  }

  // ----- logs reached twice

  /** What `l` writes to the log `x`, with the batches of its filters. */
  ghost function Written(w: World, l: Listener, ms: seq<Msg>, x: Shared): seq<Msg>
    decreases l, 0
  {
    match l
    case Null => []
    case Weak(d) => if d == x && Live(w, d) then ms else []
    case Gated(g, t) => if Live(w, g) then Written(w, t, ms, x) else []
    case Filtered(f, batch, zst, t) =>
      WrittenAll(w, t, if zst then [FilterMap(f, ms)] else Chunk(FilterMap(f, ms), batch), x)
    case Pair(a, b) => Written(w, a, ms, x) + Written(w, b, ms, x)
  }

  ghost function WrittenAll(w: World, l: Listener, batches: seq<seq<Msg>>, x: Shared): seq<Msg>
    decreases l, |batches|
  {
    if batches == [] then [] else Written(w, l, batches[0], x) + WrittenAll(w, l, batches[1..], x)
  }

  lemma {:induction false} WrittenByOwners(w: World, w': World, l: Listener, ms: seq<Msg>, x: Shared)
    requires SameShape(w, w')
    ensures Written(w', l, ms, x) == Written(w, l, ms, x)
    ensures !Alive(w, l) ==> Written(w, l, ms, x) == []
    decreases l, 0
  {
    match l
    case Null =>
    case Weak(d) =>
    case Gated(g, t) => WrittenByOwners(w, w', t, ms, x);
    case Filtered(f, batch, zst, t) =>
      WrittenAllByOwners(w, w', t, if zst then [FilterMap(f, ms)] else Chunk(FilterMap(f, ms), batch), x);
    case Pair(a, b) => WrittenByOwners(w, w', a, ms, x); WrittenByOwners(w, w', b, ms, x);
  }

  lemma {:induction false} WrittenAllByOwners(w: World, w': World, l: Listener, batches: seq<seq<Msg>>, x: Shared)
    requires SameShape(w, w')
    ensures WrittenAll(w', l, batches, x) == WrittenAll(w, l, batches, x)
    ensures !Alive(w, l) ==> WrittenAll(w, l, batches, x) == []
    decreases l, |batches|
  {
    if batches != [] {
      WrittenByOwners(w, w', l, batches[0], x);
      WrittenAllByOwners(w, w', l, batches[1..], x);
    }
  }

  lemma {:induction false} Writes(w: World, l: Listener, ms: seq<Msg>, x: Shared)
    requires Provided(w, l) && x in w && w[x].content.Items?
    ensures Receive(w, l, ms).0[x].content == Items(w[x].content.items + Written(w, l, ms, x))
    decreases l, 0
  {
    assert w[x].content.items + [] == w[x].content.items;
    match l
    case Null =>
    case Weak(d) =>
    case Gated(g, t) => if Live(w, g) { Writes(w, t, ms, x); }
    case Filtered(f, batch, zst, t) =>
      WritesAll(w, t, if zst then [FilterMap(f, ms)] else Chunk(FilterMap(f, ms), batch), x);
    case Pair(a, b) =>
      var w1 := Receive(w, a, ms).0;
      Writes(w, a, ms, x);
      AliveByOwners(w, w1, b);
      Writes(w1, b, ms, x);
      WrittenByOwners(w, w1, b, ms, x);
      assert w[x].content.items + Written(w, a, ms, x) + Written(w, b, ms, x)
          == w[x].content.items + (Written(w, a, ms, x) + Written(w, b, ms, x));
  }

  lemma {:induction false} WritesAll(w: World, l: Listener, batches: seq<seq<Msg>>, x: Shared)
    requires batches != [] && Provided(w, l) && x in w && w[x].content.Items?
    ensures ReceiveAll(w, l, batches).0[x].content == Items(w[x].content.items + WrittenAll(w, l, batches, x))
    decreases l, |batches|
  {
    var (w1, alive) := Receive(w, l, batches[0]);
    var (head, rest) := (Written(w, l, batches[0], x), WrittenAll(w, l, batches[1..], x));
    Writes(w, l, batches[0], x);
    AnswerIsAliveness(w, l, batches[0]);
    WrittenAllByOwners(w, w1, l, batches[1..], x);
    assert head + [] == head;
    if alive && |batches| > 1 {
      AliveByOwners(w, w1, l);
      WritesAll(w1, l, batches[1..], x);
      assert w[x].content.items + head + rest == w[x].content.items + (head + rest);
    }
  }

  /** For every tree: two batches sent together or apart leave the same log if and only if the tree
      makes of the joined batch what it makes of the two, one after the other. */
  lemma LogReordersIff(w: World, l: Listener, a: seq<Msg>, b: seq<Msg>, x: Shared)
    requires Provided(w, l) && x in w && w[x].content.Items?
    ensures Receive(Receive(w, l, a).0, l, b).0[x] == Receive(w, l, a + b).0[x]
       <==> Written(w, l, a, x) + Written(w, l, b, x) == Written(w, l, a + b, x)
  {
    var first := Receive(w, l, a).0;
    Writes(w, l, a, x);
    AliveByOwners(w, first, l);
    Writes(first, l, b, x);
    WrittenByOwners(w, first, l, b, x);
    Writes(w, l, a + b, x);
    SamePrefix(w[x].content.items, Written(w, l, a, x), Written(w, l, b, x), Written(w, l, a + b, x));
  }

  lemma SamePrefix(items: seq<Msg>, a: seq<Msg>, b: seq<Msg>, ab: seq<Msg>)
    ensures items + a + b == items + ab <==> a + b == ab
  {
    assert items + a + b == items + (a + b);
    assert (items + (a + b))[|items|..] == a + b && (items + ab)[|items|..] == ab;
  }

  /** What a pair writes to a log that both sides may write. */
  lemma PairWrites(w: World, l1: Listener, l2: Listener, ms: seq<Msg>, x: Shared)
    requires Provided(w, Pair(l1, l2)) && Once(l1, x) && Once(l2, x) && x in w && w[x].content.Items?
    ensures Receive(w, Pair(l1, l2), ms).0[x].content
         == Items(w[x].content.items + Reaches(w, l1, ms, x) + Reaches(w, l2, ms, x))
  {
    var w1 := Receive(w, l1, ms).0;
    Delivers(w, l1, ms, x);
    ReachesByOwners(w, w1, l2, ms, x);
    Delivers(w1, l2, ms, x);
  }

  /** The exception is real, and its extent exact (src/simple_listeners.rs:39-42): where both sides
      of a pair write a log, through whatever filters and gates, two batches sent together or apart
      leave the same log if and only if what the second side makes of the first batch commutes with
      what the first side makes of the second. */
  lemma PairOnOneLogReorders(w: World, l1: Listener, l2: Listener, a: seq<Msg>, b: seq<Msg>, x: Shared)
    requires Provided(w, Pair(l1, l2)) && Once(l1, x) && Once(l2, x) && x in w && w[x].content.Items?
    ensures var l := Pair(l1, l2);
            var (late, early) := (Reaches(w, l2, a, x), Reaches(w, l1, b, x));
            Receive(Receive(w, l, a).0, l, b).0[x] == Receive(w, l, a + b).0[x] <==> late + early == early + late
  {
    var l := Pair(l1, l2);
    var first := Receive(w, l, a).0;
    AliveByOwners(w, first, l);
    PairWrites(w, l1, l2, a, x);
    PairWrites(first, l1, l2, b, x);
    PairWrites(w, l1, l2, a + b, x);
    ReachesByOwners(w, first, l1, b, x);
    ReachesByOwners(w, first, l2, b, x);
    ReachesAppend(w, l1, a, b, x);
    ReachesAppend(w, l2, a, b, x);
    MiddleCommutes(w[x].content.items, Reaches(w, l1, a, x), Reaches(w, l2, a, x), Reaches(w, l1, b, x),
                   Reaches(w, l2, b, x));
  }

  lemma MiddleCommutes(items: seq<Msg>, a1: seq<Msg>, a2: seq<Msg>, b1: seq<Msg>, b2: seq<Msg>)
    ensures items + a1 + a2 + b1 + b2 == items + (a1 + b1) + (a2 + b2) <==> a2 + b1 == b1 + a2
  {
    var (apart, together, n) := (items + a1 + a2 + b1 + b2, items + (a1 + b1) + (a2 + b2), |items| + |a1|);
    assert apart == items + a1 + (a2 + b1) + b2;
    assert together == items + a1 + (b1 + a2) + b2;
    assert apart[n..n + |a2| + |b1|] == a2 + b1;
    assert together[n..n + |a2| + |b1|] == b1 + a2;
  }

  /** Without filters: if and only if the batches commute. */
  lemma BarePairReorders(w: World, d: Shared, a: seq<Msg>, b: seq<Msg>)
    requires Live(w, d) && w[d].content.Items?
    ensures var l := Pair(Weak(d), Weak(d));
            Receive(Receive(w, l, a).0, l, b).0 == Receive(w, l, a + b).0 <==> a + b == b + a
  {
    var l := Pair(Weak(d), Weak(d));
    var (apart, together) := (Receive(Receive(w, l, a).0, l, b).0, Receive(w, l, a + b).0);
    PairOnOneLogReorders(w, Weak(d), Weak(d), a, b, d);
    forall y | y in w && y != d ensures apart[y] == together[y] {
      Untouched(w, l, a, y);
      Untouched(Receive(w, l, a).0, l, b, y);
      Untouched(w, l, a + b, y);
    }
    assert apart.Keys == together.Keys;
  }

  // ----- filter chunking, seen by a listener of the user's own

  /** Once it has answered `false` it always will. */
  ghost predicate Dies(answers: nat -> bool) {
    forall i: nat, j: nat :: i <= j && !answers(i) ==> !answers(j)
  }

  /** How many of `n` calls, numbered from `from`, are made: all, or up to the first `false`. */
  ghost function CallsMade(answers: nat -> bool, from: nat, n: nat): nat
    decreases n
  {
    if n == 0 then 0 else if !answers(from) then 1 else 1 + CallsMade(answers, from + 1, n - 1)
  }

  lemma {:induction false} CallsMadeIsFirstFalse(answers: nat -> bool, from: nat, n: nat)
    requires n > 0 && Dies(answers)
    ensures var k := CallsMade(answers, from, n);
            && 1 <= k <= n
            && (forall i: nat :: from <= i < from + k - 1 ==> answers(i))
            && (k < n ==> !answers(from + k - 1))
            && (answers(from + n - 1) ==> k == n)
    decreases n
  {
    if n > 1 && answers(from) {
      CallsMadeIsFirstFalse(answers, from + 1, n - 1);
    }
  }

  lemma CallsAppend(calls: seq<seq<Msg>>, batches: seq<seq<Msg>>, k: nat)
    requires k < |batches|
    ensures calls + [batches[0]] + batches[1..][..k] == calls + batches[..k + 1]
  {
    assert [batches[0]] + batches[1..][..k] == batches[..k + 1];
  }

  lemma {:induction false} ProbeSees(w: World, d: Shared, batches: seq<seq<Msg>>)
    requires batches != [] && Live(w, d) && w[d].content.Calls?
    ensures var Calls(calls, answers) := w[d].content;
            var k := CallsMade(answers, |calls|, |batches|);
            var (w', alive) := ReceiveAll(w, Weak(d), batches);
            && 1 <= k <= |batches|
            && w' == w[d := w[d].(content := Calls(calls + batches[..k], answers))]
            && alive == answers(|calls| + k - 1)
    decreases |batches|
  {
    var Calls(calls, answers) := w[d].content;
    var (w1, alive) := Receive(w, Weak(d), batches[0]);
    if alive && |batches| > 1 {
      ProbeSees(w1, d, batches[1..]);
      CallsAppend(calls, batches, CallsMade(answers, |calls| + 1, |batches| - 1));
    } else {
      assert batches[..1] == [batches[0]];
    }
  }

  /** `Filter::receive` in front of any listener that obeys the death law
      (src/filter.rs:71-106): the batches it passes on are a prefix of the chunks of the
      messages it keeps, cut after the batch that was answered with `false`; if there is no
      such batch they are all of them. A filter whose output has no size makes one call. */
  lemma FilterPassesOnChunks(w: World, f: Msg -> Option<Msg>, batch: Positive, zst: bool, d: Shared, ms: seq<Msg>)
    returns (k: nat)
    requires Live(w, d) && w[d].content.Calls? && Dies(w[d].content.answers)
    ensures var Calls(calls, answers) := w[d].content;
            var kept := FilterMap(f, ms);
            var batches := if zst then [kept] else Chunk(kept, batch);
            var (w', alive) := Receive(w, Filtered(f, batch, zst, Weak(d)), ms);
            && Concat(batches) == kept
            && 1 <= k <= |batches|
            && w' == w[d := w[d].(content := Calls(calls + batches[..k], answers))]
            && alive == answers(|calls| + k - 1)
            && (forall i: nat :: |calls| <= i < |calls| + k - 1 ==> answers(i))
            && (k < |batches| ==> !alive)
            && (answers(|calls| + |batches| - 1) ==> k == |batches| && alive)
  {
    var kept := FilterMap(f, ms);
    ChunkConcat(kept, batch);
    assert Concat([kept]) == kept + Concat([]);
    k := PassedOn(w, d, if zst then [kept] else Chunk(kept, batch));
  }

  /** The batches such a listener is handed: all, or up to the first answered with `false`. */
  lemma PassedOn(w: World, d: Shared, batches: seq<seq<Msg>>) returns (k: nat)
    requires Live(w, d) && w[d].content.Calls? && Dies(w[d].content.answers) && batches != []
    ensures var Calls(calls, answers) := w[d].content;
            var (w', alive) := ReceiveAll(w, Weak(d), batches);
            && 1 <= k <= |batches|
            && w' == w[d := w[d].(content := Calls(calls + batches[..k], answers))]
            && alive == answers(|calls| + k - 1)
            && (forall i: nat :: |calls| <= i < |calls| + k - 1 ==> answers(i))
            && (k < |batches| ==> !alive)
            && (answers(|calls| + |batches| - 1) ==> k == |batches| && alive)
  {
    var Calls(calls, answers) := w[d].content;
    k := CallsMade(answers, |calls|, |batches|);
    ProbeSees(w, d, batches);
    CallsMadeIsFirstFalse(answers, |calls|, |batches|);
  }
}
