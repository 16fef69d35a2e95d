/** The swept vector is indistinguishable from a list that only grows. */
module NotifierRefinement {
  import opened Wrappers
  import opened Listeners
  import opened ListenerLaws
  import opened Notifiers

  ghost function Names(es: seq<Entry>): seq<Listener> {
    seq(|es|, i requires 0 <= i < |es| => es[i].listener)
  }

  /** The live listeners of a list, each as often as it is listed. */
  ghost function Bag(w: World, ls: seq<Listener>): multiset<Listener> {
    if ls == [] then multiset{}
    else
      var l := ls[|ls| - 1];
      Bag(w, ls[..|ls| - 1]) + if Alive(w, l) then multiset{l} else multiset{}
  }

  ghost predicate AllProvided(w: World, ls: seq<Listener>) {
    forall i :: 0 <= i < |ls| ==> Provided(w, ls[i])
  }

  /** An entry is marked dead only if it is. */
  ghost predicate MarksAreTrue(w: World, es: seq<Entry>) {
    forall i :: 0 <= i < |es| && !es[i].wasAlive ==> !Alive(w, es[i].listener)
  }

  // ----- bags

  lemma {:induction false} BagAppend(w: World, a: seq<Listener>, b: seq<Listener>)
    ensures Bag(w, a + b) == Bag(w, a) + Bag(w, b)
  {
    if b == [] {
      assert a + b == a;
    } else {
      assert (a + b)[..|a + b| - 1] == a + b[..|b| - 1];
      BagAppend(w, a, b[..|b| - 1]);
    }
  }

  /** Taking out one listener takes one occurrence out of the bag. */
  lemma BagWithout(w: World, ls: seq<Listener>, i: nat)
    requires i < |ls|
    ensures Bag(w, ls) == Bag(w, ls[..i] + ls[i + 1..]) + if Alive(w, ls[i]) then multiset{ls[i]} else multiset{}
  {
    assert ls == ls[..i] + [ls[i]] + ls[i + 1..];
    BagAppend(w, ls[..i] + [ls[i]], ls[i + 1..]);
    BagAppend(w, ls[..i], [ls[i]]);
    BagAppend(w, ls[..i], ls[i + 1..]);
  }

  lemma {:induction false} BagMember(w: World, ls: seq<Listener>, l: Listener) returns (i: nat)
    requires l in Bag(w, ls)
    ensures i < |ls| && ls[i] == l && Alive(w, l)
  {
    var n := |ls| - 1;
    if l == ls[n] && Alive(w, l) {
      i := n;
    } else {
      i := BagMember(w, ls[..n], l);
    }
  }

  // ----- the sweep

  ghost predicate Swept(w: World, es: seq<Entry>, i: nat) {
    forall k :: 0 <= k < i && k < |es| ==> es[k].wasAlive && Alive(w, es[k].listener)
  }

  lemma KeepIsAlive(w: World, e: Entry)
    requires Provided(w, e.listener) && (!e.wasAlive ==> !Alive(w, e.listener))
    ensures Keep(w, e) == Alive(w, e.listener)
  {
    EmptyBatchIsAQuery(w, e.listener);
  }

  lemma BagSwapRemove(w: World, es: seq<Entry>, i: nat)
    requires i < |es| && !Alive(w, es[i].listener)
    ensures Bag(w, Names(SwapRemove(es, i))) == Bag(w, Names(es))
  {
    var ls, n := Names(es), |es| - 1;
    BagWithout(w, ls, i);
    var gap := ls[..i] + ls[i + 1..];
    if i < n {
      var l := ls[n];
      assert gap == (ls[..i] + ls[i + 1..n]) + [l];
      assert Names(SwapRemove(es, i)) == ls[..i] + [l] + ls[i + 1..n];
      BagAppend(w, ls[..i] + ls[i + 1..n], [l]);
      BagAppend(w, ls[..i], ls[i + 1..n]);
      BagAppend(w, ls[..i] + [l], ls[i + 1..n]);
      BagAppend(w, ls[..i], [l]);
    } else {
      assert Names(SwapRemove(es, i)) == gap;
    }
  }

  /** The sweep keeps exactly the live listeners, as often as each was registered, although it
      changes their order; and nothing dead is left (src/notifier.rs:371-385). */
  lemma {:induction false} SweepKeepsTheLiving(w: World, es: seq<Entry>, i: nat)
    requires i <= |es| && AllProvided(w, Names(es)) && MarksAreTrue(w, es) && Swept(w, es, i)
    ensures var es' := SweepFrom(w, es, i);
            && Bag(w, Names(es')) == Bag(w, Names(es))
            && Swept(w, es', |es'|)
            && |es'| == |Bag(w, Names(es))|
            && AllProvided(w, Names(es'))
    decreases |es| - i
  {
    if i == |es| {
      BagOfTheLiving(w, es);
    } else {
      assert Provided(w, Names(es)[i]);
      KeepIsAlive(w, es[i]);
      if Keep(w, es[i]) {
        SweepKeepsTheLiving(w, es, i + 1);
      } else {
        BagSwapRemove(w, es, i);
        SwapRemoveKeeps(w, es, i);
        SweepKeepsTheLiving(w, SwapRemove(es, i), i);
      }
    }
  }

  /** Whoever is marked dead is dropped, without being asked. */
  lemma {:induction false} SweepDropsTheMarked(w: World, es: seq<Entry>, i: nat)
    requires i <= |es| && forall k :: 0 <= k < i ==> es[k].wasAlive
    ensures forall k :: 0 <= k < |SweepFrom(w, es, i)| ==> SweepFrom(w, es, i)[k].wasAlive
    decreases |es| - i
  {
    if i < |es| {
      if Keep(w, es[i]) { SweepDropsTheMarked(w, es, i + 1); } else { SweepDropsTheMarked(w, SwapRemove(es, i), i); }
    }
  }

  lemma SwapRemoveKeeps(w: World, es: seq<Entry>, i: nat)
    requires i < |es| && AllProvided(w, Names(es)) && MarksAreTrue(w, es) && Swept(w, es, i)
    ensures var es' := SwapRemove(es, i);
            AllProvided(w, Names(es')) && MarksAreTrue(w, es') && Swept(w, es', i)
  {
    var es' := SwapRemove(es, i);
    forall k | 0 <= k < |es'| ensures Provided(w, Names(es')[k]) {
      assert Provided(w, Names(es)[if k == i then |es| - 1 else k]);
    }
  }

  lemma {:induction false} BagOfTheLiving(w: World, es: seq<Entry>)
    requires Swept(w, es, |es|)
    ensures |Bag(w, Names(es))| == |es|
  {
    if es != [] {
      var n := |es| - 1;
      assert Names(es)[..n] == Names(es[..n]);
      BagOfTheLiving(w, es[..n]);
    }
  }

  // ----- sending

  /** What `x` is handed when `ms` goes to each of `ls` in order. */
  ghost function Out(w: World, ls: seq<Listener>, ms: seq<Msg>, x: Shared): seq<Msg> {
    if ls == [] then [] else Out(w, ls[..|ls| - 1], ms, x) + Reaches(w, ls[|ls| - 1], ms, x)
  }

  ghost predicate OnceInEach(w: World, ls: seq<Listener>, x: Shared) {
    forall i :: 0 <= i < |ls| && Alive(w, ls[i]) ==> Once(ls[i], x)
  }

  lemma {:induction false} NotifyIsSendAll(w: World, es: seq<Entry>, ms: seq<Msg>)
    requires AllProvided(w, Names(es)) && MarksAreTrue(w, es)
    ensures var (w', es') := NotifyMany(w, es, ms);
            && w' == SendAll(w, Names(es), ms)
            && Names(es') == Names(es)
            && MarksAreTrue(w', es')
  {
    if es != [] {
      var n := |es| - 1;
      assert Names(es)[..n] == Names(es[..n]);
      forall i | 0 <= i < n ensures Provided(w, Names(es[..n])[i]) {
        assert Provided(w, Names(es)[i]);
      }
      NotifyIsSendAll(w, es[..n], ms);
      var (w1, front) := NotifyMany(w, es[..n], ms);
      var (w2, es') := NotifyMany(w, es, ms);
      assert Provided(w, Names(es)[n]);
      assert w2 == SendAll(w, Names(es), ms);
      assert Names(es') == Names(es);
      AliveByOwners(w, w1, es[n].listener);
      AnswerIsAliveness(w1, es[n].listener, ms);
      AliveByOwners(w1, w2, es[n].listener);
      forall i | 0 <= i < n ensures Alive(w2, es[i].listener) == Alive(w1, es[i].listener) {
        AliveByOwners(w1, w2, es[i].listener);
      }
    }
  }

  /** A batch marks exactly those dead that are dead when it is sent. */
  lemma {:induction false} NotifyMarks(w: World, es: seq<Entry>, ms: seq<Msg>)
    requires AllProvided(w, Names(es))
    ensures forall i :: 0 <= i < |es| ==>
              (NotifyMany(w, es, ms).1[i].wasAlive <==> es[i].wasAlive && Alive(w, es[i].listener))
  {
    if es != [] {
      var n := |es| - 1;
      forall i | 0 <= i < n ensures Provided(w, Names(es[..n])[i]) { assert Provided(w, Names(es)[i]); }
      NotifyMarks(w, es[..n], ms);
      var w1 := NotifyMany(w, es[..n], ms).0;
      assert Provided(w, Names(es)[n]);
      AliveByOwners(w, w1, es[n].listener);
      AnswerIsAliveness(w1, es[n].listener, ms);
    }
  }

  lemma {:induction false} SendAllDelivers(w: World, ls: seq<Listener>, ms: seq<Msg>, x: Shared)
    requires AllProvided(w, ls) && x in w && !w[x].content.Calls?
    ensures Similar(SendAll(w, ls, ms)[x].content, Deposit(w[x].content, Out(w, ls, ms, x)))
    ensures OnceInEach(w, ls, x) ==> SendAll(w, ls, ms)[x].content == Deposit(w[x].content, Out(w, ls, ms, x))
  {
    var c := w[x].content;
    DepositTwice(c, [], []);
    if ls != [] {
      var n := |ls| - 1;
      var w1 := SendAll(w, ls[..n], ms);
      SendAllDelivers(w, ls[..n], ms, x);
      AliveByOwners(w, w1, ls[n]);
      Delivers(w1, ls[n], ms, x);
      ReachesByOwners(w, w1, ls[n], ms, x);
      if !Alive(w1, ls[n]) {
        AnswerIsAliveness(w1, ls[n], []);
        DeathIsForEver(w1, w1, ls[n], [], ms);
        ReachesNothing(w, ls[n], ms, x);
      }
      var (out, more) := (Out(w, ls[..n], ms, x), Reaches(w, ls[n], ms, x));
      DepositTwice(c, out, more);
      DepositSimilar(w1[x].content, Deposit(c, out), more, more);
    }
  }

  lemma {:induction false} SendAllUntouched(w: World, ls: seq<Listener>, ms: seq<Msg>, x: Shared)
    requires AllProvided(w, ls) && x in w && w[x].content.Calls?
    ensures SendAll(w, ls, ms)[x] == w[x]
  {
    if ls != [] {
      var n := |ls| - 1;
      var w1 := SendAll(w, ls[..n], ms);
      SendAllUntouched(w, ls[..n], ms, x);
      AliveByOwners(w, w1, ls[n]);
      Untouched(w1, ls[n], ms, x);
    }
  }

  lemma {:induction false} OutAppend(w: World, a: seq<Listener>, b: seq<Listener>, ms: seq<Msg>, x: Shared)
    ensures Out(w, a + b, ms, x) == Out(w, a, ms, x) + Out(w, b, ms, x)
  {
    if b == [] {
      assert a + b == a;
    } else {
      assert (a + b)[..|a + b| - 1] == a + b[..|b| - 1];
      OutAppend(w, a, b[..|b| - 1], ms, x);
    }
  }

  lemma OutWithout(w: World, ls: seq<Listener>, i: nat, ms: seq<Msg>, x: Shared)
    requires i < |ls|
    ensures multiset(Out(w, ls, ms, x))
            == multiset(Out(w, ls[..i] + ls[i + 1..], ms, x)) + multiset(Reaches(w, ls[i], ms, x))
  {
    assert ls == ls[..i] + [ls[i]] + ls[i + 1..];
    OutAppend(w, ls[..i] + [ls[i]], ls[i + 1..], ms, x);
    OutAppend(w, ls[..i], [ls[i]], ms, x);
    OutAppend(w, ls[..i], ls[i + 1..], ms, x);
    assert Out(w, [ls[i]], ms, x) == Out(w, [], ms, x) + Reaches(w, ls[i], ms, x);
  }

  lemma OneFewer(w: World, a: seq<Listener>, b: seq<Listener>, i: nat)
    requires a != [] && i < |b| && b[i] == a[|a| - 1] && Alive(w, b[i]) && Bag(w, a) == Bag(w, b)
    ensures Bag(w, a[..|a| - 1]) == Bag(w, b[..i] + b[i + 1..])
  {
    BagWithout(w, b, i);
    assert Bag(w, a) - multiset{b[i]} == Bag(w, a[..|a| - 1]);
  }

  /** The bag of live listeners decides what `x` is handed, up to order. */
  lemma {:induction false} OutByBag(w: World, a: seq<Listener>, b: seq<Listener>, ms: seq<Msg>, x: Shared)
    requires Bag(w, a) == Bag(w, b)
    ensures multiset(Out(w, a, ms, x)) == multiset(Out(w, b, ms, x))
    decreases |a| + |b|, |b|
  {
    if a == [] {
      if b != [] { OutByBag(w, b, a, ms, x); }
    } else {
      var n := |a| - 1;
      if !Alive(w, a[n]) {
        ReachesNothing(w, a[n], ms, x);
        OutByBag(w, a[..n], b, ms, x);
      } else {
        var i := BagMember(w, b, a[n]);
        OneFewer(w, a, b, i);
        OutByBag(w, a[..n], b[..i] + b[i + 1..], ms, x);
        OutWithout(w, b, i, ms, x);
      }
    }
  }

  // ----- a destination that only one subscriber writes

  ghost predicate MentionersAlike(bag: multiset<Listener>, x: Shared) {
    forall l, l' :: l in bag && l' in bag && Mentions(l, x) && Mentions(l', x) ==> l == l' && bag[l] == 1
  }

  lemma {:induction false} OutOfNone(w: World, ls: seq<Listener>, ms: seq<Msg>, x: Shared)
    requires forall l :: l in Bag(w, ls) ==> !Mentions(l, x)
    ensures Out(w, ls, ms, x) == []
  {
    if ls != [] {
      var n := |ls| - 1;
      assert forall l :: l in Bag(w, ls[..n]) ==> l in Bag(w, ls);
      OutOfNone(w, ls[..n], ms, x);
      if Alive(w, ls[n]) { assert ls[n] in Bag(w, ls); }
      ReachesNothing(w, ls[n], ms, x);
    }
  }

  /** Then order does not matter. */
  lemma {:induction false} OutOfOne(w: World, ls: seq<Listener>, ms: seq<Msg>, x: Shared, l: Listener)
    requires MentionersAlike(Bag(w, ls), x) && l in Bag(w, ls) && Mentions(l, x)
    ensures Out(w, ls, ms, x) == Reaches(w, l, ms, x)
  {
    var n := |ls| - 1;
    var front := Bag(w, ls[..n]);
    assert forall l' :: l' in front ==> l' in Bag(w, ls);
    if ls[n] == l {
      assert Alive(w, l) by { var i := BagMember(w, ls, l); }
      assert front[l] == 0;
      OutOfNone(w, ls[..n], ms, x);
    } else {
      OutOfOne(w, ls[..n], ms, x, l);
      if Alive(w, ls[n]) { assert ls[n] in Bag(w, ls); }
      ReachesNothing(w, ls[n], ms, x);
    }
  }

  /** Among everyone who ever subscribed, at most one subscription can write `x`, and it
      writes it once. */
  ghost predicate Sole(subs: seq<Listener>, x: Shared) {
    && (forall i :: 0 <= i < |subs| ==> Once(subs[i], x))
    && forall i, j :: 0 <= i < j < |subs| ==> !(Mentions(subs[i], x) && Mentions(subs[j], x))
  }

  lemma {:induction false} SoleMentioner(w: World, subs: seq<Listener>, x: Shared)
    requires Sole(subs, x)
    ensures MentionersAlike(Bag(w, subs), x)
  {
    if subs != [] {
      var n := |subs| - 1;
      SoleMentioner(w, subs[..n], x);
      forall l | l in Bag(w, subs[..n]) && Mentions(l, x) && Mentions(subs[n], x) ensures false {
        var i := BagMember(w, subs[..n], l);
      }
    }
  }

  // ----- the refinement

  /** The same live subscriptions... */
  ghost predicate SameSubscribers(s: State, r: Naive) {
    && AllProvided(s.w, Names(s.entries)) && AllProvided(r.w, r.subs)
    && MarksAreTrue(s.w, s.entries)
    && Bag(s.w, Names(s.entries)) == Bag(r.w, r.subs)
  }

  /** ...and the same messages in the same places. */
  ghost predicate SameEffects(w: World, r: Naive) {
    && SimilarWorlds(w, r.w)
    && forall x :: x in w && (w[x].content.Calls? || Sole(r.subs, x)) ==> w[x] == r.w[x]
  }

  ghost predicate Refines(s: State, r: Naive) {
    SameSubscribers(s, r) && SameEffects(s.w, r)
  }

  lemma SimilarHasShape(w: World, w': World)
    requires SimilarWorlds(w, w')
    ensures SameShape(w, w')
  {
  }

  lemma {:induction false} BagByOwners(w: World, w': World, ls: seq<Listener>)
    requires SameShape(w, w')
    ensures Bag(w', ls) == Bag(w, ls)
    ensures AllProvided(w, ls) ==> AllProvided(w', ls)
  {
    forall i | 0 <= i < |ls| ensures Provided(w', ls[i]) == Provided(w, ls[i]) {
      AliveByOwners(w, w', ls[i]);
    }
    if ls != [] {
      BagByOwners(w, w', ls[..|ls| - 1]);
      AliveByOwners(w, w', ls[|ls| - 1]);
    }
  }

  lemma {:induction false} OutByOwners(w: World, w': World, ls: seq<Listener>, ms: seq<Msg>, x: Shared)
    requires SameShape(w, w')
    ensures Out(w', ls, ms, x) == Out(w, ls, ms, x)
  {
    if ls != [] {
      OutByOwners(w, w', ls[..|ls| - 1], ms, x);
      ReachesByOwners(w, w', ls[|ls| - 1], ms, x);
    }
  }

  /** The two lists write `x` alike. */
  lemma SendsAlike(s: State, r: Naive, ms: seq<Msg>, x: Shared)
    requires Refines(s, r) && x in s.w && !s.w[x].content.Calls?
    ensures Similar(SendAll(s.w, Names(s.entries), ms)[x].content, SendAll(r.w, r.subs, ms)[x].content)
    ensures Sole(r.subs, x) ==>
              SendAll(s.w, Names(s.entries), ms)[x].content == SendAll(r.w, r.subs, ms)[x].content
  {
    var names := Names(s.entries);
    var (cs, cr) := (s.w[x].content, r.w[x].content);
    var (outs, outr) := (Out(s.w, names, ms, x), Out(r.w, r.subs, ms, x));
    SimilarHasShape(s.w, r.w);
    SendAllDelivers(s.w, names, ms, x);
    SendAllDelivers(r.w, r.subs, ms, x);
    BagByOwners(s.w, r.w, r.subs);
    OutByOwners(s.w, r.w, r.subs, ms, x);
    OutByBag(s.w, names, r.subs, ms, x);
    DepositSimilar(cs, cr, outs, outr);
    if Sole(r.subs, x) {
      SoleMentioner(s.w, r.subs, x);
      forall i | 0 <= i < |names| && Alive(s.w, names[i]) ensures Once(names[i], x) {
        BagWithout(s.w, names, i);
        var j := BagMember(s.w, r.subs, names[i]);
      }
      SoleAlike(s.w, names, r.subs, ms, x);
    }
  }

  lemma SoleAlike(w: World, a: seq<Listener>, b: seq<Listener>, ms: seq<Msg>, x: Shared)
    requires Bag(w, a) == Bag(w, b) && MentionersAlike(Bag(w, b), x)
    ensures Out(w, a, ms, x) == Out(w, b, ms, x)
  {
    if l :| l in Bag(w, b) && Mentions(l, x) {
      OutOfOne(w, a, ms, x, l);
      OutOfOne(w, b, ms, x, l);
    } else {
      OutOfNone(w, a, ms, x);
      OutOfNone(w, b, ms, x);
    }
  }

  lemma SendRefines(s: State, r: Naive, ms: seq<Msg>, grow: nat -> nat)
    requires Refines(s, r)
    ensures Refines(Step(s, Send(ms), grow), NaiveStep(r, Send(ms)))
  {
    var (s', r') := (Step(s, Send(ms), grow), NaiveStep(r, Send(ms)));
    var names := Names(s.entries);
    NotifyIsSendAll(s.w, s.entries, ms);
    BagByOwners(s.w, s'.w, names);
    BagByOwners(r.w, r'.w, r.subs);
    forall x | x in s.w
      ensures Similar(s'.w[x].content, r'.w[x].content)
      ensures s'.w[x].content.Calls? || Sole(r.subs, x) ==> s'.w[x] == r'.w[x]
    {
      if s.w[x].content.Calls? {
        SendAllUntouched(s.w, names, ms, x);
        SendAllUntouched(r.w, r.subs, ms, x);
      } else {
        SendsAlike(s, r, ms, x);
      }
    }
  }

  /** `listen` on the vector: one more, if it is alive, and nothing else changes. */
  lemma ListenAddsOne(s: State, l: Listener, grow: nat -> nat)
    requires Provided(s.w, l) && AllProvided(s.w, Names(s.entries)) && MarksAreTrue(s.w, s.entries)
    ensures var s' := Listen(s, l, grow);
            && s'.w == s.w
            && Bag(s.w, Names(s'.entries)) == Bag(s.w, Names(s.entries)) + Bag(s.w, [l])
            && AllProvided(s.w, Names(s'.entries)) && MarksAreTrue(s.w, s'.entries)
  {
    EmptyBatchIsAQuery(s.w, l);
    assert Bag(s.w, [l]) == Bag(s.w, []) + if Alive(s.w, l) then multiset{l} else multiset{};
    if Alive(s.w, l) {
      if |s.entries| >= s.capacity {
        SweepKeepsTheLiving(s.w, s.entries, 0);
        OneMore(s.w, SweepFrom(s.w, s.entries, 0), l);
      } else {
        OneMore(s.w, s.entries, l);
      }
    }
  }

  /** Exactly: a dead listener is refused; a live one is put at the end, after a sweep if and only if
      the vector was full, and the vector grows if and only if it still is
      (src/notifier.rs:332-344). */
  lemma ListenSweepsOnlyWhenFull(s: State, l: Listener, grow: nat -> nat)
    requires Provided(s.w, l) && AllProvided(s.w, Names(s.entries)) && MarksAreTrue(s.w, s.entries)
    requires |s.entries| <= s.capacity
    ensures var s' := Listen(s, l, grow);
            var live := |Bag(s.w, Names(s.entries))|;
            && (!Alive(s.w, l) ==> s' == s)
            && (Alive(s.w, l) && |s.entries| < s.capacity ==> s' == s.(entries := s.entries + [Entry(l, true)]))
            && (Alive(s.w, l) && |s.entries| == s.capacity ==>
                  && |s'.entries| == live + 1 && s'.entries[live] == Entry(l, true)
                  && s'.capacity == if live == s.capacity then grow(s.capacity) else s.capacity)
  {
    EmptyBatchIsAQuery(s.w, l);
    SweepKeepsTheLiving(s.w, s.entries, 0);
  }

  lemma OneMore(w: World, es: seq<Entry>, l: Listener)
    requires Provided(w, l) && Alive(w, l) && AllProvided(w, Names(es)) && MarksAreTrue(w, es)
    ensures var es' := es + [Entry(l, true)];
            && Bag(w, Names(es')) == Bag(w, Names(es)) + Bag(w, [l])
            && AllProvided(w, Names(es')) && MarksAreTrue(w, es')
  {
    BagAppend(w, Names(es), [l]);
    assert Names(es + [Entry(l, true)]) == Names(es) + [l];
  }

  lemma SoleBefore(subs: seq<Listener>, l: Listener, x: Shared)
    requires Sole(subs + [l], x)
    ensures Sole(subs, x)
  {
    assert forall i :: 0 <= i < |subs| ==> (subs + [l])[i] == subs[i];
  }

  lemma SubscribeRefines(s: State, r: Naive, l: Listener, grow: nat -> nat)
    requires Refines(s, r) && Provided(s.w, l)
    ensures Refines(Step(s, Subscribe(l), grow), NaiveStep(r, Subscribe(l)))
  {
    ListenAddsOne(s, l, grow);
    SimilarHasShape(s.w, r.w);
    NaiveAddsOne(s.w, r, l);
  }

  lemma NaiveAddsOne(w: World, r: Naive, l: Listener)
    requires SameEffects(w, r) && SameShape(w, r.w) && AllProvided(r.w, r.subs) && Provided(w, l)
    ensures var r' := r.(subs := r.subs + [l]);
            && AllProvided(r.w, r'.subs) && Bag(r.w, r'.subs) == Bag(r.w, r.subs) + Bag(w, [l]) && SameEffects(w, r')
  {
    AliveByOwners(w, r.w, l);
    BagByOwners(w, r.w, [l]);
    BagAppend(r.w, r.subs, [l]);
    forall x | x in w && Sole(r.subs + [l], x) ensures w[x] == r.w[x] {
      SoleBefore(r.subs, l, x);
    }
  }

  lemma CountRefines(s: State, r: Naive, grow: nat -> nat)
    requires Refines(s, r)
    ensures Refines(Step(s, Count, grow), NaiveStep(r, Count))
    ensures |Step(s, Count, grow).entries| == |Bag(r.w, r.subs)|
  {
    SweepKeepsTheLiving(s.w, s.entries, 0);
  }

  lemma OwnersRefine(s: State, r: Naive, op: Op, grow: nat -> nat)
    requires Refines(s, r) && (op.DropOwner? || op.CloneOwner?) && Allowed(s.w, op)
    ensures Refines(Step(s, op, grow), NaiveStep(r, op))
  {
    SimilarHasShape(s.w, r.w);
    var n := if op.DropOwner? then s.w[op.x].strong - 1 else s.w[op.x].strong + 1;
    OwnersAlike(s.w, r, op.x, n);
    OwnersSubscribers(s, r, op.x, n);
  }

  lemma OwnersSubscribers(s: State, r: Naive, x: Shared, n: nat)
    requires SameSubscribers(s, r) && SameShape(s.w, r.w) && Live(s.w, x)
    ensures SameSubscribers(s.(w := SetOwners(s.w, x, n)), r.(w := SetOwners(r.w, x, n)))
  {
    var (w', r') := (SetOwners(s.w, x, n), SetOwners(r.w, x, n));
    ProvidedLater(s.w, w', Names(s.entries));
    ProvidedLater(r.w, r', r.subs);
    BagByOwners(s.w, r.w, r.subs);
    BagsLater(s.w, w', Names(s.entries), r.subs);
    BagByOwners(w', r', r.subs);
    forall i | 0 <= i < |s.entries| && !s.entries[i].wasAlive ensures !Alive(w', s.entries[i].listener) {
      NoRevival(s.w, w', s.entries[i].listener);
    }
  }

  lemma ProvidedLater(w: World, w': World, ls: seq<Listener>)
    requires Later(w, w') && AllProvided(w, ls)
    ensures AllProvided(w', ls)
  {
    forall i | 0 <= i < |ls| ensures Provided(w', ls[i]) { ProvidedByKind(w, w', ls[i]); }
  }

  lemma {:induction false} BagsLater(w: World, w': World, a: seq<Listener>, b: seq<Listener>)
    requires Later(w, w') && Bag(w, a) == Bag(w, b)
    ensures Bag(w', a) == Bag(w', b)
    decreases |a| + |b|, |b|
  {
    if a == [] {
      if b != [] { BagsLater(w, w', b, a); }
    } else {
      var n := |a| - 1;
      NoRevival(w, w', a[n]);
      if !Alive(w, a[n]) {
        BagsLater(w, w', a[..n], b);
      } else {
        var i := BagMember(w, b, a[n]);
        OneFewer(w, a, b, i);
        BagsLater(w, w', a[..n], b[..i] + b[i + 1..]);
        BagWithout(w', b, i);
      }
    }
  }

  lemma OwnersAlike(w: World, r: Naive, x: Shared, n: nat)
    requires SameEffects(w, r) && x in w
    ensures SameEffects(SetOwners(w, x, n), r.(w := SetOwners(r.w, x, n)))
  {
  }

  lemma {:induction false} NoRevival(w: World, w': World, l: Listener)
    requires Later(w, w')
    ensures Alive(w', l) ==> Alive(w, l)
  {
    match l
    case Null =>
    case Weak(d) =>
    case Gated(_, t) => NoRevival(w, w', t);
    case Filtered(_, _, _, t) => NoRevival(w, w', t);
    case Pair(a, b) => NoRevival(w, w', a); NoRevival(w, w', b);
  }

  lemma {:induction false} ProvidedByKind(w: World, w': World, l: Listener)
    requires Later(w, w')
    ensures Provided(w', l) == Provided(w, l)
  {
    match l
    case Null =>
    case Weak(d) =>
    case Gated(_, t) => ProvidedByKind(w, w', t);
    case Filtered(_, _, _, t) => ProvidedByKind(w, w', t);
    case Pair(a, b) => ProvidedByKind(w, w', a); ProvidedByKind(w, w', b);
  }

  lemma AllowedAlike(s: State, r: Naive, op: Op)
    requires Refines(s, r)
    ensures Allowed(s.w, op) <==> Allowed(r.w, op)
  {
    SimilarHasShape(s.w, r.w);
    if op.Subscribe? { AliveByOwners(s.w, r.w, op.l); }
  }

  lemma StepRefines(s: State, r: Naive, op: Op, grow: nat -> nat)
    requires Refines(s, r) && Allowed(s.w, op) && Allowed(r.w, op)
    ensures Refines(Step(s, op, grow), NaiveStep(r, op))
  {
    match op
    case Subscribe(l) => SubscribeRefines(s, r, l, grow);
    case Send(ms) => SendRefines(s, r, ms, grow);
    case Count => CountRefines(s, r, grow);
    case Ask =>
    case DropOwner(_) => OwnersRefine(s, r, op, grow);
    case CloneOwner(_) => OwnersRefine(s, r, op, grow);
  }

  /** In every run of subscriptions, batches, counts, deaths and sweeps, the swept vector has
      done what the list that only grows has done: the same live subscriptions, and every
      destination holding the same messages, a log in the same order too if only one
      subscription writes it (src/notifier.rs:284-296, 332-392). */
  lemma {:induction false} EveryRunRefines(s: State, r: Naive, ops: seq<Op>, grow: nat -> nat)
    requires Refines(s, r)
    ensures Run(s, ops, grow).Some? <==> NaiveRun(r, ops).Some?
    ensures Run(s, ops, grow).Some? ==> Refines(Run(s, ops, grow).value, NaiveRun(r, ops).value)
  {
    if ops != [] {
      var front, op := ops[..|ops| - 1], ops[|ops| - 1];
      EveryRunRefines(s, r, front, grow);
      if Run(s, front, grow).Some? {
        var (s1, r1) := (Run(s, front, grow).value, NaiveRun(r, front).value);
        AllowedAlike(s1, r1, op);
        if Allowed(s1.w, op) { StepRefines(s1, r1, op, grow); }
      }
    }
  }
}
