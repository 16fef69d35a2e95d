/** What the refinement says about whole runs: delivery and space. */
module NotifierRuns {
  import opened Wrappers
  import opened Listeners
  import opened ListenerLaws
  import opened Notifiers
  import opened NotifierRefinement

  ghost function Fresh(w: World): State { State(w, [], 0) }

  ghost function NoSubscribers(w: World): Naive { Naive(w, []) }

  lemma {:induction false} RunSplits(s: State, a: seq<Op>, b: seq<Op>, grow: nat -> nat)
    ensures Run(s, a + b, grow) == match Run(s, a, grow) case None => None case Some(s1) => Run(s1, b, grow)
  {
    if b == [] {
      assert a + b == a;
    } else {
      var front := b[..|b| - 1];
      assert (a + b)[..|a + b| - 1] == a + front;
      RunSplits(s, a, front, grow);
    }
  }

  // ----- the ways to a destination

  /** All the messages sent, in order. */
  ghost function Sent(ops: seq<Op>): seq<Msg> {
    if ops == [] then []
    else Sent(ops[..|ops| - 1]) + match ops[|ops| - 1] case Send(ms) => ms case _ => []
  }

  /** What reaches `x` through the filters of `l` when nothing on the way is dead. */
  ghost function Through(l: Listener, ms: seq<Msg>, x: Shared): seq<Msg> {
    match l
    case Null => []
    case Weak(d) => if d == x then ms else []
    case Gated(_, t) => Through(t, ms, x)
    case Filtered(f, _, _, t) => Through(t, FilterMap(f, ms), x)
    case Pair(a, b) => Through(a, ms, x) + Through(b, ms, x)
  }

  /** `x` and the gates on the ways to it are live; anything else in `l` may be dead. */
  ghost predicate WaysLive(w: World, l: Listener, x: Shared) {
    match l
    case Null => true
    case Weak(d) => d == x ==> Live(w, d)
    case Gated(g, t) => (Mentions(t, x) ==> Live(w, g)) && WaysLive(w, t, x)
    case Filtered(_, _, _, t) => WaysLive(w, t, x)
    case Pair(a, b) => WaysLive(w, a, x) && WaysLive(w, b, x)
  }

  lemma {:induction false} ThroughNothing(l: Listener, ms: seq<Msg>, x: Shared)
    requires !Mentions(l, x)
    ensures Through(l, ms, x) == [] && Once(l, x)
    decreases l
  {
    match l
    case Null =>
    case Weak(d) =>
    case Gated(_, t) => ThroughNothing(t, ms, x);
    case Filtered(f, _, _, t) => ThroughNothing(t, FilterMap(f, ms), x);
    case Pair(a, b) => ThroughNothing(a, ms, x); ThroughNothing(b, ms, x);
  }

  lemma {:induction false} ThroughIsReaches(w: World, l: Listener, ms: seq<Msg>, x: Shared)
    requires WaysLive(w, l, x)
    ensures Through(l, ms, x) == Reaches(w, l, ms, x)
    ensures Mentions(l, x) ==> Alive(w, l)
    decreases l
  {
    match l
    case Null =>
    case Weak(d) =>
    case Gated(g, t) =>
      ThroughIsReaches(w, t, ms, x);
      if !Mentions(t, x) { ThroughNothing(t, ms, x); }
    case Filtered(f, _, _, t) => ThroughIsReaches(w, t, FilterMap(f, ms), x);
    case Pair(a, b) => ThroughIsReaches(w, a, ms, x); ThroughIsReaches(w, b, ms, x);
  }

  lemma {:induction false} WasLive(w: World, later: World, l: Listener, x: Shared)
    requires Later(w, later) && WaysLive(later, l, x)
    ensures WaysLive(w, l, x)
  {
    match l
    case Null =>
    case Weak(d) =>
    case Gated(_, t) => WasLive(w, later, t, x);
    case Filtered(_, _, _, t) => WasLive(w, later, t, x);
    case Pair(a, b) => WasLive(w, later, a, x); WasLive(w, later, b, x);
  }

  lemma ThroughAppend(w: World, l: Listener, a: seq<Msg>, b: seq<Msg>, x: Shared)
    requires WaysLive(w, l, x) && Once(l, x)
    ensures Through(l, a + b, x) == Through(l, a, x) + Through(l, b, x)
  {
    ThroughIsReaches(w, l, a, x);
    ThroughIsReaches(w, l, b, x);
    ThroughIsReaches(w, l, a + b, x);
    ReachesAppend(w, l, a, b, x);
  }

  lemma SendToSole(r: Naive, l: Listener, ms: seq<Msg>, x: Shared)
    requires AllProvided(r.w, r.subs) && x in r.w && !r.w[x].content.Calls?
    requires Sole(r.subs, x) && l in r.subs && Mentions(l, x) && WaysLive(r.w, l, x)
    ensures SendAll(r.w, r.subs, ms)[x].content == Deposit(r.w[x].content, Through(l, ms, x))
  {
    ThroughIsReaches(r.w, l, ms, x);
    var i :| 0 <= i < |r.subs| && r.subs[i] == l;
    BagWithout(r.w, r.subs, i);
    SoleMentioner(r.w, r.subs, x);
    OutOfOne(r.w, r.subs, ms, x, l);
    SendAllDelivers(r.w, r.subs, ms, x);
  }

  // ----- delivery

  /** Those who subscribe, in order. */
  ghost function Joining(ops: seq<Op>): seq<Listener> {
    if ops == [] then []
    else
      match ops[|ops| - 1]
      case Subscribe(l) => Joining(ops[..|ops| - 1]) + [l]
      case _ => Joining(ops[..|ops| - 1])
  }

  /** One step only adds subscribers and never revives anyone. */
  lemma StepIsLater(r: Naive, op: Op)
    requires Allowed(r.w, op)
    ensures r.subs <= NaiveStep(r, op).subs && Later(r.w, NaiveStep(r, op).w)
  {
  }

  lemma {:induction false} NaiveRunGrows(r: Naive, ops: seq<Op>)
    requires NaiveRun(r, ops).Some? && AllProvided(r.w, r.subs)
    ensures var r' := NaiveRun(r, ops).value;
            AllProvided(r'.w, r'.subs) && Later(r.w, r'.w) && r'.subs == r.subs + Joining(ops)
  {
    if ops != [] {
      var front, op := ops[..|ops| - 1], ops[|ops| - 1];
      NaiveRunGrows(r, front);
      var r1 := NaiveRun(r, front).value;
      StepIsLater(r1, op);
      ProvidedLater(r1.w, NaiveRun(r, ops).value.w, r1.subs);
      if op.Subscribe? { ProvidedByKind(r1.w, r1.w, op.l); }
    }
  }

  /** In the reference run, `l` hands `x` everything sent since it subscribed. */
  lemma {:induction false} NaiveDelivers(r0: Naive, l: Listener, after: seq<Op>, x: Shared)
    requires AllProvided(r0.w, r0.subs) && x in r0.w && !r0.w[x].content.Calls? && Mentions(l, x)
    requires var run := NaiveRun(r0, [Subscribe(l)] + after);
             run.Some? && WaysLive(run.value.w, l, x) && Sole(run.value.subs, x)
    ensures var r := NaiveRun(r0, [Subscribe(l)] + after).value;
            x in r.w && r.w[x].content == Deposit(r0.w[x].content, Through(l, Sent(after), x)) && l in r.subs
    decreases |after|
  {
    var ops := [Subscribe(l)] + after;
    var n := |ops| - 1;
    var r1, r := NaiveRun(r0, ops[..n]).value, NaiveRun(r0, ops).value;
    if after == [] {
      assert ops[..n] == [] && ops[n] == Subscribe(l);
      ThroughIsReaches(r.w, l, [], x);
      ReachesNothing(r.w, l, [], x);
      DepositTwice(r0.w[x].content, [], []);
      assert r.subs[|r0.subs|] == l;
    } else {
      var earlier := after[..|after| - 1];
      assert ops[..n] == [Subscribe(l)] + earlier;
      NaiveRunGrows(r0, ops[..n]);
      StepIsLater(r1, ops[n]);
      WasLive(r1.w, r.w, l, x);
      NaiveDelivers(r0, l, earlier, x);
      if ops[n].Send? {
        ThroughAppend(r1.w, l, Sent(earlier), ops[n].ms, x);
        SendToSole(r1, l, ops[n].ms, x);
        DepositTwice(r0.w[x].content, Through(l, Sent(earlier), x), Through(l, ops[n].ms, x));
      } else {
        assert Sent(after) == Sent(earlier);
      }
    }
  }

  /** The reference started in the middle: the subscriptions that are live now. */
  ghost function FromNow(s: State): Naive { Naive(s.w, LiveNames(s.w, s.entries)) }

  ghost function LiveNames(w: World, es: seq<Entry>): seq<Listener> {
    if es == [] then []
    else
      var l := es[|es| - 1].listener;
      LiveNames(w, es[..|es| - 1]) + if Alive(w, l) then [l] else []
  }

  lemma {:induction false} LiveNamesAre(w: World, es: seq<Entry>)
    requires AllProvided(w, Names(es))
    ensures Bag(w, LiveNames(w, es)) == Bag(w, Names(es)) && AllProvided(w, LiveNames(w, es))
    ensures forall l :: l in LiveNames(w, es) ==> Alive(w, l) && l in Names(es)
  {
    if es != [] {
      var front, l := es[..|es| - 1], es[|es| - 1].listener;
      assert Names(es)[..|es| - 1] == Names(front);
      forall i | 0 <= i < |front| ensures Provided(w, Names(front)[i]) { assert Provided(w, Names(es)[i]); }
      LiveNamesAre(w, front);
      assert Names(es)[|es| - 1] == l;
      LiveOneMore(w, LiveNames(w, front), l);
      assert forall l' :: l' in Names(front) ==> l' in Names(es);
    }
  }

  lemma LiveOneMore(w: World, ls: seq<Listener>, l: Listener)
    requires AllProvided(w, ls) && Provided(w, l)
    ensures var ls' := ls + if Alive(w, l) then [l] else [];
            AllProvided(w, ls') && Bag(w, ls') == Bag(w, ls) + if Alive(w, l) then multiset{l} else multiset{}
  {
    if Alive(w, l) {
      assert (ls + [l])[..|ls|] == ls;
    } else {
      assert ls + [] == ls;
    }
  }

  lemma FromNowRefines(s: State)
    requires AllProvided(s.w, Names(s.entries)) && MarksAreTrue(s.w, s.entries)
    ensures Refines(s, FromNow(s))
  {
    LiveNamesAre(s.w, s.entries);
  }

  ghost predicate NobodyWrites(s: State, x: Shared) {
    forall i :: 0 <= i < |s.entries| && Alive(s.w, s.entries[i].listener) ==> !Mentions(s.entries[i].listener, x)
  }

  lemma {:induction false} JoiningAre(ops: seq<Op>, l: Listener)
    requires l in Joining(ops)
    ensures Subscribe(l) in ops
  {
    if ops[|ops| - 1] != Subscribe(l) { JoiningAre(ops[..|ops| - 1], l); }
  }

  lemma OnlyOneWrites(before: seq<Listener>, l: Listener, after: seq<Listener>, x: Shared)
    requires Once(l, x)
    requires forall l' :: l' in before || l' in after ==> !Mentions(l', x)
    ensures Sole(before + ([l] + after), x)
  {
    var ls := before + ([l] + after);
    forall i | 0 <= i < |ls| ensures Once(ls[i], x) && (i != |before| ==> !Mentions(ls[i], x)) {
      if i != |before| {
        assert ls[i] in before || ls[i] in after;
        ThroughNothing(ls[i], [], x);
      }
    }
  }

  lemma {:induction false} WaysByOwners(w: World, w': World, l: Listener, x: Shared)
    requires SameShape(w, w') && WaysLive(w, l, x)
    ensures WaysLive(w', l, x)
  {
    match l
    case Null =>
    case Weak(d) =>
    case Gated(_, t) => WaysByOwners(w, w', t, x);
    case Filtered(_, _, _, t) => WaysByOwners(w, w', t, x);
    case Pair(a, b) => WaysByOwners(w, w', a, x); WaysByOwners(w, w', b, x);
  }

  lemma {:induction false} JoiningSplits(l: Listener, after: seq<Op>)
    ensures Joining([Subscribe(l)] + after) == [l] + Joining(after)
  {
    var ops := [Subscribe(l)] + after;
    if after == [] {
      assert ops[..0] == [];
    } else {
      assert ops[..|ops| - 1] == [Subscribe(l)] + after[..|after| - 1];
      JoiningSplits(l, after[..|after| - 1]);
    }
  }

  /** From any state on: */
  lemma DeliveredFrom(s0: State, l: Listener, after: seq<Op>, x: Shared, grow: nat -> nat)
    requires AllProvided(s0.w, Names(s0.entries)) && MarksAreTrue(s0.w, s0.entries)
    requires x in s0.w && !s0.w[x].content.Calls? && Mentions(l, x) && Once(l, x) && NobodyWrites(s0, x)
    requires forall l' :: Subscribe(l') in after ==> !Mentions(l', x)
    requires var run := Run(s0, [Subscribe(l)] + after, grow); run.Some? && WaysLive(run.value.w, l, x)
    ensures var s := Run(s0, [Subscribe(l)] + after, grow).value;
            && x in s.w && s.w[x].content == Deposit(s0.w[x].content, Through(l, Sent(after), x))
            && l in Names(s.entries)
  {
    var r0, ops := FromNow(s0), [Subscribe(l)] + after;
    FromNowRefines(s0);
    EveryRunRefines(s0, r0, ops, grow);
    var s, r := Run(s0, ops, grow).value, NaiveRun(r0, ops).value;
    SimilarHasShape(s.w, r.w);
    WaysByOwners(s.w, r.w, l, x);
    LiveNamesAre(s0.w, s0.entries);
    OnlyOneWritesRun(r0, l, after, x);
    NaiveDelivers(r0, l, after, x);
    SubscriberIsRegistered(s, r, l, x);
  }

  lemma OnlyOneWritesRun(r0: Naive, l: Listener, after: seq<Op>, x: Shared)
    requires Once(l, x) && AllProvided(r0.w, r0.subs) && forall l' :: l' in r0.subs ==> !Mentions(l', x)
    requires forall l' :: Subscribe(l') in after ==> !Mentions(l', x)
    requires NaiveRun(r0, [Subscribe(l)] + after).Some?
    ensures Sole(NaiveRun(r0, [Subscribe(l)] + after).value.subs, x)
  {
    NaiveRunGrows(r0, [Subscribe(l)] + after);
    JoiningSplits(l, after);
    forall l' | l' in Joining(after) ensures !Mentions(l', x) { JoiningAre(after, l'); }
    OnlyOneWrites(r0.subs, l, Joining(after), x);
  }

  lemma SubscriberIsRegistered(s: State, r: Naive, l: Listener, x: Shared)
    requires SameSubscribers(s, r) && WaysLive(r.w, l, x) && Mentions(l, x) && l in r.subs
    ensures l in Names(s.entries)
  {
    ThroughIsReaches(r.w, l, [], x);
    var i :| 0 <= i < |r.subs| && r.subs[i] == l;
    BagWithout(r.w, r.subs, i);
    var j := BagMember(s.w, Names(s.entries), l);
  }

  /** Exactly once, in order: in every run of the swept vector, a destination that nobody else
      writes while `l` does holds what it held when `l` subscribed and then everything sent
      since, as the filters on the way let it through, whoever else came, died or was swept out,
      other parts of `l` included (src/notifier.rs:273-296, 331-392). */
  lemma DeliveredExactlyOnce(w: World, before: seq<Op>, l: Listener, after: seq<Op>, x: Shared, grow: nat -> nat)
    requires x in w && !w[x].content.Calls? && Mentions(l, x) && Once(l, x)
    requires var run := Run(Fresh(w), before, grow);
             && run.Some? && NobodyWrites(run.value, x)
             && var run' := Run(Fresh(w), before + ([Subscribe(l)] + after), grow);
             && run'.Some? && WaysLive(run'.value.w, l, x)
    requires forall l' :: Subscribe(l') in after ==> !Mentions(l', x)
    ensures var s0 := Run(Fresh(w), before, grow).value;
            var s := Run(Fresh(w), before + ([Subscribe(l)] + after), grow).value;
            && x in s0.w && x in s.w
            && s.w[x].content == Deposit(s0.w[x].content, Through(l, Sent(after), x))
            && Gained(s0.w[x].content, s.w[x].content, Through(l, Sent(after), x))
            && l in Names(s.entries)
  {
    var s0, r := Run(Fresh(w), before, grow).value, NaiveRun(NoSubscribers(w), before);
    EveryRunRefines(Fresh(w), NoSubscribers(w), before, grow);
    NaiveRunGrows(NoSubscribers(w), before);
    SimilarHasShape(s0.w, r.value.w);
    RunSplits(Fresh(w), before, [Subscribe(l)] + after, grow);
    DeliveredFrom(s0, l, after, x, grow);
    DepositGains(s0.w[x].content, Through(l, Sent(after), x));
  }

  // ----- a destination that any number of subscriptions write

  /** All that is handed to `x` in the course of `ops`: batch by batch, by everyone who has subscribed
      and is still alive. */
  ghost function Handed(r: Naive, ops: seq<Op>, x: Shared): seq<Msg>
    requires NaiveRun(r, ops).Some?
  {
    if ops == [] then []
    else
      var front := ops[..|ops| - 1];
      Handed(r, front, x) + HandedNow(NaiveRun(r, front).value, ops[|ops| - 1], x)
  }

  ghost function HandedNow(r: Naive, op: Op, x: Shared): seq<Msg> {
    match op
    case Send(ms) => Out(r.w, r.subs, ms, x)
    case _ => []
  }

  lemma {:induction false} NaiveHands(r: Naive, ops: seq<Op>, x: Shared)
    requires NaiveRun(r, ops).Some? && AllProvided(r.w, r.subs) && x in r.w && !r.w[x].content.Calls?
    ensures var r' := NaiveRun(r, ops).value;
            x in r'.w && Similar(r'.w[x].content, Deposit(r.w[x].content, Handed(r, ops, x)))
  {
    var c := r.w[x].content;
    DepositTwice(c, [], []);
    if ops != [] {
      var front, op := ops[..|ops| - 1], ops[|ops| - 1];
      var r1 := NaiveRun(r, front).value;
      NaiveHands(r, front, x);
      NaiveRunGrows(r, front);
      StepHands(r1, op, c, Handed(r, front, x), x);
    }
  }

  lemma StepHands(r: Naive, op: Op, c: Content, handed: seq<Msg>, x: Shared)
    requires Allowed(r.w, op) && AllProvided(r.w, r.subs) && x in r.w && !c.Calls?
    requires Similar(r.w[x].content, Deposit(c, handed))
    ensures x in NaiveStep(r, op).w
    ensures Similar(NaiveStep(r, op).w[x].content, Deposit(c, handed + HandedNow(r, op, x)))
  {
    if op.Send? { SendHands(r, c, handed, op.ms, x); } else { assert handed + [] == handed; }
  }

  lemma SendHands(r: Naive, c: Content, handed: seq<Msg>, ms: seq<Msg>, x: Shared)
    requires AllProvided(r.w, r.subs) && x in r.w && !c.Calls? && Similar(r.w[x].content, Deposit(c, handed))
    ensures x in SendAll(r.w, r.subs, ms)
    ensures Similar(SendAll(r.w, r.subs, ms)[x].content, Deposit(c, handed + Out(r.w, r.subs, ms, x)))
  {
    var out := Out(r.w, r.subs, ms, x);
    SendAllDelivers(r.w, r.subs, ms, x);
    DepositTwice(c, handed, out);
    DepositSimilar(r.w[x].content, Deposit(c, handed), out, out);
  }

  lemma RunHands(w: World, ops: seq<Op>, x: Shared, grow: nat -> nat)
    requires Run(Fresh(w), ops, grow).Some? && x in w && !w[x].content.Calls?
    ensures NaiveRun(NoSubscribers(w), ops).Some?
    ensures var s := Run(Fresh(w), ops, grow).value;
            x in s.w && Similar(s.w[x].content, Deposit(w[x].content, Handed(NoSubscribers(w), ops, x)))
  {
    EveryRunRefines(Fresh(w), NoSubscribers(w), ops, grow);
    NaiveHands(NoSubscribers(w), ops, x);
  }

  /** In every run of the swept vector, whoever subscribes and dies: a flag is up if and only if it was
      up at first or anything has been handed to it; */
  lemma FlagAfterRun(w: World, ops: seq<Op>, x: Shared, grow: nat -> nat)
    requires Run(Fresh(w), ops, grow).Some? && x in w && w[x].content.Bit?
    ensures NaiveRun(NoSubscribers(w), ops).Some?
    ensures var s := Run(Fresh(w), ops, grow).value;
            && x in s.w && s.w[x].content.Bit?
            && (s.w[x].content.raised <==> w[x].content.raised || Handed(NoSubscribers(w), ops, x) != [])
  {
    RunHands(w, ops, x, grow);
    DepositGains(w[x].content, Handed(NoSubscribers(w), ops, x));
  }

  /** a set holds what it held and what has been handed to it; */
  lemma SetAfterRun(w: World, ops: seq<Op>, x: Shared, grow: nat -> nat, m: Msg)
    requires Run(Fresh(w), ops, grow).Some? && x in w && w[x].content.Members?
    ensures NaiveRun(NoSubscribers(w), ops).Some?
    ensures var s := Run(Fresh(w), ops, grow).value;
            && x in s.w && s.w[x].content.Members?
            && (m in s.w[x].content.members <==>
                  m in w[x].content.members || m in Handed(NoSubscribers(w), ops, x))
  {
    RunHands(w, ops, x, grow);
    DepositGains(w[x].content, Handed(NoSubscribers(w), ops, x));
  }

  /** and a log holds them too, each as often. */
  lemma LogAfterRun(w: World, ops: seq<Op>, x: Shared, grow: nat -> nat)
    requires Run(Fresh(w), ops, grow).Some? && x in w && w[x].content.Items?
    ensures NaiveRun(NoSubscribers(w), ops).Some?
    ensures var s := Run(Fresh(w), ops, grow).value;
            && x in s.w && s.w[x].content.Items?
            && multiset(s.w[x].content.items)
               == multiset(w[x].content.items) + multiset(Handed(NoSubscribers(w), ops, x))
  {
    RunHands(w, ops, x, grow);
    DepositGains(w[x].content, Handed(NoSubscribers(w), ops, x));
  }

  // ----- owners

  /** How often the number of owners of `x` goes up, less how often it goes down. */
  ghost function NewOwners(ops: seq<Op>, x: Shared): int {
    if ops == [] then 0
    else
      var op := ops[|ops| - 1];
      NewOwners(ops[..|ops| - 1], x)
      + if op == CloneOwner(x) then 1 else if op == DropOwner(x) then -1 else 0
  }

  /** Nothing but cloning and dropping changes who owns what. */
  lemma {:induction false} OwnersAreCounted(s: State, ops: seq<Op>, grow: nat -> nat, x: Shared)
    requires Run(s, ops, grow).Some? && x in s.w
    ensures var s' := Run(s, ops, grow).value; x in s'.w && s'.w[x].strong == s.w[x].strong + NewOwners(ops, x)
  {
    if ops != [] { OwnersAreCounted(s, ops[..|ops| - 1], grow, x); }
  }

  // ----- space

  /** The most subscriptions that were ever live at once. */
  ghost function Peak(r: Naive, ops: seq<Op>): nat {
    var now := match NaiveRun(r, ops) case Some(r') => |Bag(r'.w, r'.subs)| case None => 0;
    if ops == [] then now else Max(Peak(r, ops[..|ops| - 1]), now)
  }

  /** The vector never has room for more than twice as many entries as were ever live at once
      (or four), because it grows only after a sweep that removed nothing
      (src/notifier.rs:332-344, 387-392). */
  lemma {:induction false} SpaceIsBounded(w: World, ops: seq<Op>, grow: nat -> nat)
    requires GrowsLikeVec(grow) && NaiveRun(NoSubscribers(w), ops).Some?
    ensures Run(Fresh(w), ops, grow).Some?
    ensures var s := Run(Fresh(w), ops, grow).value;
            |s.entries| <= s.capacity <= Max(4, 2 * Peak(NoSubscribers(w), ops))
  {
    EveryRunRefines(Fresh(w), NoSubscribers(w), ops, grow);
    if ops != [] {
      var front, op := ops[..|ops| - 1], ops[|ops| - 1];
      SpaceIsBounded(w, front, grow);
      EveryRunRefines(Fresh(w), NoSubscribers(w), front, grow);
      var s1, r1 := Run(Fresh(w), front, grow).value, NaiveRun(NoSubscribers(w), front).value;
      assert |Bag(r1.w, r1.subs)| <= Peak(NoSubscribers(w), front) by {
        assert NaiveRun(NoSubscribers(w), front) == Some(r1);
      }
      StepSpace(s1, op, grow);
    }
  }

  /** Only a vector full of live listeners grows. */
  lemma StepSpace(s: State, op: Op, grow: nat -> nat)
    requires GrowsLikeVec(grow) && Allowed(s.w, op) && |s.entries| <= s.capacity
    requires AllProvided(s.w, Names(s.entries)) && MarksAreTrue(s.w, s.entries)
    ensures var s' := Step(s, op, grow);
            && |s'.entries| <= s'.capacity
            && (s'.capacity == s.capacity || s'.capacity <= Max(4, 2 * |Bag(s.w, Names(s.entries))|))
  {
    SweepKeepsTheLiving(s.w, s.entries, 0);
    BagIsSmall(s.w, Names(s.entries));
  }

  lemma {:induction false} BagIsSmall(w: World, ls: seq<Listener>)
    ensures |Bag(w, ls)| <= |ls|
  {
    if ls != [] { BagIsSmall(w, ls[..|ls| - 1]); }
  }
}
