/** What `listen` costs, although it sweeps. */
module NotifierCosts {
  import opened Wrappers
  import opened Listeners
  import opened ListenerLaws
  import opened Notifiers
  import opened NotifierRefinement
  import opened NotifierRuns

  /** Calls of `receive` made by the sweep: entries already marked dead are not asked. */
  function SweepAsks(w: World, es: seq<Entry>, i: nat): nat
    requires i <= |es|
    decreases |es| - i
  {
    if i == |es| then 0
    else
      (if es[i].wasAlive then 1 else 0)
      + if Keep(w, es[i]) then SweepAsks(w, es, i + 1) else SweepAsks(w, SwapRemove(es, i), i)
  }

  /** Every entry is asked at most once, although entries change places during the sweep. */
  lemma {:induction false} SweepAsksEachOnce(w: World, es: seq<Entry>, i: nat)
    requires i <= |es|
    ensures SweepAsks(w, es, i) <= |es| - i
    ensures (forall k :: i <= k < |es| ==> es[k].wasAlive) ==> SweepAsks(w, es, i) == |es| - i
    decreases |es| - i
  {
    if i < |es| {
      if Keep(w, es[i]) {
        SweepAsksEachOnce(w, es, i + 1);
      } else {
        SweepAsksEachOnce(w, SwapRemove(es, i), i);
      }
    }
  }

  /** Calls of `receive` made by one `listen`. */
  function ListenAsks(s: State, l: Listener): nat {
    1 + if Receive(s.w, l, []).1 && |s.entries| >= s.capacity then SweepAsks(s.w, s.entries, 0) else 0
  }

  ghost function TotalAsks(s: State, ops: seq<Op>, grow: nat -> nat): nat {
    if ops == [] then 0
    else
      TotalAsks(s, ops[..|ops| - 1], grow)
      + match Run(s, ops[..|ops| - 1], grow)
        case Some(s1) => if ops[|ops| - 1].Subscribe? then ListenAsks(s1, ops[|ops| - 1].l) else 0
        case None => 0
  }

  ghost function Subscriptions(ops: seq<Op>): nat {
    if ops == [] then 0
    else Subscriptions(ops[..|ops| - 1]) + if ops[|ops| - 1].Subscribe? then 1 else 0
  }

  ghost predicate AllAlive(w: World, es: seq<Entry>) {
    forall i :: 0 <= i < |es| ==> Alive(w, es[i].listener)
  }

  /** Nobody who is registered dies, and nobody subscribes who is dead. */
  ghost predicate NobodyDies(w: World, ops: seq<Op>, grow: nat -> nat) {
    ops != [] ==>
      && NobodyDies(w, ops[..|ops| - 1], grow)
      && Run(Fresh(w), ops, grow).Some?
      && var s := Run(Fresh(w), ops, grow).value;
      && AllAlive(s.w, s.entries)
      && (ops[|ops| - 1].Subscribe? ==> Alive(s.w, ops[|ops| - 1].l))
  }

  /** The state of a run in which nobody died: calls made by sweeps were paid for by the growth
      of the vector. */
  ghost predicate Amortised(w: World, ops: seq<Op>, grow: nat -> nat) {
    var run, n, asks := Run(Fresh(w), ops, grow), Subscriptions(ops), TotalAsks(Fresh(w), ops, grow);
    && run.Some?
    && var s := run.value;
    && Living(s.w, s.entries)
    && |s.entries| == n
    && (if n == 0 then s.capacity == 0 && asks == 0
        else n <= s.capacity && 4 <= s.capacity && asks <= n + s.capacity - 4
             && (s.capacity == 4 || s.capacity < 2 * n))
  }

  ghost predicate Living(w: World, es: seq<Entry>) {
    AllProvided(w, Names(es)) && Swept(w, es, |es|)
  }

  lemma {:induction false} NothingToSweep(w: World, es: seq<Entry>, i: nat)
    requires Living(w, es) && i <= |es|
    ensures SweepFrom(w, es, i) == es && SweepAsks(w, es, i) == |es| - i
    decreases |es| - i
  {
    if i < |es| {
      assert Provided(w, Names(es)[i]);
      KeepIsAlive(w, es[i]);
      NothingToSweep(w, es, i + 1);
    }
  }

  lemma SendKeepsLiving(w: World, es: seq<Entry>, ms: seq<Msg>)
    requires Living(w, es)
    ensures var (w', es') := NotifyMany(w, es, ms); Living(w', es')
  {
    var (w', es') := NotifyMany(w, es, ms);
    NotifyMarks(w, es, ms);
    NotifyIsSendAll(w, es, ms);
    BagByOwners(w, w', Names(es));
    forall i | 0 <= i < |es| ensures es'[i].wasAlive && Alive(w', es'[i].listener) {
      AliveByOwners(w, w', es[i].listener);
    }
  }

  lemma OneMoreLives(w: World, es: seq<Entry>, l: Listener)
    requires Living(w, es) && Provided(w, l) && Alive(w, l)
    ensures Living(w, es + [Entry(l, true)])
  {
    assert forall i :: 0 <= i < |es| ==> Names(es + [Entry(l, true)])[i] == Names(es)[i];
  }

  lemma SubscribeIsPaidFor(w: World, front: seq<Op>, l: Listener, grow: nat -> nat)
    requires Amortised(w, front, grow) && forall c: nat :: grow(c) == Max(4, 2 * c)
    requires var s := Run(Fresh(w), front, grow).value; Provided(s.w, l) && Alive(s.w, l)
    ensures Amortised(w, front + [Subscribe(l)], grow)
  {
    var s, ops := Run(Fresh(w), front, grow).value, front + [Subscribe(l)];
    assert ops[..|ops| - 1] == front;
    EmptyBatchIsAQuery(s.w, l);
    NothingToSweep(s.w, s.entries, 0);
    OneMoreLives(s.w, s.entries, l);
    assert Run(Fresh(w), ops, grow) == Some(Listen(s, l, grow));
  }

  lemma OthersAskNobody(w: World, front: seq<Op>, op: Op, grow: nat -> nat)
    requires Amortised(w, front, grow) && !op.Subscribe? && NobodyDies(w, front + [op], grow)
    ensures Amortised(w, front + [op], grow)
  {
    var s, ops := Run(Fresh(w), front, grow).value, front + [op];
    assert ops[..|ops| - 1] == front;
    match op
    case Send(ms) => SendKeepsLiving(s.w, s.entries, ms);
    case Count => NothingToSweep(s.w, s.entries, 0);
    case Ask =>
    case DropOwner(_) => ProvidedLater(s.w, Step(s, op, grow).w, Names(s.entries));
    case CloneOwner(_) => ProvidedLater(s.w, Step(s, op, grow).w, Names(s.entries));
  }

  /** As long as nobody who is registered dies, `n` calls of `listen` call `receive` at most `3n`
      times, although each full vector is swept from end to end (src/notifier.rs:332-344,
      371-392). */
  lemma {:induction false} ListenIsAmortised(w: World, ops: seq<Op>, grow: nat -> nat)
    requires NobodyDies(w, ops, grow) && forall c: nat :: grow(c) == Max(4, 2 * c)
    ensures TotalAsks(Fresh(w), ops, grow) <= 3 * Subscriptions(ops)
    ensures Amortised(w, ops, grow)
  {
    if ops != [] {
      var front, op := ops[..|ops| - 1], ops[|ops| - 1];
      ListenIsAmortised(w, front, grow);
      assert ops == front + [op];
      if op.Subscribe? { SubscribeIsPaidFor(w, front, op.l, grow); } else { OthersAskNobody(w, front, op, grow); }
    }
  }
}
