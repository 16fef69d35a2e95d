/** Repeated `Flatten::get` against the notifier of an inner source. */
module Registrations {
  import opened Wrappers
  import opened Listeners
  import opened ListenerLaws
  import opened Notifiers
  import opened NotifierRefinement
  import opened NotifierRuns

  /** `Register` is what a `get` that misses its cache does to the notifier of the inner source it
      was given: it subscribes `t` behind a new gate, and only then drops the last gate. `Leave` is
      what one does that was given another inner source: the last gate here is dropped. Anything
      else may happen in between. */
  datatype Event = Register | Leave | Other(op: Op)

  ghost function Used(events: seq<Event>): nat {
    if events == [] then 0 else Used(events[..|events| - 1]) + if events[|events| - 1].Register? then 1 else 0
  }

  /** Whether the last gate used here is open. */
  ghost predicate Open(events: seq<Event>) {
    events != [] &&
    match events[|events| - 1]
    case Register => true
    case Leave => false
    case Other(_) => Open(events[..|events| - 1])
  }

  ghost function RegisterNext(gates: seq<Shared>, t: Listener, used: nat, open: bool): seq<Op>
    requires used < |gates|
  {
    [Subscribe(Gated(gates[used], t))] + CloseLast(gates, used, open)
  }

  ghost function CloseLast(gates: seq<Shared>, used: nat, open: bool): seq<Op>
    requires used <= |gates|
  {
    if open && used > 0 then [DropOwner(gates[used - 1])] else []
  }

  /** The operations on the notifier. */
  ghost function Ops(events: seq<Event>, gates: seq<Shared>, t: Listener): seq<Op>
    requires Used(events) <= |gates|
  {
    if events == [] then []
    else
      var front := events[..|events| - 1];
      match events[|events| - 1]
      case Register => Ops(front, gates, t) + RegisterNext(gates, t, Used(front), Open(front))
      case Leave => Ops(front, gates, t) + CloseLast(gates, Used(front), Open(front))
      case Other(op) => Ops(front, gates, t) + [op]
  }

  /** The other listeners. */
  ghost function Others(events: seq<Event>): seq<Listener> {
    if events == [] then []
    else
      match events[|events| - 1]
      case Register => Others(events[..|events| - 1])
      case Leave => Others(events[..|events| - 1])
      case Other(op) =>
        if op.Subscribe? then Others(events[..|events| - 1]) + [op.l] else Others(events[..|events| - 1])
  }

  ghost predicate NewGates(w: World, gates: seq<Shared>) {
    && (forall i :: 0 <= i < |gates| ==> gates[i] in w && w[gates[i]].strong == 1)
    && (forall i, j :: 0 <= i < j < |gates| ==> gates[i] != gates[j])
  }

  /** Only the flatten source owns its gates. */
  ghost predicate GatesAlone(events: seq<Event>, gates: seq<Shared>) {
    forall x :: Other(DropOwner(x)) in events || Other(CloneOwner(x)) in events ==> x !in gates
  }

  /** At most `q` other listeners are live after any of the events. */
  ghost predicate FewOthers(w: World, events: seq<Event>, gates: seq<Shared>, t: Listener, q: nat)
    requires Used(events) <= |gates|
  {
    FewNow(w, events, gates, t, q) && (events != [] ==> FewOthers(w, events[..|events| - 1], gates, t, q))
  }

  ghost predicate FewNow(w: World, events: seq<Event>, gates: seq<Shared>, t: Listener, q: nat)
    requires Used(events) <= |gates|
  {
    match NaiveRun(NoSubscribers(w), Ops(events, gates, t))
    case None => false
    case Some(r) => |Bag(r.w, Others(events))| <= q
  }

  ghost function Behind(gates: seq<Shared>, t: Listener): seq<Listener> {
    seq(|gates|, i requires 0 <= i < |gates| => Gated(gates[i], t))
  }

  lemma {:induction false} NobodyBehind(w: World, gates: seq<Shared>, t: Listener)
    requires forall i :: 0 <= i < |gates| ==> !Live(w, gates[i])
    ensures Bag(w, Behind(gates, t)) == multiset{}
  {
    if gates != [] {
      assert Behind(gates, t)[..|gates| - 1] == Behind(gates[..|gates| - 1], t);
      NobodyBehind(w, gates[..|gates| - 1], t);
    }
  }

  /** The last one only. */
  lemma OneBehind(w: World, gates: seq<Shared>, t: Listener)
    requires forall i :: 0 <= i < |gates| - 1 ==> !Live(w, gates[i])
    ensures |Bag(w, Behind(gates, t))| <= 1
  {
    if gates != [] {
      assert Behind(gates, t)[..|gates| - 1] == Behind(gates[..|gates| - 1], t);
      NobodyBehind(w, gates[..|gates| - 1], t);
    }
  }

  lemma NaiveRunOne(r: Naive, ops: seq<Op>, op: Op)
    ensures NaiveRun(r, ops + [op])
         == match NaiveRun(r, ops)
            case None => None
            case Some(r1) => if Allowed(r1.w, op) then Some(NaiveStep(r1, op)) else None
    ensures NaiveRun(r, ops + [op]).Some? ==>
              var r' := NaiveRun(r, ops + [op]).value; Peak(r, ops + [op]) == Max(Peak(r, ops), |Bag(r'.w, r'.subs)|)
  {
    assert (ops + [op])[..|ops + [op]| - 1] == ops;
  }

  /** The bag of live ones does not depend on order. */
  lemma {:induction false} BagOfMultiset(w: World, a: seq<Listener>, b: seq<Listener>)
    requires multiset(a) == multiset(b)
    ensures Bag(w, a) == Bag(w, b)
    decreases |a|
  {
    if a == [] {
      assert |multiset(b)| == 0;
    } else {
      var n := |a| - 1;
      assert a[n] in multiset(b);
      var i :| 0 <= i < |b| && b[i] == a[n];
      var b' := b[..i] + b[i + 1..];
      assert a == a[..n] + [a[n]];
      WithoutOne(b, i);
      assert multiset(a[..n]) == multiset(a) - multiset{a[n]} == multiset(b');
      BagWithout(w, b, i);
      BagOfMultiset(w, a[..n], b');
    }
  }

  lemma WithoutOne(b: seq<Listener>, i: nat)
    requires i < |b|
    ensures multiset(b[..i] + b[i + 1..]) == multiset(b) - multiset{b[i]}
  {
    assert b == b[..i] + [b[i]] + b[i + 1..];
  }

  /** The reference state with `used` registrations: its subscriptions are the others and those
      behind gates, in some order, and the gates used are closed except perhaps the last. */
  ghost predicate Registered(w: World, r: Naive, others: seq<Listener>, gates: seq<Shared>, t: Listener, used: nat,
                             open: bool)
    requires used <= |gates|
  {
    && Later(w, r.w) && NewGates(w, gates)
    && multiset(r.subs) == multiset(others) + multiset(Behind(gates[..used], t))
    && forall i :: 0 <= i < |gates| ==>
         r.w[gates[i]].strong == if i < used - 1 || (i == used - 1 && !open) then 0 else 1
  }

  lemma RegisteredBag(w: World, r: Naive, others: seq<Listener>, gates: seq<Shared>, t: Listener, used: nat,
                      open: bool)
    requires used <= |gates| && Registered(w, r, others, gates, t, used, open)
    ensures |Bag(r.w, r.subs)| <= |Bag(r.w, others)| + 1
  {
    var behind := Behind(gates[..used], t);
    BagOfMultiset(r.w, r.subs, others + behind);
    BagAppend(r.w, others, behind);
    OneBehind(r.w, gates[..used], t);
  }

  lemma OtherKeepsRegistered(w: World, r: Naive, others: seq<Listener>, gates: seq<Shared>, t: Listener, used: nat,
                             open: bool, op: Op)
    requires used <= |gates| && Registered(w, r, others, gates, t, used, open) && Allowed(r.w, op)
    requires op.DropOwner? || op.CloneOwner? ==> op.x !in gates
    ensures Registered(w, NaiveStep(r, op), if op.Subscribe? then others + [op.l] else others, gates, t, used, open)
  {
    StepIsLater(r, op);
    forall i | 0 <= i < |gates| ensures NaiveStep(r, op).w[gates[i]].strong == r.w[gates[i]].strong {
      assert gates[i] in gates && gates[i] in w;
    }
  }

  lemma BehindNext(gates: seq<Shared>, t: Listener, used: nat)
    requires used < |gates|
    ensures Behind(gates[..used + 1], t) == Behind(gates[..used], t) + [Gated(gates[used], t)]
  {}

  /** The reference states during a registration. */
  ghost function Joined(r: Naive, gates: seq<Shared>, t: Listener, used: nat): Naive
    requires used < |gates|
  {
    NaiveStep(r, Subscribe(Gated(gates[used], t)))
  }

  ghost function Reopened(r: Naive, gates: seq<Shared>, t: Listener, used: nat, open: bool): Naive
    requires used < |gates| && (open && used > 0 ==> Live(r.w, gates[used - 1]))
  {
    if open && used > 0 then NaiveStep(Joined(r, gates, t, used), DropOwner(gates[used - 1]))
    else Joined(r, gates, t, used)
  }

  lemma JoinedBehind(r: Naive, others: seq<Listener>, gates: seq<Shared>, t: Listener, used: nat)
    requires used < |gates| && multiset(r.subs) == multiset(others) + multiset(Behind(gates[..used], t))
    ensures multiset(Joined(r, gates, t, used).subs) == multiset(others) + multiset(Behind(gates[..used + 1], t))
  {
    BehindNext(gates, t, used);
  }

  lemma RegisterKeepsRegistered(w: World, r: Naive, others: seq<Listener>, gates: seq<Shared>, t: Listener, used: nat,
                      open: bool)
    requires used < |gates| && Registered(w, r, others, gates, t, used, open)
    ensures open && used > 0 ==> Live(r.w, gates[used - 1])
    ensures Registered(w, Reopened(r, gates, t, used, open), others, gates, t, used + 1, true)
  {
    var r' := Reopened(r, gates, t, used, open);
    JoinedBehind(r, others, gates, t, used);
    forall i | 0 <= i < |gates| ensures gates[i] in r'.w && r'.w[gates[i]].strong == if i < used then 0 else 1 {
      assert used > 0 && i != used - 1 ==> gates[i] != gates[used - 1];
    }
  }

  /** One or two steps more lead by `r1` to `r2`. */
  ghost predicate LeadsTo(r0: Naive, ops: seq<Op>, longer: seq<Op>, r1: Naive, r2: Naive) {
    && NaiveRun(r0, longer) == Some(r2)
    && Peak(r0, longer) <= Max(Max(Peak(r0, ops), |Bag(r1.w, r1.subs)|), |Bag(r2.w, r2.subs)|)
  }

  lemma LeadsOne(r0: Naive, ops: seq<Op>, r: Naive, a: Op)
    requires NaiveRun(r0, ops) == Some(r) && Allowed(r.w, a)
    ensures LeadsTo(r0, ops, ops + [a], NaiveStep(r, a), NaiveStep(r, a))
  {
    NaiveRunOne(r0, ops, a);
  }

  lemma LeadsTwo(r0: Naive, ops: seq<Op>, r: Naive, a: Op, b: Op)
    requires NaiveRun(r0, ops) == Some(r) && Allowed(r.w, a) && Allowed(NaiveStep(r, a).w, b)
    ensures LeadsTo(r0, ops, ops + [a, b], NaiveStep(r, a), NaiveStep(NaiveStep(r, a), b))
  {
    LeadsOne(r0, ops, r, a);
    LeadsOneMore(r0, ops, ops + [a], NaiveStep(r, a), b);
    assert ops + [a] + [b] == ops + [a, b];
  }

  lemma LeadsOneMore(r0: Naive, ops: seq<Op>, longer: seq<Op>, r1: Naive, b: Op)
    requires LeadsTo(r0, ops, longer, r1, r1) && Allowed(r1.w, b)
    ensures LeadsTo(r0, ops, longer + [b], r1, NaiveStep(r1, b))
  {
    NaiveRunOne(r0, longer, b);
  }

  lemma RegisterRuns(r0: Naive, ops: seq<Op>, r: Naive, gates: seq<Shared>, t: Listener, used: nat, open: bool)
    requires used < |gates| && NaiveRun(r0, ops) == Some(r)
    requires Provided(r.w, t) && (open && used > 0 ==> Live(r.w, gates[used - 1]))
    ensures LeadsTo(r0, ops, ops + RegisterNext(gates, t, used, open), Joined(r, gates, t, used),
                    Reopened(r, gates, t, used, open))
  {
    var op := Subscribe(Gated(gates[used], t));
    if open && used > 0 {
      var drop := DropOwner(gates[used - 1]);
      assert RegisterNext(gates, t, used, open) == [op, drop];
      assert Reopened(r, gates, t, used, open) == NaiveStep(NaiveStep(r, op), drop);
      LeadsTwo(r0, ops, r, op, drop);
    } else {
      assert RegisterNext(gates, t, used, open) == [op];
      LeadsOne(r0, ops, r, op);
    }
  }

  /** The run is possible, and never had more than `q + 2` live listeners. */
  ghost predicate Within(w: World, ops: seq<Op>, others: seq<Listener>, gates: seq<Shared>, t: Listener, used: nat,
                         open: bool, q: nat)
    requires used <= |gates|
  {
    && NaiveRun(NoSubscribers(w), ops).Some? && Peak(NoSubscribers(w), ops) <= q + 2
    && Registered(w, NaiveRun(NoSubscribers(w), ops).value, others, gates, t, used, open)
  }

  /** One more registration. */
  lemma RegisterPeak(w: World, ops: seq<Op>, others: seq<Listener>, gates: seq<Shared>, t: Listener, used: nat,
                     open: bool, q: nat)
    requires used < |gates| && Provided(w, t) && Within(w, ops, others, gates, t, used, open, q)
    requires |Bag(NaiveRun(NoSubscribers(w), ops).value.w, others)| <= q
    ensures Within(w, ops + RegisterNext(gates, t, used, open), others, gates, t, used + 1, true, q)
  {
    var r := NaiveRun(NoSubscribers(w), ops).value;
    RegisterKeepsRegistered(w, r, others, gates, t, used, open);
    ProvidedByKind(w, r.w, t);
    RegisterRuns(NoSubscribers(w), ops, r, gates, t, used, open);
    RegisterBags(w, r, others, gates, t, used, open, q);
  }

  lemma RegisterBags(w: World, r: Naive, others: seq<Listener>, gates: seq<Shared>, t: Listener, used: nat,
                     open: bool, q: nat)
    requires used < |gates| && (open && used > 0 ==> Live(r.w, gates[used - 1]))
    requires Registered(w, r, others, gates, t, used, open) && |Bag(r.w, others)| <= q
    requires Registered(w, Reopened(r, gates, t, used, open), others, gates, t, used + 1, true)
    ensures var (r1, r2) := (Joined(r, gates, t, used), Reopened(r, gates, t, used, open));
            |Bag(r1.w, r1.subs)| <= q + 2 && |Bag(r2.w, r2.subs)| <= q + 2
  {
    var l := Gated(gates[used], t);
    var r2 := Reopened(r, gates, t, used, open);
    RegisteredBag(w, r, others, gates, t, used, open);
    BagAppend(r.w, r.subs, [l]);
    BagIsSmall(r.w, [l]);
    RegisteredBag(w, r2, others, gates, t, used + 1, true);
    if open && used > 0 {
      StepIsLater(Joined(r, gates, t, used), DropOwner(gates[used - 1]));
      BagShrinks(r.w, r2.w, others);
    }
  }

  lemma {:induction false} BagShrinks(w: World, later: World, ls: seq<Listener>)
    requires Later(w, later)
    ensures |Bag(later, ls)| <= |Bag(w, ls)|
  {
    if ls != [] {
      BagShrinks(w, later, ls[..|ls| - 1]);
      NoRevival(w, later, ls[|ls| - 1]);
    }
  }

  /** One event of another kind. */
  lemma OtherPeak(w: World, ops: seq<Op>, others: seq<Listener>, gates: seq<Shared>, t: Listener, used: nat,
                  open: bool, q: nat, op: Op)
    requires used <= |gates| && NaiveRun(NoSubscribers(w), ops + [op]).Some?
    requires Within(w, ops, others, gates, t, used, open, q)
    requires op.DropOwner? || op.CloneOwner? ==> op.x !in gates
    requires var (r, others') := (NaiveRun(NoSubscribers(w), ops + [op]).value,
                                  if op.Subscribe? then others + [op.l] else others);
             |Bag(r.w, others')| <= q
    ensures Within(w, ops + [op], if op.Subscribe? then others + [op.l] else others, gates, t, used, open, q)
  {
    var r := NaiveRun(NoSubscribers(w), ops).value;
    NaiveRunOne(NoSubscribers(w), ops, op);
    OtherKeepsRegistered(w, r, others, gates, t, used, open, op);
    RegisteredBag(w, NaiveStep(r, op), if op.Subscribe? then others + [op.l] else others, gates, t, used, open);
  }

  ghost predicate InBounds(w: World, events: seq<Event>, gates: seq<Shared>, t: Listener, q: nat)
    requires Used(events) <= |gates|
  {
    Within(w, Ops(events, gates, t), Others(events), gates, t, Used(events), Open(events), q)
  }

  lemma LeavePeak(w: World, ops: seq<Op>, others: seq<Listener>, gates: seq<Shared>, t: Listener, used: nat,
                  open: bool, q: nat)
    requires used <= |gates| && Within(w, ops, others, gates, t, used, open, q)
    requires |Bag(NaiveRun(NoSubscribers(w), ops).value.w, others)| <= q
    ensures Within(w, ops + CloseLast(gates, used, open), others, gates, t, used, false, q)
  {
    if open && used > 0 {
      var r := NaiveRun(NoSubscribers(w), ops).value;
      LeaveKeepsRegistered(w, r, others, gates, t, used);
      NaiveRunOne(NoSubscribers(w), ops, DropOwner(gates[used - 1]));
      LeaveBag(w, r, others, gates, t, used);
    } else {
      assert ops + [] == ops;
    }
  }

  lemma LeaveBag(w: World, r: Naive, others: seq<Listener>, gates: seq<Shared>, t: Listener, used: nat)
    requires 0 < used <= |gates| && Live(r.w, gates[used - 1])
    requires var r' := NaiveStep(r, DropOwner(gates[used - 1]));
             Registered(w, r', others, gates, t, used, false) && Later(r.w, r'.w)
    ensures var r' := NaiveStep(r, DropOwner(gates[used - 1])); |Bag(r'.w, r'.subs)| <= |Bag(r.w, others)| + 1
  {
    var r' := NaiveStep(r, DropOwner(gates[used - 1]));
    RegisteredBag(w, r', others, gates, t, used, false);
    BagShrinks(r.w, r'.w, others);
  }

  lemma LeaveKeepsRegistered(w: World, r: Naive, others: seq<Listener>, gates: seq<Shared>, t: Listener, used: nat)
    requires 0 < used <= |gates| && Registered(w, r, others, gates, t, used, true)
    ensures Live(r.w, gates[used - 1])
    ensures Registered(w, NaiveStep(r, DropOwner(gates[used - 1])), others, gates, t, used, false)
    ensures Later(r.w, NaiveStep(r, DropOwner(gates[used - 1])).w)
  {
    var r' := NaiveStep(r, DropOwner(gates[used - 1]));
    forall i | 0 <= i < |gates| ensures gates[i] in r'.w && r'.w[gates[i]].strong == if i < used then 0 else 1 {
      assert i != used - 1 ==> gates[i] != gates[used - 1];
    }
  }

  lemma RegisterInBounds(w: World, events: seq<Event>, gates: seq<Shared>, t: Listener, q: nat)
    requires Provided(w, t) && Used(events) <= |gates| && events != [] && events[|events| - 1].Register?
    requires InBounds(w, events[..|events| - 1], gates, t, q) && FewNow(w, events[..|events| - 1], gates, t, q)
    ensures InBounds(w, events, gates, t, q)
  {
    var front := events[..|events| - 1];
    RegisterPeak(w, Ops(front, gates, t), Others(front), gates, t, Used(front), Open(front), q);
  }

  lemma LeaveInBounds(w: World, events: seq<Event>, gates: seq<Shared>, t: Listener, q: nat)
    requires Used(events) <= |gates| && events != [] && events[|events| - 1].Leave?
    requires InBounds(w, events[..|events| - 1], gates, t, q) && FewNow(w, events[..|events| - 1], gates, t, q)
    ensures InBounds(w, events, gates, t, q)
  {
    var front := events[..|events| - 1];
    LeavePeak(w, Ops(front, gates, t), Others(front), gates, t, Used(front), Open(front), q);
  }

  lemma OtherInBounds(w: World, events: seq<Event>, gates: seq<Shared>, t: Listener, q: nat)
    requires Used(events) <= |gates| && events != [] && events[|events| - 1].Other?
    requires InBounds(w, events[..|events| - 1], gates, t, q) && FewNow(w, events, gates, t, q)
    requires var op := events[|events| - 1].op; op.DropOwner? || op.CloneOwner? ==> op.x !in gates
    ensures InBounds(w, events, gates, t, q)
  {
    var front, op := events[..|events| - 1], events[|events| - 1].op;
    OtherPeak(w, Ops(front, gates, t), Others(front), gates, t, Used(front), Open(front), q, op);
  }

  lemma {:induction false} EventsInBounds(w: World, events: seq<Event>, gates: seq<Shared>, t: Listener, q: nat)
    requires NewGates(w, gates) && Provided(w, t) && Used(events) <= |gates|
    requires GatesAlone(events, gates) && FewOthers(w, events, gates, t, q)
    ensures InBounds(w, events, gates, t, q)
  {
    if events != [] {
      var event := events[|events| - 1];
      EventsInBounds(w, events[..|events| - 1], gates, t, q);
      match event
      case Register => RegisterInBounds(w, events, gates, t, q);
      case Leave => LeaveInBounds(w, events, gates, t, q);
      case Other(op) =>
        assert event in events;
        OtherInBounds(w, events, gates, t, q);
    }
  }

  lemma PeakBounds(w: World, ops: seq<Op>, q: nat, grow: nat -> nat)
    requires GrowsLikeVec(grow) && NaiveRun(NoSubscribers(w), ops).Some? && Peak(NoSubscribers(w), ops) <= q + 2
    ensures var run := Run(Fresh(w), ops, grow); run.Some? && |run.value.entries| <= 2 * q + 4
  {
    SpaceIsBounded(w, ops, grow);
  }

  /** However often a flatten source registers, leaves for another inner source and comes back, and
      whatever batches, listeners, deaths and counts come in between: a notifier that never has more
      than `q` other live listeners never holds more than `2q + 4` entries
      (src/source/flatten.rs:103-124, src/notifier.rs:332-392). */
  lemma RegistrationIsBounded(w: World, events: seq<Event>, gates: seq<Shared>, t: Listener, q: nat, grow: nat -> nat)
    requires GrowsLikeVec(grow) && NewGates(w, gates) && Provided(w, t) && Used(events) <= |gates|
    requires GatesAlone(events, gates) && FewOthers(w, events, gates, t, q)
    ensures var run := Run(Fresh(w), Ops(events, gates, t), grow);
            run.Some? && |run.value.entries| <= 2 * q + 4
  {
    EventsInBounds(w, events, gates, t, q);
    PeakBounds(w, Ops(events, gates, t), q, grow);
  }
}
