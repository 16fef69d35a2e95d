/** What `was_alive` says about an entry (src/notifier.rs:124-128). */
module Marks {
  import opened Wrappers
  import opened Listeners
  import opened ListenerLaws
  import opened Notifiers
  import opened NotifierRefinement
  import opened NotifierRuns

  // ----- when each entry subscribed

  /** The sweep, done to another list in step with the entries. */
  ghost function SweepAlong(w: World, es: seq<Entry>, births: seq<nat>, i: nat): (r: seq<nat>)
    requires i <= |es| == |births|
    ensures |r| == |SweepFrom(w, es, i)|
    decreases |es| - i
  {
    if i == |es| then births
    else if Keep(w, es[i]) then SweepAlong(w, es, births, i + 1)
    else SweepAlong(w, SwapRemove(es, i), SwapRemove(births, i), i)
  }

  /** For each entry, the number of the operation that registered it. */
  ghost function Births(w: World, ops: seq<Op>, grow: nat -> nat): (births: seq<nat>)
    requires Run(Fresh(w), ops, grow).Some?
    ensures |births| == |Run(Fresh(w), ops, grow).value.entries|
  {
    if ops == [] then []
    else
      var front := ops[..|ops| - 1];
      var (s, births) := (Run(Fresh(w), front, grow).value, Births(w, front, grow));
      match ops[|ops| - 1]
      case Subscribe(l) =>
        if !Receive(s.w, l, []).1 then births
        else
          (if |s.entries| >= s.capacity then SweepAlong(s.w, s.entries, births, 0) else births) + [|front|]
      case Count => SweepAlong(s.w, s.entries, births, 0)
      case _ => births
  }

  /** Everyone left was there, with the same birth. */
  lemma {:induction false} SweepKeepsBirths(w: World, es: seq<Entry>, births: seq<nat>, i: nat, j: nat) returns (k: nat)
    requires i <= |es| == |births| && j < |SweepFrom(w, es, i)|
    ensures k < |es| && es[k] == SweepFrom(w, es, i)[j] && births[k] == SweepAlong(w, es, births, i)[j]
    decreases |es| - i
  {
    if i == |es| {
      k := j;
    } else if Keep(w, es[i]) {
      k := SweepKeepsBirths(w, es, births, i + 1, j);
    } else {
      var k1 := SweepKeepsBirths(w, SwapRemove(es, i), SwapRemove(births, i), i, j);
      k := if k1 == i then |es| - 1 else k1;
    }
  }

  // ----- what the mark means

  /** Operation `m` asked everyone, and `l` was dead. */
  ghost predicate DeadAt(w: World, ops: seq<Op>, grow: nat -> nat, m: nat, l: Listener) {
    m < |ops| && Run(Fresh(w), ops[..m], grow).Some? && !Alive(Run(Fresh(w), ops[..m], grow).value.w, l)
  }

  ghost predicate DeadAtSend(w: World, ops: seq<Op>, grow: nat -> nat, n: nat, l: Listener) {
    exists m :: n < m < |ops| && ops[m].Send? && DeadAt(w, ops, grow, m, l)
  }

  ghost predicate DeadAtAsk(w: World, ops: seq<Op>, grow: nat -> nat, n: nat, l: Listener) {
    exists m :: n < m < |ops| && ops[m].Ask? && DeadAt(w, ops, grow, m, l)
  }

  ghost predicate MarkIsExact(w: World, ops: seq<Op>, grow: nat -> nat, e: Entry, n: nat) {
    && n < |ops| && ops[n] == Subscribe(e.listener)
    && (e.wasAlive <==> !DeadAtSend(w, ops, grow, n, e.listener))
  }

  lemma DeadAtStep(w: World, front: seq<Op>, op: Op, grow: nat -> nat, n: nat, l: Listener)
    requires n < |front| && Run(Fresh(w), front, grow).Some?
    ensures DeadAtSend(w, front + [op], grow, n, l) <==>
              DeadAtSend(w, front, grow, n, l) || (op.Send? && !Alive(Run(Fresh(w), front, grow).value.w, l))
  {
    var ops := front + [op];
    forall m: nat | m < |front| ensures ops[m] == front[m] && ops[..m] == front[..m] {}
    assert ops[..|front|] == front;
    if DeadAtSend(w, front, grow, n, l) {
      var m :| n < m < |front| && front[m].Send? && DeadAt(w, front, grow, m, l);
      assert DeadAt(w, ops, grow, m, l);
    }
    if op.Send? && !Alive(Run(Fresh(w), front, grow).value.w, l) { assert DeadAt(w, ops, grow, |front|, l); }
    if DeadAtSend(w, ops, grow, n, l) {
      var m :| n < m < |ops| && ops[m].Send? && DeadAt(w, ops, grow, m, l);
      if m < |front| { assert DeadAt(w, front, grow, m, l); }
    }
  }

  /** An entry stays exact when it is kept, and asked if the operation is a send. */
  lemma ExactStays(w: World, front: seq<Op>, op: Op, grow: nat -> nat, e: Entry, e': Entry, n: nat)
    requires Run(Fresh(w), front, grow).Some? && MarkIsExact(w, front, grow, e, n) && e'.listener == e.listener
    requires var s := Run(Fresh(w), front, grow).value;
             e'.wasAlive == (e.wasAlive && (op.Send? ==> Alive(s.w, e.listener)))
    ensures MarkIsExact(w, front + [op], grow, e', n)
  {
    DeadAtStep(w, front, op, grow, n, e.listener);
  }

  ghost predicate AllExact(w: World, ops: seq<Op>, grow: nat -> nat, es: seq<Entry>, births: seq<nat>) {
    |es| == |births| && forall i :: 0 <= i < |es| ==> MarkIsExact(w, ops, grow, es[i], births[i])
  }

  lemma SweepStaysExact(w: World, front: seq<Op>, op: Op, grow: nat -> nat, births: seq<nat>)
    requires Run(Fresh(w), front, grow).Some? && !op.Send?
    requires AllExact(w, front, grow, Run(Fresh(w), front, grow).value.entries, births)
    ensures var s := Run(Fresh(w), front, grow).value;
            AllExact(w, front + [op], grow, SweepFrom(s.w, s.entries, 0), SweepAlong(s.w, s.entries, births, 0))
  {
    var s := Run(Fresh(w), front, grow).value;
    var es', births' := SweepFrom(s.w, s.entries, 0), SweepAlong(s.w, s.entries, births, 0);
    forall j | 0 <= j < |es'| ensures MarkIsExact(w, front + [op], grow, es'[j], births'[j]) {
      var k := SweepKeepsBirths(s.w, s.entries, births, 0, j);
      ExactStays(w, front, op, grow, s.entries[k], es'[j], births[k]);
    }
  }

  lemma SameStaysExact(w: World, front: seq<Op>, op: Op, grow: nat -> nat, es: seq<Entry>, births: seq<nat>)
    requires Run(Fresh(w), front, grow).Some? && !op.Send? && AllExact(w, front, grow, es, births)
    ensures AllExact(w, front + [op], grow, es, births)
  {
    forall i | 0 <= i < |es| ensures MarkIsExact(w, front + [op], grow, es[i], births[i]) {
      ExactStays(w, front, op, grow, es[i], es[i], births[i]);
    }
  }

  lemma SendStaysExact(w: World, front: seq<Op>, ms: seq<Msg>, grow: nat -> nat, births: seq<nat>)
    requires Run(Fresh(w), front, grow).Some?
    requires var s := Run(Fresh(w), front, grow).value;
             AllProvided(s.w, Names(s.entries)) && AllExact(w, front, grow, s.entries, births)
    ensures var s := Run(Fresh(w), front, grow).value;
            AllExact(w, front + [Send(ms)], grow, NotifyMany(s.w, s.entries, ms).1, births)
  {
    var s := Run(Fresh(w), front, grow).value;
    var es' := NotifyMany(s.w, s.entries, ms).1;
    NotifyMarks(s.w, s.entries, ms);
    forall i | 0 <= i < |es'| ensures MarkIsExact(w, front + [Send(ms)], grow, es'[i], births[i]) {
      ExactStays(w, front, Send(ms), grow, s.entries[i], es'[i], births[i]);
    }
  }

  /** In every run, an entry is marked dead exactly if its listener was dead when a batch was sent
      after it subscribed. */
  lemma {:induction false} MarkedIffDeadAtASend(w: World, ops: seq<Op>, grow: nat -> nat)
    requires Run(Fresh(w), ops, grow).Some?
    ensures AllExact(w, ops, grow, Run(Fresh(w), ops, grow).value.entries, Births(w, ops, grow))
  {
    if ops != [] {
      var front, op := ops[..|ops| - 1], ops[|ops| - 1];
      var (s, births) := (Run(Fresh(w), front, grow).value, Births(w, front, grow));
      assert ops == front + [op];
      MarkedIffDeadAtASend(w, front, grow);
      match op
      case Subscribe(l) =>
        SameStaysExact(w, front, op, grow, s.entries, births);
        SweepStaysExact(w, front, op, grow, births);
      case Send(ms) =>
        EveryRunRefines(Fresh(w), NoSubscribers(w), front, grow);
        SendStaysExact(w, front, ms, grow, births);
      case Count => SweepStaysExact(w, front, op, grow, births);
      case _ => SameStaysExact(w, front, op, grow, s.entries, births);
    }
  }

  /** So the entry says whether every call that it has survived was answered with `true`, unless
      somebody has only asked (`RawNotifier::count`) while the listener was dead and no batch has
      been sent to it since; a sweep asks too, but removes whoever answers with `false`. */
  lemma MarkTellsAllIff(w: World, ops: seq<Op>, grow: nat -> nat, i: nat)
    requires Run(Fresh(w), ops, grow).Some? && i < |Run(Fresh(w), ops, grow).value.entries|
    ensures var (e, n) := (Run(Fresh(w), ops, grow).value.entries[i], Births(w, ops, grow)[i]);
            var (sent, asked) := (DeadAtSend(w, ops, grow, n, e.listener), DeadAtAsk(w, ops, grow, n, e.listener));
            (e.wasAlive <==> !sent && !asked) <==> (sent || !asked)
  {
    MarkedIffDeadAtASend(w, ops, grow);
    assert MarkIsExact(w, ops, grow, Run(Fresh(w), ops, grow).value.entries[i], Births(w, ops, grow)[i]);
  }

  /** That happens: a count is answered with `false`, and the mark still says alive
      (src/notifier.rs:399-404). */
  lemma AskLeavesTheMark(w: World, x: Shared, grow: nat -> nat)
    requires x in w && w[x].strong == 1 && !w[x].content.Calls?
    ensures var ops := [Subscribe(Weak(x)), DropOwner(x), Ask];
            && Run(Fresh(w), ops, grow).Some?
            && Run(Fresh(w), ops, grow).value.entries == [Entry(Weak(x), true)]
            && DeadAt(w, ops, grow, 2, Weak(x))
  {
    var ops := [Subscribe(Weak(x)), DropOwner(x), Ask];
    EmptyBatchIsAQuery(w, Weak(x));
    assert ops[..2] == [Subscribe(Weak(x)), DropOwner(x)] && ops[..2][..1] == [Subscribe(Weak(x))];
    assert ops[..2][..1][..0] == [];
    var s1 := Listen(Fresh(w), Weak(x), grow);
    assert Run(Fresh(w), ops[..2][..1], grow) == Some(s1);
    assert s1.entries == [Entry(Weak(x), true)];
  }
}
