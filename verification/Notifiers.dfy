/** `RawNotifier` (src/notifier.rs:119-128, 273-405) on values: a vector of listeners that is
    swept of dead ones only when it is full, by `swap_remove`. */
module Notifiers {
  import opened Wrappers
  import opened Listeners
  import opened ListenerLaws

  datatype Entry = Entry(listener: Listener, wasAlive: bool)

  /** `capacity` is that of the vector; `w` is everything the listeners can reach. */
  datatype State = State(w: World, entries: seq<Entry>, capacity: nat)

  /** Deliver to every entry in the order of the vector, marking those that answer `false`. */
  function NotifyMany(w: World, es: seq<Entry>, ms: seq<Msg>): (r: (World, seq<Entry>))
    ensures SameShape(w, r.0) && |r.1| == |es|
    ensures forall i :: 0 <= i < |es| ==> r.1[i].listener == es[i].listener
  {
    if es == [] then (w, [])
    else
      var last := es[|es| - 1];
      var (w1, front) := NotifyMany(w, es[..|es| - 1], ms);
      var (w2, alive) := Receive(w1, last.listener, ms);
      (w2, front + [Entry(last.listener, last.wasAlive && alive)])
  }

  predicate Keep(w: World, e: Entry) { e.wasAlive && Receive(w, e.listener, []).1 }

  function SwapRemove<T>(es: seq<T>, i: nat): seq<T>
    requires i < |es|
  {
    es[i := es[|es| - 1]][..|es| - 1]
  }

  /** `drop_dead_listeners` from index `i` on. */
  function SweepFrom(w: World, es: seq<Entry>, i: nat): seq<Entry>
    requires i <= |es|
    decreases |es| - i
  {
    if i == |es| then es
    else if Keep(w, es[i]) then SweepFrom(w, es, i + 1)
    else SweepFrom(w, SwapRemove(es, i), i)
  }

  /** `listen`: refused if dead; a full vector is swept; a vector still full grows. */
  function Listen(s: State, l: Listener, grow: nat -> nat): State {
    if !Receive(s.w, l, []).1 then s
    else
      var es := if |s.entries| >= s.capacity then SweepFrom(s.w, s.entries, 0) else s.entries;
      State(s.w, es + [Entry(l, true)], if |es| == s.capacity then grow(s.capacity) else s.capacity)
  }

  /** All that is assumed of `Vec`: it grows to make room, at most to double (and at least 4). */
  ghost predicate GrowsLikeVec(grow: nat -> nat) {
    forall c: nat :: c < grow(c) <= Max(4, 2 * c)
  }

  // ----- runs

  datatype Op =
    | Subscribe(l: Listener)
    | Send(ms: seq<Msg>)
    | Count                                  // Notifier::count, which sweeps
    | Ask                                    // RawNotifier::count, which only asks
    | DropOwner(x: Shared)                   // a destination or a gate loses an owner
    | CloneOwner(x: Shared)                  // or gains one, while it has one

  function SetOwners(w: World, x: Shared, n: nat): World
    requires x in w
  {
    w[x := w[x].(strong := n)]
  }

  ghost predicate Allowed(w: World, op: Op) {
    match op
    case Subscribe(l) => Provided(w, l)
    case Send(_) => true
    case Count => true
    case Ask => true
    case DropOwner(x) => Live(w, x)
    case CloneOwner(x) => Live(w, x)
  }

  function Step(s: State, op: Op, grow: nat -> nat): State
    requires op.DropOwner? || op.CloneOwner? ==> Live(s.w, op.x)
  {
    match op
    case Subscribe(l) => Listen(s, l, grow)
    case Send(ms) => var (w', es') := NotifyMany(s.w, s.entries, ms); State(w', es', s.capacity)
    case Count => s.(entries := SweepFrom(s.w, s.entries, 0))
    case Ask => s
    case DropOwner(x) => s.(w := SetOwners(s.w, x, s.w[x].strong - 1))
    case CloneOwner(x) => s.(w := SetOwners(s.w, x, s.w[x].strong + 1))
  }

  /** The reference: everyone who ever subscribed, for ever, in that order. */
  datatype Naive = Naive(w: World, subs: seq<Listener>)

  function SendAll(w: World, ls: seq<Listener>, ms: seq<Msg>): (w': World)
    ensures SameShape(w, w')
  {
    if ls == [] then w
    else Receive(SendAll(w, ls[..|ls| - 1], ms), ls[|ls| - 1], ms).0
  }

  function NaiveStep(r: Naive, op: Op): Naive
    requires op.DropOwner? || op.CloneOwner? ==> Live(r.w, op.x)
  {
    match op
    case Subscribe(l) => r.(subs := r.subs + [l])
    case Send(ms) => r.(w := SendAll(r.w, r.subs, ms))
    case Count => r
    case Ask => r
    case DropOwner(x) => r.(w := SetOwners(r.w, x, r.w[x].strong - 1))
    case CloneOwner(x) => r.(w := SetOwners(r.w, x, r.w[x].strong + 1))
  }

  /** The reference run after `ops`; `None` once an operation is not allowed. */
  ghost function NaiveRun(r: Naive, ops: seq<Op>): Option<Naive> {
    if ops == [] then Some(r)
    else
      match NaiveRun(r, ops[..|ops| - 1])
      case None => None
      case Some(r1) =>
        if Allowed(r1.w, ops[|ops| - 1]) then Some(NaiveStep(r1, ops[|ops| - 1])) else None
  }

  ghost function Run(s: State, ops: seq<Op>, grow: nat -> nat): Option<State> {
    if ops == [] then Some(s)
    else
      match Run(s, ops[..|ops| - 1], grow)
      case None => None
      case Some(s1) =>
        if Allowed(s1.w, ops[|ops| - 1]) then Some(Step(s1, ops[|ops| - 1], grow)) else None
  }
}
