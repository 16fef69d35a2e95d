/** Listener trees (src/listener.rs, src/simple_listeners.rs, src/gate.rs, src/filter.rs,
    src/store.rs, src/store_lock.rs): what one call of `receive` does to everything the
    tree can reach, as a function on values. */
module Listeners {
  import opened Wrappers

  type Msg(==, !new)

  /** What an `Arc` allocation holds. */
  datatype Content =
    | Unit                                   // a gate's Arc<()>
    | Bit(raised: bool)                      // Flag
    | Items(items: seq<Msg>)                 // StoreLock<Vec<M>>, Log
    | Members(members: set<Msg>)             // StoreLock<BTreeSet<M>>
    | Calls(calls: seq<seq<Msg>>, answers: nat -> bool)  // a listener of the user's own:
                                             // it saw these batches, and answers(i) is its
                                             // answer to call number i

  /** An `Arc` allocation: weak references can be upgraded while it has a strong owner. */
  class Shared {
    var strong: nat
    var content: Content

    constructor (content: Content)
      ensures strong == 1 && this.content == content
    {
      this.strong, this.content := 1, content;
    }
  }

  datatype Alloc = Alloc(strong: nat, content: Content)

  type World = map<Shared, Alloc>

  datatype Listener =
    | Null
    | Weak(dest: Shared)                     // FlagListener, StoreLockListener, Weak<StoreRef>
    | Gated(gate: Shared, target: Listener)
    | Filtered(f: Msg -> Option<Msg>, batch: Positive, zst: bool, target: Listener)
    | Pair(first: Listener, second: Listener)

  predicate Live(w: World, x: Shared) { x in w && w[x].strong > 0 }

  function Deposit(c: Content, ms: seq<Msg>): Content {
    match c
    case Unit => Unit
    case Bit(b) => Bit(b || ms != [])
    case Items(items) => Items(items + ms)
    case Members(members) => Members(members + set m | m in ms)
    case Calls(calls, answers) => Calls(calls + [ms], answers)
  }

  function Answer(c: Content): bool {
    c.Calls? ==> c.answers(|c.calls|)
  }

  function FilterMap(f: Msg -> Option<Msg>, ms: seq<Msg>): seq<Msg> {
    if ms == [] then []
    else (match f(ms[0]) case Some(m) => [m] case None => []) + FilterMap(f, ms[1..])
  }

  /** Full batches first; the last batch may be short, and is empty only if all are. */
  function Chunk(ms: seq<Msg>, batch: Positive): (cs: seq<seq<Msg>>)
    ensures cs != []
  {
    if |ms| <= batch then [ms] else [ms[..batch]] + Chunk(ms[batch..], batch)
  }

  /** `w'` has the allocations of `w` with the same owners and the same kinds of content. */
  ghost predicate SameShape(w: World, w': World) {
    && w'.Keys == w.Keys
    && forall x :: x in w ==> w'[x].strong == w[x].strong && SameKind(w[x].content, w'[x].content)
  }

  ghost predicate SameKind(c: Content, c': Content) {
    && (c.Unit? <==> c'.Unit?) && (c.Bit? <==> c'.Bit?) && (c.Items? <==> c'.Items?)
    && (c.Members? <==> c'.Members?) && (c.Calls? <==> c'.Calls?)
  }

  /** `Listener::receive`: the world afterwards, and whether the listener is still interested. */
  function Receive(w: World, l: Listener, ms: seq<Msg>): (r: (World, bool))
    ensures SameShape(w, r.0)
    decreases l, 0
  {
    match l
    case Null => (w, false)
    case Weak(d) =>
      if Live(w, d)
      then (w[d := w[d].(content := Deposit(w[d].content, ms))], Answer(w[d].content))
      else (w, false)
    case Gated(g, t) =>
      if Live(w, g) then Receive(w, t, ms) else (w, false)
    case Filtered(f, batch, zst, t) =>
      ReceiveAll(w, t, if zst then [FilterMap(f, ms)] else Chunk(FilterMap(f, ms), batch))
    case Pair(a, b) =>
      var (w1, alive1) := Receive(w, a, ms);
      var (w2, alive2) := Receive(w1, b, ms);
      (w2, alive1 || alive2)
  }

  /** Hand over the batches in order, giving up after the first one answered with `false`. */
  function ReceiveAll(w: World, l: Listener, batches: seq<seq<Msg>>): (r: (World, bool))
    requires batches != []
    ensures SameShape(w, r.0)
    decreases l, |batches|
  {
    var (w1, alive) := Receive(w, l, batches[0]);
    if !alive || |batches| == 1 then (w1, alive) else ReceiveAll(w1, l, batches[1..])
  }
}
