/** `receive` as the source runs it: in place, on the allocations themselves, with the loops of
    src/filter.rs:71-106. Every method is proved equal to the function of module Listeners. */
module Receivers {
  import opened Wrappers
  import opened Listeners
  import opened ListenerLaws

  /** The allocations of `heap` as a value. */
  ghost function Snap(heap: set<Shared>): World
    reads heap
  {
    map x | x in heap :: Alloc(x.strong, x.content)
  }

  ghost function Refs(l: Listener): set<Shared> {
    match l
    case Null => {}
    case Weak(d) => {d}
    case Gated(g, t) => {g} + Refs(t)
    case Filtered(_, _, _, t) => Refs(t)
    case Pair(a, b) => Refs(a) + Refs(b)
  }

  // ----- destinations

  /** `Flag`: src/simple_listeners.rs:215-297. */
  class Flag {
    const shared: Shared

    constructor (value: bool)
      ensures fresh(shared) && shared.strong == 1 && shared.content == Bit(value)
    {
      shared := new Shared(Bit(value));
    }

    /** Returns the flag and clears it in one step. */
    method GetAndClear() returns (was: bool)
      requires shared.content.Bit?
      modifies shared`content
      ensures was == old(shared.content.raised) && shared.content == Bit(false)
    {
      was := shared.content.raised;
      shared.content := Bit(false);
    }

    method Set()
      requires shared.content.Bit?
      modifies shared`content
      ensures shared.content == Bit(true)
    {
      shared.content := Bit(true);
    }
  }

  /** `StoreLock<Vec<M>>` and `Log`: src/store_lock.rs:69-145, src/simple_listeners.rs:54-91. */
  class StoreLock {
    const shared: Shared

    constructor (initial: seq<Msg>)
      ensures fresh(shared) && shared.strong == 1 && shared.content == Items(initial)
    {
      shared := new Shared(Items(initial));
    }

    /** `take`, and `Log::drain`: everything so far is handed over, and nothing is kept. */
    method Take() returns (items: seq<Msg>)
      requires shared.content.Items?
      modifies shared`content
      ensures items == old(shared.content.items) && shared.content == Items([])
    {
      var replacement := [];
      items := shared.content.items;
      shared.content := Items(replacement);
    }
  }

  /** Letting go of an owner: `Flag`, `StoreLock`, `Log` and `Gate` all do this when dropped. */
  method DropOwner(x: Shared)
    requires x.strong > 0
    modifies x`strong
    ensures x.strong == old(x.strong) - 1
  {
    x.strong := x.strong - 1;
  }

  /** The body of a store behind a lock: `Store::receive` for `Vec` and `BTreeSet`
      (src/store.rs:128-138), `AtomicBool::store` for a flag. */
  method Extend(x: Shared, ms: seq<Msg>)
    requires !x.content.Calls?
    modifies x`content
    ensures x.content == Deposit(old(x.content), ms) && Gained(old(x.content), x.content, ms)
  {
    match x.content {
      case Unit =>
      case Bit(b) =>
        if ms != [] {
          x.content := Bit(true);
        }
      case Items(items) =>
        x.content := Items(items + ms);
      case Members(members) =>
        x.content := Members(members + set m | m in ms);
    }
  }

  // ----- receive

  method Receive(l: Listener, ms: seq<Msg>, ghost heap: set<Shared>) returns (alive: bool)
    requires Refs(l) <= heap && Provided(Snap(heap), l)
    modifies heap
    ensures (Snap(heap), alive) == Listeners.Receive(old(Snap(heap)), l, ms)
    decreases l, 0
  {
    match l {
      case Null =>
        alive := false;
      case Weak(d) =>
        if d.strong == 0 {
          alive := false;
        } else {
          if ms != [] {
            Extend(d, ms);
          } else {
            DepositTwice(d.content, [], []);
          }
          ghost var w := old(Snap(heap));
          assert Snap(heap) == w[d := w[d].(content := Deposit(w[d].content, ms))];
          alive := true;
        }
      case Gated(g, t) =>
        if g.strong > 0 {
          alive := Receive(t, ms, heap);
        } else {
          alive := false;
        }
      case Filtered(f, batch, zst, t) =>
        if zst {
          alive := ReceiveUnsized(f, batch, t, ms, heap);
        } else {
          alive := ReceiveBuffered(f, batch, t, ms, heap);
        }
      case Pair(a, b) =>
        var alive1 := Receive(a, ms, heap);
        AliveByOwners(old(Snap(heap)), Snap(heap), b);
        var alive2 := Receive(b, ms, heap);
        alive := alive1 || alive2;
    }
  }

  /** `Filter::receive` for messages without size: an unbounded buffer, sent once. */
  method ReceiveUnsized(f: Msg -> Option<Msg>, ghost batch: Positive, target: Listener, ms: seq<Msg>,
                        ghost heap: set<Shared>)
    returns (alive: bool)
    requires Refs(target) <= heap && Provided(Snap(heap), target)
    modifies heap
    ensures (Snap(heap), alive) == Listeners.Receive(old(Snap(heap)), Filtered(f, batch, true, target), ms)
    decreases target, 1
  {
    var filtered := Keep(f, ms);
    ghost var w := Snap(heap);
    alive := Receive(target, filtered, heap);
    assert Listeners.Receive(w, Filtered(f, batch, true, target), ms) == ReceiveAll(w, target, [filtered]);
  }

  method Keep(f: Msg -> Option<Msg>, ms: seq<Msg>) returns (filtered: seq<Msg>)
    ensures filtered == FilterMap(f, ms)
  {
    filtered := [];
    assert ms[0..] == ms;
    for i := 0 to |ms|
      invariant filtered + FilterMap(f, ms[i..]) == FilterMap(f, ms)
    {
      KeepStep(f, ms, i, filtered);
      var kept := f(ms[i]);
      if kept.Some? {
        filtered := filtered + [kept.value];
      }
    }
  }

  lemma KeepStep(f: Msg -> Option<Msg>, ms: seq<Msg>, i: nat, filtered: seq<Msg>)
    requires i < |ms|
    ensures filtered + FilterMap(f, ms[i..])
         == (match f(ms[i]) case Some(m) => filtered + [m] case None => filtered) + FilterMap(f, ms[i + 1..])
  {
    var rest := FilterMap(f, ms[i + 1..]);
    match f(ms[i])
    case Some(m) => assert filtered + ([m] + rest) == filtered + [m] + rest;
    case None => assert [] + rest == rest;
  }

  lemma RestStep(f: Msg -> Option<Msg>, ms: seq<Msg>, i: nat)
    requires i < |ms|
    ensures var rest := FilterMap(f, ms[i + 1..]);
            FilterMap(f, ms[i..]) == match f(ms[i]) case Some(m) => [m] + rest case None => rest
  {
    assert [] + FilterMap(f, ms[i + 1..]) == FilterMap(f, ms[i + 1..]);
  }

  /** What is still to come of a call: `buffer` is waiting, `rest` has not been looked at. */
  ghost function Pending(w: World, l: Listener, buffer: seq<Msg>, rest: seq<Msg>, batch: Positive): (World, bool) {
    ReceiveAll(w, l, Chunk(buffer + rest, batch))
  }

  lemma PendingFull(w: World, l: Listener, buffer: seq<Msg>, rest: seq<Msg>, batch: Positive)
    requires |buffer| == batch && rest != []
    ensures var (w1, alive) := Listeners.Receive(w, l, buffer);
            Pending(w, l, buffer, rest, batch) == if alive then Pending(w1, l, [], rest, batch) else (w1, false)
  {
    assert (buffer + rest)[..batch] == buffer && (buffer + rest)[batch..] == rest == [] + rest;
    var cs := Chunk(buffer + rest, batch);
    assert cs[0] == buffer && cs[1..] == Chunk(rest, batch);
  }

  lemma PendingPush(w: World, l: Listener, buffer: seq<Msg>, m: Msg, rest: seq<Msg>, batch: Positive)
    ensures Pending(w, l, buffer, [m] + rest, batch) == Pending(w, l, buffer + [m], rest, batch)
    ensures [] + rest == rest
  {
    assert buffer + ([m] + rest) == buffer + [m] + rest;
  }

  /** Another message: a full buffer is sent first. */
  lemma PendingNext(w: World, l: Listener, buffer: seq<Msg>, m: Msg, rest: seq<Msg>, batch: Positive)
    requires |buffer| <= batch && Provided(w, l)
    ensures |buffer| < batch ==> Pending(w, l, buffer, [m] + rest, batch) == Pending(w, l, buffer + [m], rest, batch)
    ensures |buffer| == batch ==>
              var (w1, alive) := Listeners.Receive(w, l, buffer);
              && Provided(w1, l)
              && Pending(w, l, buffer, [m] + rest, batch)
                 == if alive then Pending(w1, l, [] + [m], rest, batch) else (w1, false)
  {
    PendingPush(w, l, buffer, m, rest, batch);
    if |buffer| == batch {
      var w1 := Listeners.Receive(w, l, buffer).0;
      PendingFull(w, l, buffer, [m] + rest, batch);
      AliveByOwners(w, w1, l);
      PendingPush(w1, l, [], m, rest, batch);
    }
  }

  lemma PendingEnd(w: World, l: Listener, buffer: seq<Msg>, batch: Positive)
    requires |buffer| <= batch
    ensures Pending(w, l, buffer, [], batch) == Listeners.Receive(w, l, buffer)
  {
    assert buffer + [] == buffer;
  }

  /** A kept message: if it finds the buffer full, the buffer is sent first. */
  method Accept(m: Msg, buffer: seq<Msg>, batch: Positive, target: Listener, ghost rest: seq<Msg>,
                ghost heap: set<Shared>)
    returns (alive: bool, buffer': seq<Msg>)
    requires |buffer| <= batch && Refs(target) <= heap && Provided(Snap(heap), target)
    modifies heap
    ensures |buffer'| <= batch && Provided(Snap(heap), target)
    ensures old(Pending(Snap(heap), target, buffer, [m] + rest, batch))
         == if alive then Pending(Snap(heap), target, buffer', rest, batch) else (Snap(heap), false)
    decreases target, 1
  {
    PendingNext(Snap(heap), target, buffer, m, rest, batch);
    buffer' := buffer;
    if |buffer| == batch {
      alive := Receive(target, buffer, heap);
      if !alive {
        return;
      }
      buffer' := [];
    }
    alive, buffer' := true, buffer' + [m];
  }

  /** `Filter::receive` otherwise: a buffer of BATCH messages, sent when another message finds
      it full, and at the end whatever it holds. */
  method ReceiveBuffered(f: Msg -> Option<Msg>, batch: Positive, target: Listener, ms: seq<Msg>,
                         ghost heap: set<Shared>)
    returns (alive: bool)
    requires Refs(target) <= heap && Provided(Snap(heap), target)
    modifies heap
    ensures (Snap(heap), alive) == Listeners.Receive(old(Snap(heap)), Filtered(f, batch, false, target), ms)
    decreases target, 2
  {
    var buffer: seq<Msg> := [];
    ghost var answer := Pending(Snap(heap), target, [], FilterMap(f, ms), batch);
    assert ms[0..] == ms && [] + FilterMap(f, ms) == FilterMap(f, ms);
    for i := 0 to |ms|
      invariant |buffer| <= batch && Provided(Snap(heap), target)
      invariant answer == Pending(Snap(heap), target, buffer, FilterMap(f, ms[i..]), batch)
    {
      RestStep(f, ms, i);
      var kept := f(ms[i]);
      if kept.Some? {
        alive, buffer := Accept(kept.value, buffer, batch, target, FilterMap(f, ms[i + 1..]), heap);
        if !alive {
          return;
        }
      }
    }
    PendingEnd(Snap(heap), target, buffer, batch);
    alive := Receive(target, buffer, heap);
  }
}
