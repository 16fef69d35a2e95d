/** The notifier as the source runs it: a vector updated in place (src/notifier.rs), and the
    buffer and the cell that send through it (src/cell.rs). `heap` is any set of allocations
    that includes all the listeners can reach. */
module NotifierObjects {
  import opened Wrappers
  import opened Listeners
  import opened ListenerLaws
  import opened Receivers
  import opened Notifiers
  import opened NotifierRefinement
  import NotifierCosts
  import NotifierRuns
  import Pipeline

  ghost predicate Reachable(es: seq<Entry>, heap: set<Shared>) {
    forall i :: 0 <= i < |es| ==> Refs(es[i].listener) <= heap
  }

  class RawNotifier {
    var listeners: seq<Entry>
    var capacity: nat

    ghost predicate Valid(heap: set<Shared>)
      reads this, heap
    {
      && Reachable(listeners, heap)
      && AllProvided(Snap(heap), Names(listeners))
      && MarksAreTrue(Snap(heap), listeners)
      && |listeners| <= capacity
    }

    ghost function Abs(heap: set<Shared>): State
      reads this, heap
    {
      State(Snap(heap), listeners, capacity)
    }

    constructor ()
      ensures listeners == [] && capacity == 0
      ensures forall heap :: Valid(heap)
    {
      listeners, capacity := [], 0;
    }

    method NotifyMany(ms: seq<Msg>, ghost heap: set<Shared>)
      requires Valid(heap)
      modifies this`listeners, heap
      ensures Valid(heap)
      ensures (Snap(heap), listeners) == Notifiers.NotifyMany(old(Snap(heap)), old(listeners), ms)
    {
      ghost var w, es := Snap(heap), listeners;
      NotifyKeepsProvided(w, es, ms, heap);
      ghost var states := StatesBetween(w, es, ms);
      for i := 0 to |listeners|
        invariant |listeners| == |es| && (Snap(heap), listeners) == states[i]
      {
        assert Follows(states, es, i, ms);
        var entry := listeners[i];
        assert Refs(es[i].listener) <= heap;
        var alive := Receivers.Receive(entry.listener, ms, heap);
        listeners := listeners[i := Entry(entry.listener, entry.wasAlive && alive)];
      }
    }

    /** `drop_dead_listeners`: in place, by `swap_remove`. */
    method DropDeadListeners(ghost heap: set<Shared>) returns (ghost asks: nat)
      requires Valid(heap)
      modifies this`listeners, heap
      ensures Valid(heap) && Snap(heap) == old(Snap(heap))
      ensures listeners == SweepFrom(Snap(heap), old(listeners), 0)
      ensures asks == NotifierCosts.SweepAsks(Snap(heap), old(listeners), 0) <= |old(listeners)|
      ensures Bag(Snap(heap), Names(listeners)) == Bag(Snap(heap), Names(old(listeners)))
      ensures Swept(Snap(heap), listeners, |listeners|)
    {
      ghost var w, es := Snap(heap), listeners;
      var i := 0;
      asks := 0;
      while i < |listeners|
        invariant i <= |listeners| <= |es|
        invariant Snap(heap) == w
        invariant AllProvided(w, Names(listeners)) && Reachable(listeners, heap)
        invariant SweepFrom(w, listeners, i) == SweepFrom(w, es, 0)
        invariant asks + NotifierCosts.SweepAsks(w, listeners, i) == NotifierCosts.SweepAsks(w, es, 0)
        decreases |listeners| - i
      {
        var entry := listeners[i];
        assert Provided(w, Names(listeners)[i]);
        var keep := entry.wasAlive;
        if keep {
          EmptyBatchIsAQuery(w, entry.listener);
          keep := Receivers.Receive(entry.listener, [], heap);
          asks := asks + 1;
        }
        if keep {
          i := i + 1;
        } else {
          SwapRemoveProvided(w, listeners, i, heap);
          listeners := listeners[i := listeners[|listeners| - 1]][..|listeners| - 1];
        }
      }
      SweepKeepsTheLiving(w, es, 0);
      NotifierCosts.SweepAsksEachOnce(w, es, 0);
    }

    method DropDeadIfFull(ghost heap: set<Shared>) returns (ghost asks: nat)
      requires Valid(heap)
      modifies this`listeners, heap
      ensures Valid(heap) && Snap(heap) == old(Snap(heap))
      ensures listeners == if |old(listeners)| >= capacity then SweepFrom(Snap(heap), old(listeners), 0)
                           else old(listeners)
      ensures asks == if |old(listeners)| >= capacity then NotifierCosts.SweepAsks(Snap(heap), old(listeners), 0) else 0
    {
      asks := 0;
      if |listeners| >= capacity {
        asks := DropDeadListeners(heap);
      }
    }

    /** `asks` counts the calls of `receive`. */
    method Listen(l: Listener, grow: nat -> nat, ghost heap: set<Shared>) returns (ghost asks: nat)
      requires Valid(heap) && Refs(l) <= heap && Provided(Snap(heap), l) && GrowsLikeVec(grow)
      modifies this, heap
      ensures Valid(heap)
      ensures Abs(heap) == Notifiers.Listen(old(Abs(heap)), l, grow)
      ensures asks == NotifierCosts.ListenAsks(old(Abs(heap)), l)
    {
      EmptyBatchIsAQuery(Snap(heap), l);
      ListenKeepsReach(Abs(heap), l, grow, heap);
      var alive := Receivers.Receive(l, [], heap);
      asks := 1;
      if !alive {
        return;
      }
      ghost var swept := DropDeadIfFull(heap);
      asks := asks + swept;
      if |listeners| == capacity {
        capacity := grow(capacity);
      }
      listeners := listeners + [Entry(l, true)];
    }

    /** `RawNotifier::count` asks but does not sweep. */
    method Count(ghost heap: set<Shared>) returns (n: nat)
      requires Valid(heap)
      modifies heap
      ensures Snap(heap) == old(Snap(heap))
      ensures n == |Bag(Snap(heap), Names(listeners))|
    {
      ghost var w := Snap(heap);
      n := 0;
      for i := 0 to |listeners|
        invariant Snap(heap) == w
        invariant n == |Bag(w, Names(listeners)[..i])|
      {
        var entry := listeners[i];
        assert Provided(w, Names(listeners)[i]);
        KeepIsAlive(w, entry);
        assert Names(listeners)[..i + 1][..i] == Names(listeners)[..i];
        var alive := entry.wasAlive;
        if alive {
          EmptyBatchIsAQuery(w, entry.listener);
          alive := Receivers.Receive(entry.listener, [], heap);
        }
        if alive {
          n := n + 1;
        }
      }
      assert Names(listeners)[..|listeners|] == Names(listeners);
    }
  }

  /** Entry `i`, as it was at first, receives the batch and is marked. */
  ghost predicate Follows(states: seq<(World, seq<Entry>)>, es: seq<Entry>, i: nat, ms: seq<Msg>)
    requires i < |states| - 1
  {
    var (s, s') := (states[i], states[i + 1]);
    && i < |es| == |s.1| && s.1[i] == es[i] && Provided(s.0, es[i].listener)
    && var (w', alive) := Listeners.Receive(s.0, es[i].listener, ms);
    && s'.0 == w' && s'.1 == s.1[i := Entry(es[i].listener, es[i].wasAlive && alive)]
  }

  /** The states that `notify_many` goes through. */
  lemma {:induction false} StatesBetween(w: World, es: seq<Entry>, ms: seq<Msg>)
    returns (states: seq<(World, seq<Entry>)>)
    requires AllProvided(w, Names(es))
    ensures |states| == |es| + 1 && states[0] == (w, es) && states[|es|] == Notifiers.NotifyMany(w, es, ms)
    ensures forall i :: 0 <= i < |es| ==> Follows(states, es, i, ms)
  {
    if es == [] {
      states := [(w, es)];
    } else {
      var n := |es| - 1;
      var last := es[n];
      assert Names(es)[n] == last.listener;
      forall i | 0 <= i < n ensures Provided(w, Names(es[..n])[i]) { assert Provided(w, Names(es)[i]); }
      var shorter := StatesBetween(w, es[..n], ms);
      var all := seq(n + 1, i requires 0 <= i <= n => (shorter[i].0, shorter[i].1 + [last]));
      AliveByOwners(w, shorter[n].0, last.listener);
      var (w', alive) := Listeners.Receive(shorter[n].0, last.listener, ms);
      states := all + [(w', shorter[n].1 + [Entry(last.listener, last.wasAlive && alive)])];
      assert es[..n] + [last] == es;
      forall i | 0 <= i < |es| ensures Follows(states, es, i, ms) {
        if i < n { FollowsLonger(shorter, states, es, i, ms); }
      }
    }
  }

  /** An entry more at the end makes no difference. */
  lemma FollowsLonger(shorter: seq<(World, seq<Entry>)>, states: seq<(World, seq<Entry>)>, es: seq<Entry>, i: nat,
                      ms: seq<Msg>)
    requires i < |es| - 1 && |shorter| == |es| && |states| == |es| + 1 && Follows(shorter, es[..|es| - 1], i, ms)
    requires states[i] == (shorter[i].0, shorter[i].1 + [es[|es| - 1]])
    requires states[i + 1] == (shorter[i + 1].0, shorter[i + 1].1 + [es[|es| - 1]])
    ensures Follows(states, es, i, ms)
  {
    assert es[..|es| - 1][i] == es[i];
  }

  lemma NotifyKeepsProvided(w: World, es: seq<Entry>, ms: seq<Msg>, heap: set<Shared>)
    requires AllProvided(w, Names(es)) && MarksAreTrue(w, es) && Reachable(es, heap)
    ensures var (w', es') := Notifiers.NotifyMany(w, es, ms);
            AllProvided(w', Names(es')) && MarksAreTrue(w', es') && Reachable(es', heap)
  {
    NotifyIsSendAll(w, es, ms);
    BagByOwners(w, Notifiers.NotifyMany(w, es, ms).0, Names(es));
  }

  lemma ListenKeepsReach(s: State, l: Listener, grow: nat -> nat, heap: set<Shared>)
    requires AllProvided(s.w, Names(s.entries)) && MarksAreTrue(s.w, s.entries) && |s.entries| <= s.capacity
    requires Provided(s.w, l) && Reachable(s.entries, heap) && Refs(l) <= heap && GrowsLikeVec(grow)
    ensures var s' := Notifiers.Listen(s, l, grow);
            && AllProvided(s'.w, Names(s'.entries)) && MarksAreTrue(s'.w, s'.entries)
            && |s'.entries| <= s'.capacity && Reachable(s'.entries, heap)
  {
    EmptyBatchIsAQuery(s.w, l);
    ListenAddsOne(s, l, grow);
    NotifierRuns.StepSpace(s, Subscribe(l), grow);
    SweepKeepsReach(s.w, s.entries, 0, heap);
  }

  lemma {:induction false} SweepKeepsReach(w: World, es: seq<Entry>, i: nat, heap: set<Shared>)
    requires i <= |es| && Reachable(es, heap)
    ensures Reachable(SweepFrom(w, es, i), heap) && |SweepFrom(w, es, i)| <= |es|
    decreases |es| - i
  {
    if i < |es| {
      if Notifiers.Keep(w, es[i]) {
        SweepKeepsReach(w, es, i + 1, heap);
      } else {
        SweepKeepsReach(w, SwapRemove(es, i), i, heap);
      }
    }
  }

  lemma SwapRemoveProvided(w: World, es: seq<Entry>, i: nat, heap: set<Shared>)
    requires i < |es| && AllProvided(w, Names(es)) && Reachable(es, heap)
    ensures AllProvided(w, Names(SwapRemove(es, i))) && Reachable(SwapRemove(es, i), heap)
  {
    forall k | 0 <= k < |es| - 1
      ensures Provided(w, Names(SwapRemove(es, i))[k])
    {
      assert Provided(w, Names(es)[if k == i then |es| - 1 else k]);
    }
  }

  /** `Notifier`: open, with a vector of listeners, or closed for ever (src/notifier.rs:83-91,
      133-153, 225-271, 407-426). Sending through a closed notifier panics. */
  class Notifier {
    var open: bool
    const raw: RawNotifier

    ghost predicate Valid(heap: set<Shared>)
      reads this, raw, heap
    {
      raw.Valid(heap)
    }

    constructor ()
      ensures open && fresh(raw) && raw.listeners == [] && raw.capacity == 0
      ensures forall heap :: Valid(heap)
    {
      open := true;
      raw := new RawNotifier();
    }

    /** Every listener is dropped, and none will be accepted again. */
    method Close()
      modifies this`open, raw
      ensures !open && raw.listeners == [] && raw.capacity == 0
      ensures forall heap :: Valid(heap)
    {
      open := false;
      raw.listeners, raw.capacity := [], 0;
    }

    method NotifyMany(ms: seq<Msg>, ghost heap: set<Shared>) returns (r: Outcome<()>)
      requires Valid(heap)
      modifies raw`listeners, heap
      ensures Valid(heap)
      ensures r == if open then Returned(()) else Panicked
      ensures if open
              then (Snap(heap), raw.listeners) == Notifiers.NotifyMany(old(Snap(heap)), old(raw.listeners), ms)
              else Snap(heap) == old(Snap(heap)) && raw.listeners == old(raw.listeners)
    {
      if open {
        raw.NotifyMany(ms, heap);
        r := Returned(());
      } else {
        r := Panicked;
      }
    }

    method Listen(l: Listener, grow: nat -> nat, ghost heap: set<Shared>)
      requires Valid(heap) && Refs(l) <= heap && Provided(Snap(heap), l) && GrowsLikeVec(grow)
      modifies raw, heap
      ensures Valid(heap)
      ensures raw.Abs(heap) == if open then Notifiers.Listen(old(raw.Abs(heap)), l, grow) else old(raw.Abs(heap))
    {
      if open {
        ghost var asks := raw.Listen(l, grow, heap);
      }
    }

    /** `Notifier::count` sweeps and then counts what is left. */
    method Count(ghost heap: set<Shared>) returns (n: nat)
      requires Valid(heap)
      modifies raw`listeners, heap
      ensures Valid(heap) && Snap(heap) == old(Snap(heap))
      ensures open ==> n == |raw.listeners| == |Bag(Snap(heap), Names(old(raw.listeners)))|
      ensures !open ==> n == 0 && raw.listeners == old(raw.listeners)
      ensures open ==> raw.listeners == SweepFrom(Snap(heap), old(raw.listeners), 0)
    {
      if open {
        ghost var asks := raw.DropDeadListeners(heap);
        BagOfTheLiving(Snap(heap), raw.listeners);
        n := |raw.listeners|;
      } else {
        n := 0;
      }
    }
  }

  /** `Buffer<CAPACITY>`: src/notifier.rs:512-521, 534-563, 597-606. */
  class Buffer {
    var buffer: seq<Msg>
    const capacity: Positive
    const notifier: Notifier

    ghost function Abs(heap: set<Shared>): Pipeline.Pipe
      reads this, notifier.raw, heap
    {
      Pipeline.Pipe(notifier.raw.Abs(heap), buffer)
    }

    constructor (notifier: Notifier, capacity: Positive)
      ensures buffer == [] && this.notifier == notifier && this.capacity == capacity
    {
      buffer, this.notifier, this.capacity := [], notifier, capacity;
    }

    method Flush(ghost heap: set<Shared>) returns (r: Outcome<()>)
      requires notifier.Valid(heap)
      modifies this`buffer, notifier.raw`listeners, heap
      ensures notifier.Valid(heap)
      ensures if notifier.open then r == Returned(()) && Abs(heap) == Pipeline.Flush(old(Abs(heap)))
              else r == Panicked && Abs(heap) == old(Abs(heap))
    {
      r := notifier.NotifyMany(buffer, heap);
      if r.Returned? {
        buffer := [];
      }
    }

    /** The buffer is left full only by a flush that panics, and then takes nothing more. */
    method Push(m: Msg, ghost heap: set<Shared>) returns (r: Outcome<()>)
      requires notifier.Valid(heap) && |buffer| <= capacity
      modifies this`buffer, notifier.raw`listeners, heap
      ensures notifier.Valid(heap)
      ensures |old(buffer)| == capacity ==> r == Panicked && Abs(heap) == old(Abs(heap))
      ensures |old(buffer)| < capacity && notifier.open ==>
        r == Returned(()) && Abs(heap) == Pipeline.Push(old(Abs(heap)), m, capacity) && |buffer| < capacity
      ensures |old(buffer)| < capacity && !notifier.open ==>
        && r == (if |old(buffer)| + 1 == capacity then Panicked else Returned(()))
        && Abs(heap) == old(Abs(heap)).(buffer := old(buffer) + [m])
    {
      if |buffer| == capacity {
        return Panicked;
      }
      buffer := buffer + [m];
      if |buffer| == capacity {
        r := Flush(heap);
      } else {
        r := Returned(());
      }
    }

    /** What `drop` does. */
    method Drop(ghost heap: set<Shared>) returns (r: Outcome<()>)
      requires notifier.Valid(heap)
      modifies this`buffer, notifier.raw`listeners, heap
      ensures notifier.Valid(heap)
      ensures if notifier.open || buffer == []
              then r == Returned(()) && Abs(heap) == Pipeline.DropBuffer(old(Abs(heap)))
              else r == Panicked && Abs(heap) == old(Abs(heap))
    {
      r := Returned(());
      if buffer != [] {
        r := Flush(heap);
      }
    }
  }

  /** `Cell`: src/cell.rs:74-189. `unit` is the only message it sends. */
  class Cell<V(==)> {
    var value: V
    const unit: Msg
    const notifier: Notifier

    /** A cell that has not been dropped keeps its notifier open. */
    ghost predicate Valid(heap: set<Shared>)
      reads this, notifier, notifier.raw, heap
    {
      notifier.open && notifier.Valid(heap)
    }

    constructor (value: V, unit: Msg)
      ensures this.value == value && this.unit == unit && fresh(notifier) && fresh(notifier.raw)
      ensures notifier.raw.listeners == [] && forall heap :: Valid(heap)
    {
      this.value, this.unit := value, unit;
      notifier := new Notifier();
    }

    method Get() returns (v: V)
      ensures v == value
    {
      v := value;
    }

    /** The value is replaced first, and everyone is told afterwards; it cannot panic. */
    method Set(v: V, ghost heap: set<Shared>)
      requires Valid(heap)
      modifies this`value, notifier.raw`listeners, heap
      ensures Valid(heap) && value == v
      ensures (Snap(heap), notifier.raw.listeners)
           == Notifiers.NotifyMany(old(Snap(heap)), old(notifier.raw.listeners), [unit])
    {
      value := v;
      var r := notifier.NotifyMany([unit], heap);
      assert r.Returned?;
    }

    /** An equal value changes nothing and tells nobody. */
    method SetIfUnequal(v: V, ghost heap: set<Shared>)
      requires Valid(heap)
      modifies this`value, notifier.raw`listeners, heap
      ensures Valid(heap) && value == v
      ensures (Snap(heap), notifier.raw.listeners)
           == if old(value) == v then (old(Snap(heap)), old(notifier.raw.listeners))
              else Notifiers.NotifyMany(old(Snap(heap)), old(notifier.raw.listeners), [unit])
    {
      if value == v {
        return;
      }
      value := v;
      var r := notifier.NotifyMany([unit], heap);
      assert r.Returned?;
    }

    /** What `drop` does: the sources that remain keep the value and lose their listeners. */
    method Drop()
      modifies notifier`open, notifier.raw
      ensures value == old(value) && !notifier.open && notifier.raw.listeners == []
    {
      notifier.Close();
    }
  }
}
