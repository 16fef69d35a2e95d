/** Notifiers that forward to notifiers (src/notifier.rs:173-228, 284-296, 618-653). */
module Forwarding {
  import opened Wrappers

  type Msg(==, !new)

  /** `Gone`: the last `Arc` was dropped, so that forwarders find nothing to upgrade to. */
  datatype Life = Open | Closed | Gone

  class Inbox {
    var received: seq<Msg>
  }

  datatype Target = Leaf(inbox: Inbox) | Forward(to: Hub)

  /** A notifier, of which only the listeners are of interest here. */
  class Hub {
    var life: Life
    var targets: seq<Target>
  }

  datatype Node = Node(life: Life, targets: seq<Target>)

  type Graph = map<Hub, Node>
  type Inboxes = map<Inbox, seq<Msg>>

  /** Forwarding goes down in `rank`, and stays within the graph. */
  ghost predicate Acyclic(g: Graph, rank: map<Hub, nat>) {
    && rank.Keys == g.Keys
    && forall n, i :: n in g && 0 <= i < |g[n].targets| && g[n].targets[i].Forward? ==>
      g[n].targets[i].to in g && rank[g[n].targets[i].to] < rank[n]
  }

  ghost predicate Housed(g: Graph, w: Inboxes) {
    forall n, i :: n in g && 0 <= i < |g[n].targets| && g[n].targets[i].Leaf? ==> g[n].targets[i].inbox in w
  }

  /** Deliver to the targets of `n` from number `k` on. `Panicked` if a closed notifier is
      reached: even an empty batch may not be sent through it. */
  ghost function Deliver(g: Graph, w: Inboxes, rank: map<Hub, nat>, n: Hub, k: nat, ms: seq<Msg>): (r: Outcome<Inboxes>)
    requires Acyclic(g, rank) && Housed(g, w) && n in g && k <= |g[n].targets|
    ensures r.Returned? ==> r.value.Keys == w.Keys
    decreases rank[n], |g[n].targets| - k
  {
    if k == |g[n].targets| then Returned(w)
    else
      match g[n].targets[k]
      case Leaf(x) => Deliver(g, w[x := w[x] + ms], rank, n, k + 1, ms)
      case Forward(m) =>
        match NotifyMany(g, w, rank, m, ms)
        case Panicked => Panicked
        case Returned(w1) => Deliver(g, w1, rank, n, k + 1, ms)
  }

  /** `NotifierForwarder::receive` on a forwarder to `m`. */
  ghost function NotifyMany(g: Graph, w: Inboxes, rank: map<Hub, nat>, m: Hub, ms: seq<Msg>): (r: Outcome<Inboxes>)
    requires Acyclic(g, rank) && Housed(g, w) && m in g
    ensures r.Returned? ==> r.value.Keys == w.Keys
    decreases rank[m], |g[m].targets| + 1
  {
    match g[m].life
    case Gone => Returned(w)
    case Closed => Panicked
    case Open => Deliver(g, w, rank, m, 0, ms)
  }

  // ----- in place

  ghost function Nodes(hubs: set<Hub>): Graph
    reads hubs
  {
    map n | n in hubs :: Node(n.life, n.targets)
  }

  ghost function Contents(inboxes: set<Inbox>): Inboxes
    reads inboxes
  {
    map x | x in inboxes :: x.received
  }

  /** `NotifierForwarder::receive`: answers `false` if the notifier is gone. It terminates
      because forwarding has no cycles. */
  method Receive(m: Hub, ms: seq<Msg>, ghost hubs: set<Hub>, ghost inboxes: set<Inbox>, ghost rank: map<Hub, nat>)
    returns (r: Outcome<bool>)
    requires m in hubs && Acyclic(Nodes(hubs), rank) && Housed(Nodes(hubs), Contents(inboxes))
    modifies inboxes
    ensures var sent := NotifyMany(old(Nodes(hubs)), old(Contents(inboxes)), rank, m, ms);
            && (r == if sent.Panicked? then Panicked else Returned(m.life != Gone))
            && (sent.Returned? ==> Contents(inboxes) == sent.value)
    decreases rank[m], |m.targets| + 1
  {
    ghost var (g, w) := (Nodes(hubs), Contents(inboxes));
    match m.life {
      case Gone => return Returned(false);
      case Closed => return Panicked;
      case Open =>
    }
    for k := 0 to |m.targets|
      invariant Housed(g, Contents(inboxes))
      invariant Deliver(g, w, rank, m, 0, ms) == Deliver(g, Contents(inboxes), rank, m, k, ms)
    {
      ghost var before := Contents(inboxes);
      match m.targets[k] {
        case Leaf(x) =>
          x.received := x.received + ms;
          assert Contents(inboxes) == before[x := before[x] + ms];
        case Forward(to) =>
          var sent := Receive(to, ms, hubs, inboxes, rank);
          if sent.Panicked? {
            return Panicked;
          }
      }
    }
    r := Returned(true);
  }

  // ----- what arrives

  /** A way from `n` to the inbox `x`: which target to take at each notifier, all of them open. */
  ghost predicate IsPath(g: Graph, n: Hub, path: seq<nat>, x: Inbox) {
    && path != [] && n in g && g[n].life == Open && path[0] < |g[n].targets|
    && match g[n].targets[path[0]]
       case Leaf(y) => y == x && |path| == 1
       case Forward(m) => IsPath(g, m, path[1..], x)
  }

  /** A notifier that forwarding from `n` reaches through open notifiers only. */
  ghost predicate Reaches(g: Graph, n: Hub, path: seq<nat>, m: Hub) {
    if path == [] then n == m
    else
      && n in g && g[n].life == Open && path[0] < |g[n].targets|
      && g[n].targets[path[0]].Forward?
      && Reaches(g, g[n].targets[path[0]].to, path[1..], m)
  }

  ghost function Prepend(k: nat, paths: set<seq<nat>>): set<seq<nat>> {
    set p | p in paths :: [k] + p
  }

  lemma {:induction false} PrependSize(k: nat, paths: set<seq<nat>>)
    ensures |Prepend(k, paths)| == |paths|
    decreases |paths|
  {
    if paths != {} {
      var p :| p in paths;
      PrependSize(k, paths - {p});
      assert Prepend(k, paths) == Prepend(k, paths - {p}) + {[k] + p};
      assert [k] + p !in Prepend(k, paths - {p}) by {
        forall q | q in paths - {p} ensures [k] + q != [k] + p {
          assert ([k] + q)[1..] == q && ([k] + p)[1..] == p;
        }
      }
    }
  }

  /** All the paths from `n` to `x` that start with target `k` or a later one. */
  ghost function Paths(g: Graph, rank: map<Hub, nat>, n: Hub, k: nat, x: Inbox): set<seq<nat>>
    requires Acyclic(g, rank) && n in g && k <= |g[n].targets|
    decreases rank[n], |g[n].targets| - k
  {
    if g[n].life != Open || k == |g[n].targets| then {}
    else
      Paths(g, rank, n, k + 1, x)
      + match g[n].targets[k]
        case Leaf(y) => if y == x then {[k]} else {}
        case Forward(m) => Prepend(k, Paths(g, rank, m, 0, x))
  }

  lemma {:induction false} PathsAreAllThePaths(g: Graph, rank: map<Hub, nat>, n: Hub, k: nat, x: Inbox, path: seq<nat>)
    requires Acyclic(g, rank) && n in g && k <= |g[n].targets|
    ensures path in Paths(g, rank, n, k, x) <==> IsPath(g, n, path, x) && path[0] >= k
    decreases rank[n], |g[n].targets| - k
  {
    if g[n].life == Open && k < |g[n].targets| {
      PathsAreAllThePaths(g, rank, n, k + 1, x, path);
      match g[n].targets[k]
      case Leaf(y) =>
        if path != [] && path[0] == k { assert path == [k] <==> |path| == 1; }
      case Forward(m) =>
        var tails := Paths(g, rank, m, 0, x);
        if path != [] && path[0] == k {
          PathsAreAllThePaths(g, rank, m, 0, x, path[1..]);
          assert path == [k] + path[1..];
          assert path in Prepend(k, tails) <==> path[1..] in tails;
        }
    }
  }

  ghost function Repeat(ms: seq<Msg>, n: nat): seq<Msg> {
    if n == 0 then [] else ms + Repeat(ms, n - 1)
  }

  lemma {:induction false} RepeatAppend(ms: seq<Msg>, a: nat, b: nat)
    ensures Repeat(ms, a) + Repeat(ms, b) == Repeat(ms, a + b)
  {
    if a == 0 {
      assert [] + Repeat(ms, b) == Repeat(ms, b);
    } else {
      RepeatAppend(ms, a - 1, b);
      assert ms + Repeat(ms, a - 1) + Repeat(ms, b) == ms + (Repeat(ms, a - 1) + Repeat(ms, b));
    }
  }

  /** The ways through target `k` and the ways through a later target are different ways. */
  lemma PathsSplit(g: Graph, rank: map<Hub, nat>, n: Hub, k: nat, x: Inbox)
    requires Acyclic(g, rank) && n in g && k < |g[n].targets| && g[n].life == Open
    ensures |Paths(g, rank, n, k, x)|
         == |Paths(g, rank, n, k + 1, x)|
            + match g[n].targets[k]
              case Leaf(y) => if y == x then 1 else 0
              case Forward(m) => |Paths(g, rank, m, 0, x)|
  {
    var later := Paths(g, rank, n, k + 1, x);
    forall p | p in later ensures p != [] && p[0] > k { PathsAreAllThePaths(g, rank, n, k + 1, x, p); }
    match g[n].targets[k]
    case Leaf(y) =>
      assert [k] !in later;
    case Forward(m) =>
      var here := Prepend(k, Paths(g, rank, m, 0, x));
      PrependSize(k, Paths(g, rank, m, 0, x));
      assert later !! here;
  }

  /** How many paths there are. */
  ghost function Count(g: Graph, rank: map<Hub, nat>, n: Hub, k: nat, x: Inbox): nat
    requires Acyclic(g, rank) && n in g && k <= |g[n].targets|
    decreases rank[n], |g[n].targets| - k
  {
    if g[n].life != Open || k == |g[n].targets| then 0
    else
      match g[n].targets[k]
      case Leaf(y) => (if y == x then 1 else 0) + Count(g, rank, n, k + 1, x)
      case Forward(m) => Count(g, rank, m, 0, x) + Count(g, rank, n, k + 1, x)
  }

  lemma {:induction false} CountIsPaths(g: Graph, rank: map<Hub, nat>, n: Hub, k: nat, x: Inbox)
    requires Acyclic(g, rank) && n in g && k <= |g[n].targets|
    ensures Count(g, rank, n, k, x) == |Paths(g, rank, n, k, x)|
    decreases rank[n], |g[n].targets| - k
  {
    if g[n].life == Open && k < |g[n].targets| {
      PathsSplit(g, rank, n, k, x);
      CountIsPaths(g, rank, n, k + 1, x);
      match g[n].targets[k]
      case Leaf(_) =>
      case Forward(m) => CountIsPaths(g, rank, m, 0, x);
    }
  }

  lemma {:induction false} DeliverCounts(g: Graph, w: Inboxes, rank: map<Hub, nat>, n: Hub, k: nat, ms: seq<Msg>,
                                       x: Inbox)
    requires Acyclic(g, rank) && Housed(g, w) && n in g && k <= |g[n].targets| && g[n].life == Open && x in w
    requires Deliver(g, w, rank, n, k, ms).Returned?
    ensures Deliver(g, w, rank, n, k, ms).value[x] == w[x] + Repeat(ms, Count(g, rank, n, k, x))
    decreases rank[n], |g[n].targets| - k
  {
    if k < |g[n].targets| {
      var later := Count(g, rank, n, k + 1, x);
      match g[n].targets[k]
      case Leaf(y) =>
        DeliverCounts(g, w[y := w[y] + ms], rank, n, k + 1, ms, x);
        RepeatMore(w[x], ms, 1, later);
      case Forward(m) =>
        NotifyCounts(g, w, rank, m, ms, x);
        DeliverCounts(g, NotifyMany(g, w, rank, m, ms).value, rank, n, k + 1, ms, x);
        RepeatMore(w[x], ms, Count(g, rank, m, 0, x), later);
    }
  }

  lemma RepeatMore(had: seq<Msg>, ms: seq<Msg>, here: nat, later: nat)
    ensures had + Repeat(ms, here) + Repeat(ms, later) == had + Repeat(ms, here + later)
    ensures Repeat(ms, 1) == ms
  {
    RepeatAppend(ms, here, later);
    assert had + Repeat(ms, here) + Repeat(ms, later) == had + (Repeat(ms, here) + Repeat(ms, later));
    assert ms + Repeat(ms, 0) == ms;
  }

  lemma {:induction false} NotifyCounts(g: Graph, w: Inboxes, rank: map<Hub, nat>, n: Hub, ms: seq<Msg>, x: Inbox)
    requires Acyclic(g, rank) && Housed(g, w) && n in g && x in w && NotifyMany(g, w, rank, n, ms).Returned?
    ensures NotifyMany(g, w, rank, n, ms).value[x] == w[x] + Repeat(ms, Count(g, rank, n, 0, x))
    decreases rank[n], |g[n].targets| + 1
  {
    if g[n].life == Open { DeliverCounts(g, w, rank, n, 0, ms, x); }
  }

  /** In any acyclic graph of notifiers a batch arrives, whole, once for every way that leads
      from the source to the inbox through notifiers that still exist. */
  lemma OncePerPath(g: Graph, w: Inboxes, rank: map<Hub, nat>, n: Hub, ms: seq<Msg>, x: Inbox)
    returns (paths: set<seq<nat>>)
    requires Acyclic(g, rank) && Housed(g, w) && n in g && x in w && NotifyMany(g, w, rank, n, ms).Returned?
    ensures forall p :: p in paths <==> IsPath(g, n, p, x)
    ensures NotifyMany(g, w, rank, n, ms).value[x] == w[x] + Repeat(ms, |paths|)
  {
    paths := Paths(g, rank, n, 0, x);
    CountIsPaths(g, rank, n, 0, x);
    NotifyCounts(g, w, rank, n, ms, x);
    forall p ensures p in paths <==> IsPath(g, n, p, x) { PathsAreAllThePaths(g, rank, n, 0, x, p); }
  }

  // ----- panics

  lemma {:induction false} DeliverPanics(g: Graph, w: Inboxes, rank: map<Hub, nat>, n: Hub, k: nat, ms: seq<Msg>)
    returns (path: seq<nat>, m: Hub)
    requires Acyclic(g, rank) && Housed(g, w) && n in g && k <= |g[n].targets| && g[n].life == Open
    requires Deliver(g, w, rank, n, k, ms).Panicked?
    ensures Reaches(g, n, path, m) && m in g && g[m].life == Closed
    decreases rank[n], |g[n].targets| - k
  {
    match g[n].targets[k]
    case Leaf(y) => path, m := DeliverPanics(g, w[y := w[y] + ms], rank, n, k + 1, ms);
    case Forward(to) =>
      match NotifyMany(g, w, rank, to, ms)
      case Returned(w1) => path, m := DeliverPanics(g, w1, rank, n, k + 1, ms);
      case Panicked =>
        if g[to].life == Closed {
          path, m := [k], to;
        } else {
          var rest;
          rest, m := DeliverPanics(g, w, rank, to, 0, ms);
          path := [k] + rest;
        }
  }

  lemma {:induction false} ClosedPanics(g: Graph, w: Inboxes, rank: map<Hub, nat>, n: Hub, k: nat, ms: seq<Msg>,
                                      path: seq<nat>, m: Hub)
    requires Acyclic(g, rank) && Housed(g, w) && n in g && k <= |g[n].targets| && g[n].life == Open
    requires Reaches(g, n, path, m) && path != [] && path[0] >= k && m in g && g[m].life == Closed
    ensures Deliver(g, w, rank, n, k, ms).Panicked?
    decreases rank[n], |g[n].targets| - k
  {
    match g[n].targets[k]
    case Leaf(y) => ClosedPanics(g, w[y := w[y] + ms], rank, n, k + 1, ms, path, m);
    case Forward(to) =>
      if path[0] == k {
        if |path| > 1 { ClosedPanics(g, w, rank, to, 0, ms, path[1..], m); }
      } else {
        var sent := NotifyMany(g, w, rank, to, ms);
        if sent.Returned? { ClosedPanics(g, sent.value, rank, n, k + 1, ms, path, m); }
      }
  }

  ghost predicate ClosedAhead(g: Graph, n: Hub) {
    exists path: seq<nat>, m: Hub :: m in g && Reaches(g, n, path, m) && g[m].life == Closed
  }

  /** Sending panics exactly if forwarding can reach a closed notifier, whatever is sent
      (src/notifier.rs:223-228, 644-653). */
  lemma PanicsIffClosedIsReached(g: Graph, w: Inboxes, rank: map<Hub, nat>, n: Hub, ms: seq<Msg>)
    requires Acyclic(g, rank) && Housed(g, w) && n in g
    ensures NotifyMany(g, w, rank, n, ms).Panicked? <==> ClosedAhead(g, n)
  {
    if NotifyMany(g, w, rank, n, ms).Panicked? {
      if g[n].life == Closed {
        assert Reaches(g, n, [], n);
      } else {
        var path, m := DeliverPanics(g, w, rank, n, 0, ms);
      }
    }
    if ClosedAhead(g, n) {
      var path: seq<nat>, m: Hub :| m in g && Reaches(g, n, path, m) && g[m].life == Closed;
      if path != [] { ClosedPanics(g, w, rank, n, 0, ms, path, m); }
    }
  }
}
