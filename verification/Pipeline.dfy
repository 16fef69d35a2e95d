/** From the producer to the consumer: `Buffer<CAPACITY>` (src/notifier.rs:512-616) into a
    notifier into a filter into a `StoreLock<Vec>` that is taken from now and then. A buffer only
    borrows its notifier, so that others may use the notifier meanwhile. */
module Pipeline {
  import opened Wrappers
  import opened Listeners
  import opened ListenerLaws
  import opened Notifiers
  import opened NotifierRefinement
  import opened NotifierRuns

  datatype Pipe = Pipe(s: State, buffer: seq<Msg>)

  function Sending(s: State, ms: seq<Msg>): State {
    var (w', es') := NotifyMany(s.w, s.entries, ms);
    State(w', es', s.capacity)
  }

  function Flush(p: Pipe): Pipe { Pipe(Sending(p.s, p.buffer), []) }

  /** `push`: a buffer made full is sent at once. */
  function Push(p: Pipe, m: Msg, capacity: Positive): Pipe {
    var q := p.(buffer := p.buffer + [m]);
    if |q.buffer| >= capacity then Flush(q) else q
  }

  /** Dropping the buffer sends what is left. */
  function DropBuffer(p: Pipe): Pipe {
    if p.buffer != [] then Flush(p) else p
  }

  function Stored(w: World, x: Shared): seq<Msg> {
    if x in w && w[x].content.Items? then w[x].content.items else []
  }

  function Emptied(w: World, x: Shared): World {
    if x in w && w[x].content.Items? then w[x := w[x].(content := Items([]))] else w
  }

  /** What happens while the buffer lives: pushing, `StoreLock::take` on the destination `x`, and
      whatever else is done with the notifier and with the owners of any allocation. */
  datatype Op = PushOne(m: Msg) | TakeAll | Other(op: Notifiers.Op)

  ghost predicate Allowed(w: World, op: Op) { op.Other? ==> Notifiers.Allowed(w, op.op) }

  function Do(p: Pipe, op: Op, x: Shared, capacity: Positive, grow: nat -> nat): Pipe
    requires op.Other? && (op.op.DropOwner? || op.op.CloneOwner?) ==> Live(p.s.w, op.op.x)
  {
    match op
    case PushOne(m) => Push(p, m, capacity)
    case TakeAll => p.(s := p.s.(w := Emptied(p.s.w, x)))
    case Other(other) => p.(s := Notifiers.Step(p.s, other, grow))
  }

  ghost function Run(p: Pipe, ops: seq<Op>, x: Shared, capacity: Positive, grow: nat -> nat): Option<Pipe> {
    if ops == [] then Some(p)
    else
      match Run(p, ops[..|ops| - 1], x, capacity, grow)
      case None => None
      case Some(q) =>
        var op := ops[|ops| - 1];
        if Allowed(q.s.w, op) then Some(Do(q, op, x, capacity, grow)) else None
  }

  function Pushed(ops: seq<Op>): seq<Msg> {
    if ops == [] then []
    else Pushed(ops[..|ops| - 1]) + match ops[|ops| - 1] case PushOne(m) => [m] case _ => []
  }

  /** Everything the consumer has taken. */
  ghost function Taken(p: Pipe, ops: seq<Op>, x: Shared, capacity: Positive, grow: nat -> nat): seq<Msg>
    requires Run(p, ops, x, capacity, grow).Some?
  {
    if ops == [] then []
    else
      var front := ops[..|ops| - 1];
      Taken(p, front, x, capacity, grow) + TakenNow(Run(p, front, x, capacity, grow).value, ops[|ops| - 1], x)
  }

  ghost function TakenNow(q: Pipe, op: Op, x: Shared): seq<Msg> {
    if op.TakeAll? then Stored(q.s.w, x) else []
  }

  /** Everything that came to the notifier, in the order in which it came there: through the
      buffer, or past it. */
  ghost function Arrived(p: Pipe, ops: seq<Op>, x: Shared, capacity: Positive, grow: nat -> nat): seq<Msg>
    requires Run(p, ops, x, capacity, grow).Some?
  {
    if ops == [] then []
    else
      var front := ops[..|ops| - 1];
      Arrived(p, front, x, capacity, grow)
      + ArrivedNow(Run(p, front, x, capacity, grow).value, ops[|ops| - 1], capacity)
  }

  ghost function ArrivedNow(q: Pipe, op: Op, capacity: Positive): seq<Msg> {
    match op
    case PushOne(m) => if |q.buffer| + 1 >= capacity then q.buffer + [m] else []
    case TakeAll => []
    case Other(Send(ms)) => ms
    case Other(_) => []
  }

  /** `l` is registered and alive, and the only live subscription that writes the log `x`. */
  ghost predicate Feeds(s: State, l: Listener, x: Shared) {
    && AllProvided(s.w, Names(s.entries)) && MarksAreTrue(s.w, s.entries)
    && x in s.w && s.w[x].content.Items?
    && Mentions(l, x) && Once(l, x)
    && l in Bag(s.w, Names(s.entries)) && MentionersAlike(Bag(s.w, Names(s.entries)), x)
  }

  /** Nobody else comes who would write `x`. */
  ghost predicate Unrelated(op: Op, x: Shared) {
    op.Other? && op.op.Subscribe? ==> !Mentions(op.op.l, x)
  }

  // ----- steps

  lemma SendingFeeds(s: State, l: Listener, ms: seq<Msg>, x: Shared)
    requires Feeds(s, l, x) && WaysLive(s.w, l, x)
    ensures SameShape(s.w, Sending(s, ms).w) && Feeds(Sending(s, ms), l, x)
    ensures Stored(Sending(s, ms).w, x) == Stored(s.w, x) + Through(l, ms, x)
  {
    var names := Names(s.entries);
    NotifyIsSendAll(s.w, s.entries, ms);
    BagByOwners(s.w, Sending(s, ms).w, names);
    forall i | 0 <= i < |names| && Alive(s.w, names[i]) ensures Once(names[i], x) {
      BagWithout(s.w, names, i);
      if !Mentions(names[i], x) { ThroughNothing(names[i], ms, x); }
    }
    OutOfOne(s.w, names, ms, x, l);
    ThroughIsReaches(s.w, l, ms, x);
    SendAllDelivers(s.w, names, ms, x);
  }

  lemma EmptiedFeeds(s: State, l: Listener, x: Shared)
    requires Feeds(s, l, x)
    ensures var w' := Emptied(s.w, x);
            SameShape(s.w, w') && Feeds(s.(w := w'), l, x) && Stored(w', x) == []
  {
    var w' := Emptied(s.w, x);
    BagByOwners(s.w, w', Names(s.entries));
    forall i | 0 <= i < |s.entries| ensures Alive(w', s.entries[i].listener) == Alive(s.w, s.entries[i].listener) {
      AliveByOwners(s.w, w', s.entries[i].listener);
    }
  }

  lemma SubscribeFeeds(s: State, l: Listener, l': Listener, x: Shared, grow: nat -> nat)
    requires Feeds(s, l, x) && Provided(s.w, l') && !Mentions(l', x)
    ensures Feeds(Listen(s, l', grow), l, x) && Listen(s, l', grow).w == s.w
  {
    ListenAddsOne(s, l', grow);
    assert forall z :: z in Bag(s.w, [l']) ==> z == l';
    MoreAlike(Bag(s.w, Names(s.entries)), Bag(s.w, [l']), x);
  }

  lemma MoreAlike(bag: multiset<Listener>, more: multiset<Listener>, x: Shared)
    requires MentionersAlike(bag, x) && forall l :: l in more ==> !Mentions(l, x)
    ensures MentionersAlike(bag + more, x)
  {
  }

  /** Owners come and go: of the live listeners some die, and none comes back. */
  lemma {:induction false} BagLater(w: World, w': World, ls: seq<Listener>, l: Listener)
    requires Later(w, w')
    ensures Bag(w', ls)[l] == if Alive(w', l) then Bag(w, ls)[l] else 0
  {
    if ls != [] {
      BagLater(w, w', ls[..|ls| - 1], l);
      NoRevival(w, w', ls[|ls| - 1]);
    }
  }

  lemma FewerAlike(bag: multiset<Listener>, fewer: multiset<Listener>, x: Shared)
    requires MentionersAlike(bag, x) && forall l :: fewer[l] == bag[l] || fewer[l] == 0
    ensures MentionersAlike(fewer, x)
  {
    assert forall l :: l in fewer ==> l in bag && fewer[l] == bag[l];
  }

  lemma OwnersFeed(s: State, l: Listener, x: Shared, y: Shared, n: nat)
    requires Feeds(s, l, x) && Live(s.w, y) && WaysLive(SetOwners(s.w, y, n), l, x)
    ensures Feeds(s.(w := SetOwners(s.w, y, n)), l, x)
  {
    var w', names := SetOwners(s.w, y, n), Names(s.entries);
    ProvidedLater(s.w, w', names);
    ThroughIsReaches(w', l, [], x);
    forall z ensures Bag(w', names)[z] == if Alive(w', z) then Bag(s.w, names)[z] else 0 {
      BagLater(s.w, w', names, z);
    }
    FewerAlike(Bag(s.w, names), Bag(w', names), x);
    forall i | 0 <= i < |s.entries| && !s.entries[i].wasAlive ensures !Alive(w', s.entries[i].listener) {
      NoRevival(s.w, w', s.entries[i].listener);
    }
  }

  lemma CountFeeds(s: State, l: Listener, x: Shared)
    requires Feeds(s, l, x)
    ensures Feeds(s.(entries := SweepFrom(s.w, s.entries, 0)), l, x)
  {
    SweepKeepsTheLiving(s.w, s.entries, 0);
  }

  lemma DoWasLive(q: Pipe, op: Op, l: Listener, x: Shared, capacity: Positive, grow: nat -> nat)
    requires Allowed(q.s.w, op) && WaysLive(Do(q, op, x, capacity, grow).s.w, l, x)
    ensures WaysLive(q.s.w, l, x)
  {
    WasLive(q.s.w, Do(q, op, x, capacity, grow).s.w, l, x);
  }

  /** What is taken and what is then stored is what was stored, and what the filters make of what
      arrives. */
  lemma DoFeeds(q: Pipe, op: Op, l: Listener, x: Shared, capacity: Positive, grow: nat -> nat)
    requires Feeds(q.s, l, x) && Allowed(q.s.w, op) && Unrelated(op, x)
    requires WaysLive(q.s.w, l, x) && WaysLive(Do(q, op, x, capacity, grow).s.w, l, x)
    ensures var q' := Do(q, op, x, capacity, grow);
            && Feeds(q'.s, l, x)
            && TakenNow(q, op, x) + Stored(q'.s.w, x)
               == Stored(q.s.w, x) + Through(l, ArrivedNow(q, op, capacity), x)
  {
    ThroughIsReaches(q.s.w, l, [], x);
    ReachesNothing(q.s.w, l, [], x);
    match op
    case PushOne(m) => if |q.buffer| + 1 >= capacity { SendingFeeds(q.s, l, q.buffer + [m], x); }
    case TakeAll => EmptiedFeeds(q.s, l, x);
    case Other(Subscribe(l')) => SubscribeFeeds(q.s, l, l', x, grow);
    case Other(Send(ms)) => SendingFeeds(q.s, l, ms, x);
    case Other(Count) => CountFeeds(q.s, l, x);
    case Other(Ask) =>
    case Other(DropOwner(y)) => OwnersFeed(q.s, l, x, y, q.s.w[y].strong - 1);
    case Other(CloneOwner(y)) => OwnersFeed(q.s, l, x, y, q.s.w[y].strong + 1);
  }

  // ----- runs

  lemma Associates(a: seq<Msg>, b: seq<Msg>, c: seq<Msg>)
    ensures a + b + c == a + (b + c)
  {
  }

  lemma Regroup(taken: seq<Msg>, now: seq<Msg>, stored: seq<Msg>, before: seq<Msg>, first: seq<Msg>, a: seq<Msg>,
                b: seq<Msg>)
    requires taken + before == first + a && now + stored == before + b
    ensures taken + now + stored == first + (a + b)
  {
    Associates(taken, now, stored);
    Associates(taken, before, b);
    Associates(first, a, b);
  }

  /** In every run in which the ways to `x` stay live, whoever else comes, dies, is counted or
      swept out, and however the producer's buffer and others take turns to send: what was taken
      and what is stored is, in order, what the filters make of everything in the order in which it
      came to the notifier. Neither CAPACITY nor any BATCH shows. */
  lemma {:induction false} InOrderOfArrival(p: Pipe, ops: seq<Op>, l: Listener, x: Shared, capacity: Positive,
                                            grow: nat -> nat)
    requires Feeds(p.s, l, x) && forall op :: op in ops ==> Unrelated(op, x)
    requires var run := Run(p, ops, x, capacity, grow); run.Some? && WaysLive(run.value.s.w, l, x)
    ensures var p' := Run(p, ops, x, capacity, grow).value;
            && Feeds(p'.s, l, x)
            && Taken(p, ops, x, capacity, grow) + Stored(p'.s.w, x)
               == Stored(p.s.w, x) + Through(l, Arrived(p, ops, x, capacity, grow), x)
  {
    if ops == [] {
      ThroughIsReaches(p.s.w, l, [], x);
      ReachesNothing(p.s.w, l, [], x);
    } else {
      var front, op := ops[..|ops| - 1], ops[|ops| - 1];
      var q := Run(p, front, x, capacity, grow).value;
      var p' := Run(p, ops, x, capacity, grow).value;
      DoWasLive(q, op, l, x, capacity, grow);
      InOrderOfArrival(p, front, l, x, capacity, grow);
      DoFeeds(q, op, l, x, capacity, grow);
      var arrived, now := Arrived(p, front, x, capacity, grow), ArrivedNow(q, op, capacity);
      ThroughAppend(q.s.w, l, arrived, now, x);
      Regroup(Taken(p, front, x, capacity, grow), TakenNow(q, op, x), Stored(p'.s.w, x), Stored(q.s.w, x),
              Stored(p.s.w, x), Through(l, arrived, x), Through(l, now, x));
    }
  }

  /** Nothing is sent past the buffer. */
  ghost predicate Buffered(ops: seq<Op>) {
    forall op :: op in ops && op.Other? ==> !op.op.Send?
  }

  /** Then what has not arrived is what is still in the buffer. */
  lemma {:induction false} ArrivedOrBuffered(p: Pipe, ops: seq<Op>, x: Shared, capacity: Positive, grow: nat -> nat)
    requires Run(p, ops, x, capacity, grow).Some? && Buffered(ops) && |p.buffer| < capacity
    ensures var p' := Run(p, ops, x, capacity, grow).value;
            && |p'.buffer| < capacity
            && Arrived(p, ops, x, capacity, grow) + p'.buffer == p.buffer + Pushed(ops)
  {
    if ops != [] {
      var front, op := ops[..|ops| - 1], ops[|ops| - 1];
      ArrivedOrBuffered(p, front, x, capacity, grow);
      var q, p' := Run(p, front, x, capacity, grow).value, Run(p, ops, x, capacity, grow).value;
      var now := if op.PushOne? then [op.m] else [];
      assert op in ops;
      assert ArrivedNow(q, op, capacity) + p'.buffer == q.buffer + now;
      Regroup(Arrived(p, front, x, capacity, grow), ArrivedNow(q, op, capacity), p'.buffer, q.buffer, p.buffer,
              Pushed(front), now);
    }
  }

  /** At every point of every such run, what was taken and what is stored and what the filters will
      make of the messages still buffered are, in this order, everything pushed as the filters let
      it through; fewer than CAPACITY messages are buffered. */
  lemma NothingIsLostOrReordered(p: Pipe, ops: seq<Op>, l: Listener, x: Shared, capacity: Positive, grow: nat -> nat)
    requires Feeds(p.s, l, x) && |p.buffer| < capacity && Buffered(ops) && forall op :: op in ops ==> Unrelated(op, x)
    requires var run := Run(p, ops, x, capacity, grow); run.Some? && WaysLive(run.value.s.w, l, x)
    ensures var p' := Run(p, ops, x, capacity, grow).value;
            && Feeds(p'.s, l, x) && |p'.buffer| < capacity
            && Taken(p, ops, x, capacity, grow) + Stored(p'.s.w, x) + Through(l, p'.buffer, x)
               == Stored(p.s.w, x) + Through(l, p.buffer + Pushed(ops), x)
  {
    var p' := Run(p, ops, x, capacity, grow).value;
    var arrived := Arrived(p, ops, x, capacity, grow);
    InOrderOfArrival(p, ops, l, x, capacity, grow);
    ArrivedOrBuffered(p, ops, x, capacity, grow);
    ThroughAppend(p'.s.w, l, arrived, p'.buffer, x);
    Associates(Stored(p.s.w, x), Through(l, arrived, x), Through(l, p'.buffer, x));
  }

  /** The case the library is for, a filter in front of a `StoreLock<Vec>`: at every point the
      consumer has had, or can take, exactly what the filter makes of all the messages but the
      last CAPACITY - 1 at most. */
  lemma ConsumerLagsByTheBuffer(p: Pipe, ops: seq<Op>, f: Msg -> Option<Msg>, batch: Positive, zst: bool,
                                x: Shared, capacity: Positive, grow: nat -> nat)
    requires Feeds(p.s, Filtered(f, batch, zst, Weak(x)), x) && p.buffer == []
    requires Buffered(ops) && forall op :: op in ops ==> Unrelated(op, x)
    requires var run := Run(p, ops, x, capacity, grow); run.Some? && Live(run.value.s.w, x)
    ensures var p' := Run(p, ops, x, capacity, grow).value;
            && |p'.buffer| <= Min(capacity - 1, |Pushed(ops)|)
            && Taken(p, ops, x, capacity, grow) + Stored(p'.s.w, x)
               == Stored(p.s.w, x) + FilterMap(f, Pushed(ops)[..|Pushed(ops)| - |p'.buffer|])
  {
    InOrderOfArrival(p, ops, Filtered(f, batch, zst, Weak(x)), x, capacity, grow);
    ArrivedOrBuffered(p, ops, x, capacity, grow);
    assert Arrived(p, ops, x, capacity, grow) + Run(p, ops, x, capacity, grow).value.buffer == Pushed(ops);
  }

  function Min(a: int, b: int): int { if a < b then a else b }

  /** When the buffer is dropped nothing is left behind: the consumer has had, or can take,
      everything that was pushed, in order (src/notifier.rs:597-606). */
  lemma DroppingTheBufferDeliversAll(p: Pipe, ops: seq<Op>, l: Listener, x: Shared, capacity: Positive,
                                     grow: nat -> nat)
    requires Feeds(p.s, l, x) && |p.buffer| < capacity && Buffered(ops) && forall op :: op in ops ==> Unrelated(op, x)
    requires var run := Run(p, ops, x, capacity, grow); run.Some? && WaysLive(run.value.s.w, l, x)
    ensures var p' := DropBuffer(Run(p, ops, x, capacity, grow).value);
            && p'.buffer == []
            && Taken(p, ops, x, capacity, grow) + Stored(p'.s.w, x)
               == Stored(p.s.w, x) + Through(l, p.buffer + Pushed(ops), x)
  {
    var q := Run(p, ops, x, capacity, grow).value;
    NothingIsLostOrReordered(p, ops, l, x, capacity, grow);
    SendingFeeds(q.s, l, q.buffer, x);
    ThroughIsReaches(q.s.w, l, [], x);
    ReachesNothing(q.s.w, l, [], x);
    Associates(Taken(p, ops, x, capacity, grow), Stored(q.s.w, x), Through(l, q.buffer, x));
  }

  lemma OneAlike(bag: multiset<Listener>, l: Listener, x: Shared)
    requires forall z :: z in bag ==> !Mentions(z, x)
    requires Mentions(l, x)
    ensures l in bag + multiset{l} && MentionersAlike(bag + multiset{l}, x)
  {
  }

  lemma NewcomerFeeds(s: State, l: Listener, x: Shared, grow: nat -> nat)
    requires AllProvided(s.w, Names(s.entries)) && MarksAreTrue(s.w, s.entries)
    requires x in s.w && s.w[x].content.Items? && NobodyWrites(s, x)
    requires Provided(s.w, l) && Alive(s.w, l) && Mentions(l, x) && Once(l, x)
    ensures Feeds(Listen(s, l, grow), l, x)
  {
    ListenAddsOne(s, l, grow);
    assert Bag(s.w, [l]) == Bag(s.w, []) + multiset{l};
    forall z | z in Bag(s.w, Names(s.entries)) ensures !Mentions(z, x) {
      var i := BagMember(s.w, Names(s.entries), z);
    }
    OneAlike(Bag(s.w, Names(s.entries)), l, x);
  }

  /** Whoever subscribes, in any state that can be reached, while nobody alive writes `x`, feeds it. */
  lemma SubscriberFeeds(w: World, before: seq<Notifiers.Op>, l: Listener, x: Shared, grow: nat -> nat)
    requires Notifiers.Run(Fresh(w), before, grow).Some?
    requires var s := Notifiers.Run(Fresh(w), before, grow).value;
             && x in s.w && s.w[x].content.Items? && NobodyWrites(s, x)
             && Provided(s.w, l) && Alive(s.w, l) && Mentions(l, x) && Once(l, x)
    ensures Feeds(Listen(Notifiers.Run(Fresh(w), before, grow).value, l, grow), l, x)
  {
    EveryRunRefines(Fresh(w), NoSubscribers(w), before, grow);
    NewcomerFeeds(Notifiers.Run(Fresh(w), before, grow).value, l, x, grow);
  }
}
