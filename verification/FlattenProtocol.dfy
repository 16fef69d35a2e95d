/** `Flatten` (src/source/flatten.rs) over a cell of cells, with any number of threads in
    `get()` and any number setting the outer cell or an inner one. Every access to shared
    state is a step of its own. Sources are numbered; so are gates and threads. */
module FlattenProtocol {
  import opened Wrappers

  type Val(==, !new)

  /** `State` of the source: always stored with generation 0. `version` is the position of
      `source` in the history of the outer cell. */
  datatype Cache = Cache(generation: nat, source: nat, gate: nat, version: nat)

  /** What a getter remembers from its first step: the counter it loaded, how many outer
      notifications there had been (`seen`), the newest outer value announced by one of them
      (`floor`), and how many notifications our listeners had had (`start`). */
  datatype Ticket = Ticket(needed: nat, seen: nat, floor: nat, start: nat)

  datatype Stage =
    | Loaded                                 // about to look at the cache
    | Missed                                 // about to ask the outer source
    | Fetched(source: nat, version: nat)     // about to make a gate
    | Gated(source: nat, version: nat, gate: nat)     // about to listen
    | Listening(source: nat, version: nat, gate: nat) // about to take the lock and store
    | Beaten(source: nat, version: nat, gate: nat)    // the cache was newer; about to drop its own gate
    | Chosen(source: nat, version: nat)      // about to read the inner value

  datatype Getter = Getter(ticket: Ticket, stage: Stage)

  datatype Setter =
    | OuterReplaced(version: nat)            // about to count
    | OuterCounted                           // about to notify our listeners
    | InnerReplaced(source: nat)             // about to lock the inner notifier
    | Telling(source: nat, todo: set<nat>)   // about to ask the gates of these listeners
    | Delivering(source: nat, todo: set<nat>)  // found one open; about to notify our listeners

  /** What a completed get returned. */
  datatype Result = Result(value: Val, source: nat, version: nat, ticket: Ticket)

  datatype State = State(
    outer: seq<nat>,                         // every value the outer cell has had; the last is current
    inner: nat -> Val,
    counted: nat,                            // outer notifications so far, of which `announced` is the newest
    announced: nat,
    cache: Option<Cache>,
    live: set<nat>,                          // gates that have not been dropped
    nextGate: nat,
    registered: set<(nat, nat)>,             // (source, gate)
    notices: nat,                            // notifications delivered to our listeners
    getters: map<nat, Getter>,
    setters: map<nat, Setter>,
    last: Option<Result>)                    // of the get that completed last

  /** `generation_from_listening` is a `u32`. */
  function Generation(s: State): nat { s.counted % WRAP }

  function Current(s: State): nat {
    if s.outer == [] then 0 else s.outer[|s.outer| - 1]
  }

  datatype Action =
    | Start(k: nat) | Look(k: nat) | Fetch(k: nat) | MakeGate(k: nat) | Listen(k: nat)
    | Store(k: nat) | Discard(k: nat) | Read(k: nat)
    | SetOuter(t: nat, source: nat) | CountOuter(t: nat) | TellOuter(t: nat)
    | SetInner(t: nat, source: nat, value: Val) | Begin(t: nat) | Ask(t: nat, gate: nat)
    | Deliver(t: nat) | End(t: nat)

  predicate BySetter(a: Action) {
    a.SetOuter? || a.CountOuter? || a.TellOuter? || a.SetInner? || a.Begin? || a.Ask? || a.Deliver? || a.End?
  }

  ghost predicate BySetters(actions: seq<Action>) {
    forall i :: 0 <= i < |actions| ==> BySetter(actions[i])
  }

  function At(s: State, k: nat): Option<Stage> {
    if k in s.getters then Some(s.getters[k].stage) else None
  }

  function Doing(s: State, t: nat): Option<Setter> {
    if t in s.setters then Some(s.setters[t]) else None
  }

  /** While a setter goes through the listeners of a notifier nobody can be added to it. */
  ghost predicate Locked(s: State, source: nat) {
    exists t :: t in s.setters && Holds(s.setters[t], source)
  }

  predicate Holds(p: Setter, source: nat) {
    (p.Telling? || p.Delivering?) && p.source == source
  }

  ghost predicate Enabled(s: State, a: Action) {
    match a
    case Start(k) => k !in s.getters
    case Look(k) => At(s, k) == Some(Loaded)
    case Fetch(k) => At(s, k) == Some(Missed)
    case MakeGate(k) => At(s, k).Some? && At(s, k).value.Fetched?
    case Listen(k) => At(s, k).Some? && At(s, k).value.Gated? && !Locked(s, At(s, k).value.source)
    case Store(k) => At(s, k).Some? && At(s, k).value.Listening?
    case Discard(k) => At(s, k).Some? && At(s, k).value.Beaten?
    case Read(k) => At(s, k).Some? && At(s, k).value.Chosen?
    case SetOuter(t, _) => t !in s.setters
    case CountOuter(t) => Doing(s, t).Some? && Doing(s, t).value.OuterReplaced?
    case TellOuter(t) => Doing(s, t) == Some(OuterCounted)
    case SetInner(t, _, _) => t !in s.setters
    case Begin(t) => Doing(s, t).Some? && Doing(s, t).value.InnerReplaced?
    case Ask(t, g) => Doing(s, t).Some? && Doing(s, t).value.Telling? && g in Doing(s, t).value.todo
    case Deliver(t) => Doing(s, t).Some? && Doing(s, t).value.Delivering?
    case End(t) => Doing(s, t).Some? && Doing(s, t).value.Telling? && Doing(s, t).value.todo == {}
  }

  ghost function To(s: State, k: nat, stage: Stage): State
    requires k in s.getters
  {
    s.(getters := s.getters[k := s.getters[k].(stage := stage)])
  }

  ghost function Step(s: State, a: Action): State
    requires Enabled(s, a) && s.outer != []
  {
    match a
    case Start(k) =>
      s.(getters := s.getters[k := Getter(Ticket(Generation(s), s.counted, s.announced, s.notices), Loaded)])
    case Look(k) =>
      if s.cache.Some? && s.cache.value.generation == s.getters[k].ticket.needed
      then To(s, k, Chosen(s.cache.value.source, s.cache.value.version))
      else To(s, k, Missed)
    case Fetch(k) => To(s, k, Fetched(Current(s), |s.outer| - 1))
    case MakeGate(k) =>
      var g := s.getters[k].stage;
      To(s, k, Gated(g.source, g.version, s.nextGate)).(live := s.live + {s.nextGate}, nextGate := s.nextGate + 1)
    case Listen(k) =>
      var g := s.getters[k].stage;
      To(s, k, Listening(g.source, g.version, g.gate)).(registered := s.registered + {(g.source, g.gate)})
    case Store(k) =>
      var g := s.getters[k].stage;
      if s.cache.Some? && s.cache.value.generation >= s.getters[k].ticket.needed
      then To(s, k, Beaten(s.cache.value.source, s.cache.value.version, g.gate))
      else
        To(s, k, Chosen(g.source, g.version))
          .(cache := Some(Cache(0, g.source, g.gate, g.version)),
            live := if s.cache.Some? then s.live - {s.cache.value.gate} else s.live)
    case Discard(k) =>
      var g := s.getters[k].stage;
      To(s, k, Chosen(g.source, g.version)).(live := s.live - {g.gate})
    case Read(k) =>
      var g := s.getters[k];
      s.(getters := s.getters - {k},
         last := Some(Result(s.inner(g.stage.source), g.stage.source, g.stage.version, g.ticket)))
    case SetOuter(t, x) => s.(outer := s.outer + [x], setters := s.setters[t := OuterReplaced(|s.outer|)])
    case CountOuter(t) =>
      s.(counted := s.counted + 1, announced := Max(s.announced, s.setters[t].version),
         setters := s.setters[t := OuterCounted])
    case TellOuter(t) => s.(notices := s.notices + 1, setters := s.setters - {t})
    case SetInner(t, x, v) =>
      s.(inner := (y: nat) => if y == x then v else s.inner(y), setters := s.setters[t := InnerReplaced(x)])
    case Begin(t) => s.(setters := s.setters[t := Telling(s.setters[t].source, GatesAt(s, s.setters[t].source))])
    case Ask(t, g) =>
      var p := s.setters[t];
      s.(setters := s.setters[t := if g in s.live then Delivering(p.source, p.todo - {g})
                                   else Telling(p.source, p.todo - {g})])
    case Deliver(t) =>
      s.(notices := s.notices + 1, setters := s.setters[t := Telling(s.setters[t].source, s.setters[t].todo)])
    case End(t) => s.(setters := s.setters - {t})
  }

  ghost function GatesAt(s: State, source: nat): set<nat> {
    set r | r in s.registered && r.0 == source :: r.1
  }

  /** `Flatten::new`, over an outer cell that holds `source`. */
  ghost function Init(source: nat, inner: nat -> Val): State {
    State([source], inner, 0, 0, None, {}, 0, {}, 0, map[], map[], None)
  }

  /** The state after a run; an action that is not enabled is passed over. */
  ghost function Run(s: State, actions: seq<Action>): (s': State)
    requires s.outer != []
    ensures s'.outer != []
  {
    if actions == [] then s
    else
      var s1 := Run(s, actions[..|actions| - 1]);
      if Enabled(s1, actions[|actions| - 1]) then Step(s1, actions[|actions| - 1]) else s1
  }

  lemma RunOne(s: State, actions: seq<Action>, a: Action)
    requires s.outer != []
    ensures Run(s, actions + [a])
         == if Enabled(Run(s, actions), a) then Step(Run(s, actions), a) else Run(s, actions)
  {
    assert (actions + [a])[..|actions|] == actions;
  }

  lemma {:induction false} RunInTwo(s: State, a: seq<Action>, b: seq<Action>)
    requires s.outer != []
    ensures Run(s, a + b) == Run(Run(s, a), b)
  {
    if b == [] {
      assert a + b == a;
    } else {
      assert (a + b)[..|a + b| - 1] == a + b[..|b| - 1];
      RunInTwo(s, a, b[..|b| - 1]);
    }
  }
}
