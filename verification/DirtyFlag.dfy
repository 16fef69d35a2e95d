/** A cell and the caches that watch it with flags (src/cell.rs:105-145,
    src/simple_listeners.rs:272-311), step by step with any number of threads. A setter
    replaces the value, then takes the list of listeners, then raises their flags one by one;
    a consumer clears its flag, and only then reads the value. */
module DirtyFlag {

  type Val(==, !new)

  /** `reading`: the flag has been cleared and the value not yet read. */
  datatype Consumer = Consumer(flag: bool, cached: Val, reading: bool)

  datatype Setter =
    | Replaced                               // the value is in place, nobody knows
    | Telling(todo: set<nat>)                // these flags are still to be raised

  datatype State = State(value: Val, consumers: map<nat, Consumer>, setters: map<nat, Setter>)

  datatype Action =
    | Listen(c: nat, flag: bool, cached: Val)  // a flag made clear obliges its owner to read
    | Leave(c: nat)                          // the flag is dropped
    | Clear(c: nat)                          // Flag::get_and_clear
    | Read(c: nat)
    | Raise(c: nat)                          // Flag::set, by its owner
    | Set(t: nat, v: Val)                    // Cell::set, up to and including the replacement
    | SetIfUnequal(t: nat, v: Val)
    | Begin(t: nat)                          // the notifier is locked for reading
    | Tell(t: nat, c: nat)                   // FlagListener::receive
    | End(t: nat)

  ghost predicate Enabled(s: State, a: Action) {
    match a
    case Listen(c, _, _) => c !in s.consumers
    case Leave(c) => c in s.consumers
    case Clear(c) => c in s.consumers && !s.consumers[c].reading
    case Read(c) => c in s.consumers && s.consumers[c].reading
    case Raise(c) => c in s.consumers
    case Set(t, _) => t !in s.setters
    case SetIfUnequal(t, _) => t !in s.setters
    case Begin(t) => t in s.setters && s.setters[t].Replaced?
    case Tell(t, c) => t in s.setters && s.setters[t].Telling? && c in s.setters[t].todo
    case End(t) => t in s.setters && s.setters[t] == Telling({})
  }

  ghost function Step(s: State, a: Action): State
    requires Enabled(s, a)
  {
    match a
    case Listen(c, flag, cached) => s.(consumers := s.consumers[c := Consumer(flag, cached, !flag)])
    case Leave(c) => s.(consumers := s.consumers - {c})
    case Clear(c) =>
      var k := s.consumers[c];
      s.(consumers := s.consumers[c := k.(flag := false, reading := k.flag)])
    case Read(c) => s.(consumers := s.consumers[c := s.consumers[c].(cached := s.value, reading := false)])
    case Raise(c) => s.(consumers := s.consumers[c := s.consumers[c].(flag := true)])
    case Set(t, v) => s.(value := v, setters := s.setters[t := Replaced])
    case SetIfUnequal(t, v) => if v == s.value then s else s.(value := v, setters := s.setters[t := Replaced])
    case Begin(t) => s.(setters := s.setters[t := Telling(s.consumers.Keys)])
    case Tell(t, c) =>
      State(s.value,
            if c in s.consumers then s.consumers[c := s.consumers[c].(flag := true)] else s.consumers,
            s.setters[t := Telling(s.setters[t].todo - {c})])
    case End(t) => s.(setters := s.setters - {t})
  }

  ghost predicate Owes(p: Setter, c: nat) {
    p.Replaced? || c in p.todo
  }

  /** A stale cache is always excused. */
  ghost predicate Coherent(s: State) {
    forall c :: c in s.consumers ==>
      var k := s.consumers[c];
      k.cached == s.value || k.flag || k.reading || exists t :: t in s.setters && Owes(s.setters[t], c)
  }

  lemma StepIsCoherent(s: State, a: Action)
    requires Coherent(s) && Enabled(s, a)
    ensures Coherent(Step(s, a))
  {
    var s' := Step(s, a);
    forall c | c in s'.consumers
      ensures var k := s'.consumers[c];
              k.cached == s'.value || k.flag || k.reading || exists t :: t in s'.setters && Owes(s'.setters[t], c)
    {
      if (a.Set? || a.SetIfUnequal?) && s' != s {
        assert Owes(s'.setters[a.t], c);
      } else if c in s.consumers {
        if t :| t in s.setters && Owes(s.setters[t], c) {
          if t in s'.setters { assert Owes(s'.setters[t], c) || (a == Tell(t, c)); }
        }
      }
    }
  }

  /** The state after a run; a run stops at an action that is not enabled. */
  ghost function Run(s: State, actions: seq<Action>): State {
    if actions == [] then s
    else
      var s1 := Run(s, actions[..|actions| - 1]);
      if Enabled(s1, actions[|actions| - 1]) then Step(s1, actions[|actions| - 1]) else s1
  }

  /** In every interleaving of any number of setters and consumers, a consumer whose cache
      differs from the cell has its flag up, or is about to read, or is owed a flag by a setter
      that has replaced the value and not yet reached it. So when no setter is at work, a clear
      flag that nobody is acting on means that the cache agrees. */
  lemma {:induction false} CachesAreCoherent(value: Val, actions: seq<Action>)
    ensures var s := Run(State(value, map[], map[]), actions);
            && Coherent(s)
            && (s.setters == map[] ==>
              forall c :: c in s.consumers && !s.consumers[c].flag && !s.consumers[c].reading ==>
                s.consumers[c].cached == s.value)
  {
    if actions != [] {
      var front := actions[..|actions| - 1];
      CachesAreCoherent(value, front);
      var s1 := Run(State(value, map[], map[]), front);
      if Enabled(s1, actions[|actions| - 1]) { StepIsCoherent(s1, actions[|actions| - 1]); }
    }
  }

  // ----- what sets do, told from the actions alone

  /** The value of the last set that took place, or the first value. */
  ghost function LastSet(value: Val, actions: seq<Action>): Val {
    if actions == [] then value
    else
      var front, a := actions[..|actions| - 1], actions[|actions| - 1];
      if (a.Set? || a.SetIfUnequal?) && Enabled(Run(State(value, map[], map[]), front), a) then a.v
      else LastSet(value, front)
  }

  /** In every interleaving the cell holds what it was set to last. */
  lemma {:induction false} LastSetIsHeld(value: Val, actions: seq<Action>)
    ensures Run(State(value, map[], map[]), actions).value == LastSet(value, actions)
  {
    if actions != [] { LastSetIsHeld(value, actions[..|actions| - 1]); }
  }

  lemma RunOne(s: State, actions: seq<Action>, a: Action)
    ensures Run(s, actions + [a]) == if Enabled(Run(s, actions), a) then Step(Run(s, actions), a) else Run(s, actions)
  {
    assert (actions + [a])[..|actions|] == actions;
  }

  /** And that is what a consumer caches when it reads. */
  lemma ReadCachesLastSet(value: Val, actions: seq<Action>, c: nat)
    requires Enabled(Run(State(value, map[], map[]), actions), Read(c))
    ensures var k := Run(State(value, map[], map[]), actions + [Read(c)]).consumers;
            c in k && k[c].cached == LastSet(value, actions) && !k[c].reading
  {
    RunOne(State(value, map[], map[]), actions, Read(c));
    LastSetIsHeld(value, actions);
  }

  /** Consumer `c` is there: the last thing it did was not to leave. */
  ghost predicate Present(s: State, actions: seq<Action>, c: nat) {
    if actions == [] then c in s.consumers
    else
      var front, a := actions[..|actions| - 1], actions[|actions| - 1];
      if !Enabled(Run(s, front), a) then Present(s, front, c)
      else if a.Listen? && a.c == c then true
      else if a == Leave(c) then false
      else Present(s, front, c)
  }

  /** Since the flag of `c` was made or cleared last, somebody has raised it. */
  ghost predicate RaisedSince(s: State, actions: seq<Action>, c: nat) {
    if actions == [] then c in s.consumers && s.consumers[c].flag
    else
      var front, a := actions[..|actions| - 1], actions[|actions| - 1];
      if !Enabled(Run(s, front), a) then RaisedSince(s, front, c)
      else if a == Clear(c) then false
      else if a.Listen? && a.c == c then a.flag
      else a == Raise(c) || (a.Tell? && a.c == c) || RaisedSince(s, front, c)
  }

  /** It has found its flag up, or made one that is clear, and has not read since. */
  ghost predicate HasToRead(s: State, actions: seq<Action>, c: nat) {
    if actions == [] then c in s.consumers && s.consumers[c].reading
    else
      var front, a := actions[..|actions| - 1], actions[|actions| - 1];
      if !Enabled(Run(s, front), a) then HasToRead(s, front, c)
      else if a == Clear(c) then RaisedSince(s, front, c)
      else if a.Listen? && a.c == c then !a.flag
      else a != Read(c) && HasToRead(s, front, c)
  }

  /** In every interleaving: a consumer is there from when it comes until it leaves; its flag is up
      exactly if it was made so, or has been raised, and has not been cleared since; and it is about to
      read exactly if it found its flag up when it cleared it last. */
  lemma {:induction false} FlagTellsWhatHappened(s: State, actions: seq<Action>, c: nat)
    ensures var s' := Run(s, actions);
            && (c in s'.consumers <==> Present(s, actions, c))
            && (c in s'.consumers ==>
                  && (s'.consumers[c].flag <==> RaisedSince(s, actions, c))
                  && (s'.consumers[c].reading <==> HasToRead(s, actions, c)))
  {
    if actions != [] { FlagTellsWhatHappened(s, actions[..|actions| - 1], c); }
  }

  /** A thread is at work from when it replaces the value until it is done. */
  ghost predicate AtWork(s: State, actions: seq<Action>, t: nat) {
    if actions == [] then t in s.setters
    else
      var front, a := actions[..|actions| - 1], actions[|actions| - 1];
      if !Enabled(Run(s, front), a) then AtWork(s, front, t)
      else if a.Set? && a.t == t then true
      else if a.SetIfUnequal? && a.t == t then a.v != Run(s, front).value
      else a != End(t) && AtWork(s, front, t)
  }

  lemma {:induction false} SettersAreAtWork(s: State, actions: seq<Action>, t: nat)
    ensures t in Run(s, actions).setters <==> AtWork(s, actions, t)
  {
    if actions != [] { SettersAreAtWork(s, actions[..|actions| - 1], t); }
  }

  /** Nobody is stuck. */
  lemma SetterCanMove(s: State, t: nat) returns (a: Action)
    requires t in s.setters
    ensures Enabled(s, a) && (a == Begin(t) || a == End(t) || (a.Tell? && a.t == t))
  {
    match s.setters[t]
    case Replaced => a := Begin(t);
    case Telling(todo) =>
      if todo == {} {
        a := End(t);
      } else {
        var c :| c in todo;
        a := Tell(t, c);
      }
  }

  /** An equal value changes nothing and occupies nobody; an unequal one, or `set`, begins to tell. */
  lemma SetsBegin(s: State, t: nat, v: Val)
    requires t !in s.setters
    ensures v == s.value ==> Step(s, SetIfUnequal(t, v)) == s
    ensures v != s.value ==> Step(s, SetIfUnequal(t, v)) == Step(s, Set(t, v))
    ensures var s' := Step(s, Set(t, v)); t in s'.setters && s'.setters[t].Replaced? && s'.consumers == s.consumers
  {
  }

  /** In the course of `middle` consumer `c` clears its flag, after setter `t` has raised it if it does. */
  ghost predicate ClearedSinceTold(s: State, t: nat, c: nat, middle: seq<Action>) {
    middle != [] &&
    var front, a := middle[..|middle| - 1], middle[|middle| - 1];
    if !Enabled(Run(s, front), a) then ClearedSinceTold(s, t, c, front)
    else a == Clear(c) || (a != Tell(t, c) && ClearedSinceTold(s, t, c, front))
  }

  /** While setter `t` is at work, consumer `c` is on its way to being told, or has been. */
  ghost predicate Reaching(s: State, t: nat, c: nat, cleared: bool) {
    t in s.setters && c in s.consumers && (Owes(s.setters[t], c) || s.consumers[c].flag || cleared)
  }

  lemma {:induction false} SetterReaches(s: State, t: nat, c: nat, middle: seq<Action>)
    requires t in s.setters && s.setters[t].Replaced? && c in s.consumers
    requires Leave(c) !in middle && End(t) !in middle
    ensures Reaching(Run(s, middle), t, c, ClearedSinceTold(s, t, c, middle))
  {
    if middle != [] {
      var front, a := middle[..|middle| - 1], middle[|middle| - 1];
      assert a in middle;
      SetterReaches(s, t, c, front);
      if Enabled(Run(s, front), a) { StepReaches(Run(s, front), t, c, ClearedSinceTold(s, t, c, front), a); }
    }
  }

  lemma StepReaches(s: State, t: nat, c: nat, cleared: bool, a: Action)
    requires Reaching(s, t, c, cleared) && Enabled(s, a) && a != Leave(c) && a != End(t)
    ensures Reaching(Step(s, a), t, c, a == Clear(c) || (a != Tell(t, c) && cleared))
  {
  }

  /** In every interleaving, when a setter is done, each consumer that has been there since the set has
      its flag up, or has cleared it since the setter raised it (src/cell.rs:108-109,
      src/simple_listeners.rs:300-311). */
  lemma EveryoneIsTold(value: Val, before: seq<Action>, t: nat, v: Val, middle: seq<Action>, c: nat)
    requires var s := Run(State(value, map[], map[]), before); Enabled(s, Set(t, v)) && c in s.consumers
    requires Leave(c) !in middle && End(t) !in middle
    requires Enabled(Run(Step(Run(State(value, map[], map[]), before), Set(t, v)), middle), End(t))
    ensures var s' := Run(Step(Run(State(value, map[], map[]), before), Set(t, v)), middle);
            && c in s'.consumers
            && (s'.consumers[c].flag
                || ClearedSinceTold(Step(Run(State(value, map[], map[]), before), Set(t, v)), t, c, middle))
  {
    var s := Run(State(value, map[], map[]), before);
    SetsBegin(s, t, v);
    SetterReaches(Step(s, Set(t, v)), t, c, middle);
  }
}
