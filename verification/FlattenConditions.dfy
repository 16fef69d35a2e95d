/** Exactly when a flatten source does what FlattenLimits shows it can fail to do. */
module FlattenConditions {
  import opened Wrappers
  import opened FlattenProtocol
  import opened FlattenNotices
  import opened FlattenLimits
  import Fresh = FlattenFreshness
  import Gates = FlattenGates

  // ----- setters at work on a quiet source

  /** Since `s0` our listeners have been told, or a setter is about to tell them, or the value is
      as it was. */
  ghost predicate Promise(s0: State, s: State) {
    && s.getters == map[] && s.cache == s0.cache && s.live == s0.live
    && s.registered == s0.registered && s.notices >= s0.notices
    && (s.notices == s0.notices ==>
          || OuterPending(s)
          || (Current(s) == Current(s0) && (s.inner(Current(s0)) == s0.inner(Current(s0)) || InnerPending(s))))
  }

  /** The cache holds the current source, and its gate is the one that is open there. */
  ghost predicate UpToDate(s: State) {
    && s.outer != [] && s.cache.Some? && s.cache.value.source == Current(s)
    && s.live == {s.cache.value.gate} && (Current(s), s.cache.value.gate) in s.registered
  }

  lemma OuterKeepsPromise(s0: State, s: State, a: Action)
    requires UpToDate(s0) && Promise(s0, s) && s.outer != [] && Enabled(s, a)
    requires a.SetOuter? || a.CountOuter? || a.TellOuter?
    ensures Promise(s0, Step(s, a))
  {
    if a.TellOuter? { OthersStillOwe(s, Step(s, a), a.t); } else { ThisOneOwes(Step(s, a), a.t); }
  }

  lemma InnerKeepsPromise(s0: State, s: State, a: Action)
    requires UpToDate(s0) && Promise(s0, s) && s.outer != [] && Enabled(s, a)
    requires a.SetInner? || a.Begin? || a.Ask?
    ensures Promise(s0, Step(s, a))
  {
    ThisOneOwes(Step(s, a), a.t);
    OthersStillOwe(s, Step(s, a), a.t);
    if a.Begin? && s.setters[a.t].source == Current(s0) {
      assert s0.cache.value.gate in GatesAt(s, s.setters[a.t].source);
    }
  }

  lemma EndKeepsPromise(s0: State, s: State, a: Action)
    requires UpToDate(s0) && Promise(s0, s) && s.outer != [] && Enabled(s, a) && (a.Deliver? || a.End?)
    ensures Promise(s0, Step(s, a))
  {
    OthersStillOwe(s, Step(s, a), a.t);
  }

  lemma {:induction false} SettersKeepPromise(s0: State, more: seq<Action>)
    requires UpToDate(s0) && s0.getters == map[] && BySetters(more)
    ensures Promise(s0, Run(s0, more))
  {
    if more != [] {
      var front, a := more[..|more| - 1], more[|more| - 1];
      SettersKeepPromise(s0, front);
      var s := Run(s0, front);
      if Enabled(s, a) {
        if a.SetOuter? || a.CountOuter? || a.TellOuter? { OuterKeepsPromise(s0, s, a); }
        else if a.SetInner? || a.Begin? || a.Ask? { InnerKeepsPromise(s0, s, a); }
        else { EndKeepsPromise(s0, s, a); }
      }
    }
  }

  /** Whatever the setters do from here on, no change is missed since the get that returned `r` began. */
  ghost predicate NeverMissed(s: State, r: Result)
    requires s.outer != []
  {
    forall more: seq<Action> :: BySetters(more) ==> !ChangeMissed(Run(s, more), r)
  }

  /** Notices only grow, and a completed get stays completed. */
  lemma {:induction false} NoticesGrow(s: State, more: seq<Action>)
    requires s.outer != []
    ensures Run(s, more).notices >= s.notices && (s.last.Some? ==> Run(s, more).last.Some?)
  {
    if more != [] {
      NoticesGrow(s, more[..|more| - 1]);
      var s1, a := Run(s, more[..|more| - 1]), more[|more| - 1];
      if Enabled(s1, a) { NoticeStep(s1, a); }
    }
  }

  lemma NoticeStep(s: State, a: Action)
    requires s.outer != [] && Enabled(s, a)
    ensures Step(s, a).notices >= s.notices && (s.last.Some? ==> Step(s, a).last.Some?)
  {
  }

  /** For any get, completed at any time, and any interleaving before and after, overlapping gets
      included, once all is quiet: every interleaving of any number of setters, of the outer cell and
      of inner ones, leaves our listeners told of a change, if and only if they have been told already
      since that get began, or the cache holds the current inner cell and its value is the one that
      get returned. (`v` is some other value, without which nothing could change.) */
  lemma NeverMissedIff(source: nat, inner: nat -> Val, before: seq<Action>, rest: seq<Action>, v: Val)
    requires var s0 := Run(Init(source, inner), before); s0.last.Some? && v != s0.last.value.value
    requires var s := Run(Init(source, inner), before + rest); s.getters == map[] && s.setters == map[]
    ensures var r := Run(Init(source, inner), before).last.value;
            var s := Run(Init(source, inner), before + rest);
            NeverMissed(s, r) <==>
              || s.notices > r.ticket.start
              || (s.cache.Some? && s.cache.value.source == Current(s) && s.inner(Current(s)) == r.value)
  {
    var init := Init(source, inner);
    var r, s := Run(init, before).last.value, Run(init, before + rest);
    CompletedLater(source, inner, before, rest);
    Gates.OneGateIsOpen(source, inner, before + rest);
    if s.notices > r.ticket.start {
      ToldIsNeverMissed(s, r);
    } else if s.inner(Current(s)) != r.value {
      assert BySetters([]) && ChangeMissed(Run(s, []), r);
    } else if s.cache.value.source == Current(s) {
      CachedIsNeverMissed(s, r);
    } else {
      StaleIsMissed(s, r, v);
    }
  }

  lemma CompletedLater(source: nat, inner: nat -> Val, before: seq<Action>, rest: seq<Action>)
    requires Run(Init(source, inner), before).last.Some?
    ensures var s := Run(Init(source, inner), before + rest);
            s.last.Some? && s.notices >= Run(Init(source, inner), before).last.value.ticket.start
  {
    Fresh.RunKeepsInv(source, inner, before);
    RunInTwo(Init(source, inner), before, rest);
    NoticesGrow(Run(Init(source, inner), before), rest);
  }

  lemma ToldIsNeverMissed(s: State, r: Result)
    requires s.outer != [] && s.notices > r.ticket.start
    ensures NeverMissed(s, r)
  {
    forall more: seq<Action> | BySetters(more) ensures !ChangeMissed(Run(s, more), r) { NoticesGrow(s, more); }
  }

  lemma StaleIsMissed(s: State, r: Result, v: Val)
    requires s.outer != [] && s.setters == map[]
    requires v != r.value && s.notices == r.ticket.start && Gates.OpenAt(s, Current(s)) == {}
    ensures !NeverMissed(s, r)
  {
    var t := SilentSet(s, Trace([], s), Current(s), v);
    assert BySetters(t.actions) && ChangeMissed(Run(s, t.actions), r);
  }

  lemma CachedIsNeverMissed(s: State, r: Result)
    requires s.outer != [] && s.getters == map[] && s.cache.Some?
    requires s.cache.value.source == Current(s) && s.inner(Current(s)) == r.value
    requires s.live == {s.cache.value.gate} && s.notices == r.ticket.start
    requires Gates.OpenAt(s, Current(s)) == s.live
    ensures NeverMissed(s, r)
  {
    assert s.cache.value.gate in GatesAt(s, Current(s));
    forall more: seq<Action> | BySetters(more) ensures !ChangeMissed(Run(s, more), r) { SettersKeepPromise(s, more); }
  }

  // ----- a get and the cache

  /** The get of thread `k` looks, and does not go on to ask the outer source. */
  ghost predicate Hits(s: State, k: nat)
    requires s.outer != [] && At(s, k) == Some(Loaded)
  {
    Step(s, Look(k)).getters[k].stage.Chosen?
  }

  /** In every interleaving, whoever else gets and sets meanwhile, a get is answered from the cache
      if and only if there is a cache when it looks and the number of outer notifications there had
      been when it began is a multiple of 2^32: so that until the counter wraps around, no get that
      begins after the first of them is. */
  lemma CacheIsHitIff(source: nat, inner: nat -> Val, before: seq<Action>, k: nat, after: seq<Action>)
    requires k !in Run(Init(source, inner), before).getters && Read(k) !in after
    requires At(Run(Init(source, inner), before + [Start(k)] + after), k) == Some(Loaded)
    ensures var s0 := Run(Init(source, inner), before);
            var s := Run(Init(source, inner), before + [Start(k)] + after);
            && (Hits(s, k) <==> s.cache.Some? && s0.counted % WRAP == 0)
            && (0 < s0.counted < WRAP ==> !Hits(s, k))
  {
    TicketIsOfTheStart(Init(source, inner), before, k, after);
    CacheIsOfGenerationZero(source, inner, before + [Start(k)] + after);
    LookHitsIff(Run(Init(source, inner), before + [Start(k)] + after), k);
  }

  lemma CacheIsOfGenerationZero(source: nat, inner: nat -> Val, actions: seq<Action>)
    ensures var s := Run(Init(source, inner), actions); s.cache.Some? ==> s.cache.value.generation == 0
  {
    Fresh.RunKeepsInv(source, inner, actions);
  }

  lemma TicketIsOfTheStart(init: State, before: seq<Action>, k: nat, after: seq<Action>)
    requires init.outer != [] && k !in Run(init, before).getters && Read(k) !in after
    ensures var s := Run(init, before + [Start(k)] + after);
            k in s.getters && s.getters[k].ticket.needed == Run(init, before).counted % WRAP
  {
    RunOne(init, before, Start(k));
    RunInTwo(init, before + [Start(k)], after);
    Fresh.TicketsStay(Run(init, before + [Start(k)]), k, after);
  }

  lemma LookHitsIff(s: State, k: nat)
    requires s.outer != [] && At(s, k) == Some(Loaded) && (s.cache.Some? ==> s.cache.value.generation == 0)
    ensures k in s.getters && (Hits(s, k) <==> s.cache.Some? && s.getters[k].ticket.needed == 0)
  {
  }

  // ----- which source a get reads

  /** The get of thread `k` has settled on a source. */
  ghost predicate Settled(s: State, k: nat, x: nat, version: nat) {
    && At(s, k).Some? && (At(s, k).value.Beaten? || At(s, k).value.Chosen?)
    && At(s, k).value.source == x && At(s, k).value.version == version
  }

  lemma StepStaysSettled(s: State, k: nat, x: nat, version: nat, a: Action)
    requires s.outer != [] && Settled(s, k, x, version) && Enabled(s, a) && a != Read(k)
    ensures Settled(Step(s, a), k, x, version)
  {
  }

  lemma {:induction false} RunStaysSettled(s: State, k: nat, x: nat, version: nat, rest: seq<Action>)
    requires s.outer != [] && Settled(s, k, x, version) && Read(k) !in rest
    ensures Settled(Run(s, rest), k, x, version)
  {
    if rest != [] {
      var front, a := rest[..|rest| - 1], rest[|rest| - 1];
      assert a in rest;
      RunStaysSettled(s, k, x, version, front);
      if Enabled(Run(s, front), a) { StepStaysSettled(Run(s, front), k, x, version, a); }
    }
  }

  /** What it settled on is what it reads, and what the caller is given is the value of that. */
  lemma SettledIsRead(s: State, k: nat, x: nat, version: nat)
    requires s.outer != [] && Settled(s, k, x, version) && Enabled(s, Read(k))
    ensures var last := Step(s, Read(k)).last;
            last.Some? && last.value.source == x && last.value.version == version && last.value.value == s.inner(x)
  {
  }

  /** In every interleaving: a get that comes to store its source and finds the state new enough
      settles on the cached source, and not on its own; otherwise its own becomes the cached one
      (src/source/flatten.rs:113-126). Whatever happens then, that is the source it reads. */
  lemma LoserUsesTheirs(source: nat, inner: nat -> Val, before: seq<Action>, k: nat, rest: seq<Action>)
    requires Enabled(Run(Init(source, inner), before), Store(k)) && Read(k) !in rest
    ensures var s0 := Run(Init(source, inner), before);
            var s1 := Step(s0, Store(k));
            var s := Run(Init(source, inner), before + [Store(k)] + rest);
            && s1.cache.Some? && Settled(s, k, s1.cache.value.source, s1.cache.value.version)
            && if s0.cache.Some? && s0.cache.value.generation >= s0.getters[k].ticket.needed then s1.cache == s0.cache
               else s1.cache.value.source == s0.getters[k].stage.source
                    && s1.cache.value.gate == s0.getters[k].stage.gate
  {
    var init, s0 := Init(source, inner), Run(Init(source, inner), before);
    var s1 := Step(s0, Store(k));
    RunOne(init, before, Store(k));
    RunInTwo(init, before + [Store(k)], rest);
    StoreSettles(s0, k);
    RunStaysSettled(s1, k, s1.cache.value.source, s1.cache.value.version, rest);
  }

  lemma StoreSettles(s: State, k: nat)
    requires s.outer != [] && Enabled(s, Store(k))
    ensures var s' := Step(s, Store(k));
            && s'.cache.Some? && Settled(s', k, s'.cache.value.source, s'.cache.value.version)
            && if s.cache.Some? && s.cache.value.generation >= s.getters[k].ticket.needed then s'.cache == s.cache
               else s'.cache.value.source == s.getters[k].stage.source
                    && s'.cache.value.gate == s.getters[k].stage.gate
  {
  }

  /** A hit settles on the cached source too. */
  lemma HitUsesTheCached(s: State, k: nat)
    requires s.outer != [] && At(s, k) == Some(Loaded) && Hits(s, k)
    ensures s.cache.Some? && Settled(Step(s, Look(k)), k, s.cache.value.source, s.cache.value.version)
  {
  }

  // ----- a get by itself

  /** All the steps of a get; those that a hit leaves out are passed over. */
  function LoneGet(k: nat): seq<Action> {
    [Start(k), Look(k), Fetch(k), MakeGate(k), Listen(k), Store(k), Read(k)]
  }

  lemma PassOver(init: State, r: Trace, a: Action) returns (r': Trace)
    requires Leads(init, r) && !Enabled(r.state, a)
    ensures Leads(init, r') && r' == Trace(r.actions + [a], r.state)
  {
    r' := Trace(r.actions + [a], r.state);
    RunOne(init, r.actions, a);
  }

  lemma HitReads(init: State, r: Trace, k: nat) returns (r': Trace)
    requires Leads(init, r) && At(r.state, k).Some? && At(r.state, k).value.Chosen?
    ensures Leads(init, r') && r'.state == Step(r.state, Read(k))
    ensures r'.actions == r.actions + [Fetch(k), MakeGate(k), Listen(k), Store(k), Read(k)]
  {
    r' := PassOver(init, r, Fetch(k));
    r' := PassOver(init, r', MakeGate(k));
    r' := PassOver(init, r', Listen(k));
    r' := PassOver(init, r', Store(k));
    r' := Go(init, r', Read(k));
  }

  lemma MissReads(init: State, r: Trace, k: nat) returns (r': Trace)
    requires Leads(init, r) && At(r.state, k) == Some(Missed) && !Locked(r.state, Current(r.state))
    requires r.state.cache.Some? ==> r.state.cache.value.generation < r.state.getters[k].ticket.needed
    ensures Leads(init, r') && r'.state.last.Some? && r'.state.inner == r.state.inner
    ensures r'.state.last.value.source == Current(r.state)
    ensures r'.state.last.value.value == r.state.inner(Current(r.state))
    ensures r'.actions == r.actions + [Fetch(k), MakeGate(k), Listen(k), Store(k), Read(k)]
  {
    MissSteps(r.state, k);
    r' := Go(init, r, Fetch(k));
    r' := Go(init, r', MakeGate(k));
    r' := Go(init, r', Listen(k));
    r' := Go(init, r', Store(k));
    r' := Go(init, r', Read(k));
  }

  lemma MissSteps(s: State, k: nat)
    requires s.outer != [] && At(s, k) == Some(Missed) && !Locked(s, Current(s))
    requires s.cache.Some? ==> s.cache.value.generation < s.getters[k].ticket.needed
    ensures Enabled(s, Fetch(k))
    ensures var s1 := Step(s, Fetch(k)); Enabled(s1, MakeGate(k)) && s1.outer != []
    ensures var s2 := Step(Step(s, Fetch(k)), MakeGate(k)); Enabled(s2, Listen(k)) && s2.outer != []
    ensures var s3 := Step(Step(Step(s, Fetch(k)), MakeGate(k)), Listen(k)); Enabled(s3, Store(k)) && s3.outer != []
    ensures var s4 := Step(Step(Step(Step(s, Fetch(k)), MakeGate(k)), Listen(k)), Store(k));
            && Enabled(s4, Read(k)) && s4.outer != [] && s4.getters[k].stage.source == Current(s) && s4.inner == s.inner
  {
    assert Step(Step(s, Fetch(k)), MakeGate(k)).setters == s.setters;
  }

  /** After any interleaving, wrapped around or not, a get that nobody interrupts reads the current
      inner source if and only if it fetches it (there is no cache, or the counter, as a `u32`, is
      not 0) or the cache happens to hold it. */
  lemma LoneGetIsCurrentIff(source: nat, inner: nat -> Val, actions: seq<Action>, k: nat)
    requires var s := Run(Init(source, inner), actions); k !in s.getters && !Locked(s, Current(s))
    ensures var s := Run(Init(source, inner), actions);
            var s' := Run(s, LoneGet(k));
            && s'.last.Some? && s'.last.value.value == s.inner(s'.last.value.source)
            && (s'.last.value.source == Current(s) <==>
                  s.cache.None? || s.counted % WRAP != 0 || s.cache.value.source == Current(s))
  {
    Fresh.RunKeepsInv(source, inner, actions);
    var r := LoneGetReads(Run(Init(source, inner), actions), k);
  }

  lemma LoneGetReads(s: State, k: nat) returns (r: Trace)
    requires s.outer != [] && k !in s.getters && !Locked(s, Current(s))
    requires s.cache.Some? ==> s.cache.value.generation == 0
    ensures Leads(s, r) && r.actions == LoneGet(k)
    ensures r.state.last.Some? && r.state.last.value.value == s.inner(r.state.last.value.source)
    ensures r.state.last.value.source
         == if s.cache.Some? && s.counted % WRAP == 0 then s.cache.value.source else Current(s)
  {
    r := Looks(s, k);
    if At(r.state, k).value.Missed? { r := MissReads(s, r, k); } else { r := HitReads(s, r, k); }
    assert r.actions == LoneGet(k);
  }

  /** The first two steps. */
  lemma Looks(s: State, k: nat) returns (r: Trace)
    requires s.outer != [] && k !in s.getters && (s.cache.Some? ==> s.cache.value.generation == 0)
    ensures Leads(s, r) && r.actions == [Start(k), Look(k)] && k in r.state.getters
    ensures r.state == s.(getters := r.state.getters) && r.state.getters[k].ticket.needed == s.counted % WRAP
    ensures r.state.getters[k].stage
         == if s.cache.Some? && s.counted % WRAP == 0 then Chosen(s.cache.value.source, s.cache.value.version)
            else Missed
  {
    r := Go(s, Trace([], s), Start(k));
    r := Go(s, r, Look(k));
  }
}
