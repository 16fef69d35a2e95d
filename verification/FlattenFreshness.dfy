/** With any number of getters and setters at once, a get of a flatten source never returns an
    inner source older than one it could have heard of. */
module FlattenFreshness {
  import opened Wrappers
  import opened FlattenProtocol

  /** `source` is the value the outer cell had at `version`. */
  ghost predicate Was(s: State, source: nat, version: nat) {
    version < |s.outer| && s.outer[version] == source
  }

  ghost predicate TicketOk(s: State, ticket: Ticket) {
    && ticket.needed == ticket.seen % WRAP
    && ticket.seen <= s.counted && ticket.floor <= s.announced && ticket.start <= s.notices
    && (ticket.seen == 0 ==> ticket.floor == 0)
  }

  /** The counter has not wrapped around. */
  ghost predicate Unwrapped(s: State) { s.counted < WRAP }

  ghost predicate GetterOk(s: State, g: Getter) {
    && TicketOk(s, g.ticket)
    && match g.stage
       case Loaded => true
       case Missed => true
       case Fetched(x, v) => Was(s, x, v) && g.ticket.floor <= v
       case Gated(x, v, _) => Was(s, x, v) && g.ticket.floor <= v
       case Listening(x, v, _) => Was(s, x, v) && g.ticket.floor <= v
       case Beaten(x, v, _) => Was(s, x, v) && (Unwrapped(s) ==> g.ticket.floor <= v)
       case Chosen(x, v) => Was(s, x, v) && (Unwrapped(s) ==> g.ticket.floor <= v)
  }

  ghost predicate Inv(s: State) {
    && s.announced < |s.outer| && (s.counted == 0 ==> s.announced == 0)
    && (s.cache.Some? ==> s.cache.value.generation == 0 && Was(s, s.cache.value.source, s.cache.value.version))
    && (forall t :: t in s.setters && s.setters[t].OuterReplaced? ==> s.setters[t].version < |s.outer|)
    && (forall k :: k in s.getters ==> GetterOk(s, s.getters[k]))
    && (s.last.Some? ==>
          && Was(s, s.last.value.source, s.last.value.version) && s.last.value.ticket.start <= s.notices
          && (Unwrapped(s) ==> s.last.value.ticket.floor <= s.last.value.version))
  }

  predicate ByGetter(a: Action, k: nat) {
    match a
    case Start(k') => k' == k
    case Look(k') => k' == k
    case Fetch(k') => k' == k
    case MakeGate(k') => k' == k
    case Listen(k') => k' == k
    case Store(k') => k' == k
    case Discard(k') => k' == k
    case Read(k') => k' == k
    case _ => false
  }

  lemma OnlyOneMoves(s: State, a: Action, k: nat)
    requires s.outer != [] && Enabled(s, a) && !ByGetter(a, k)
    ensures k in Step(s, a).getters <==> k in s.getters
    ensures k in s.getters ==> Step(s, a).getters[k] == s.getters[k]
  {
  }

  /** The getter that moved. */
  lemma MoverIsOk(s: State, a: Action, k: nat)
    requires s.outer != [] && Inv(s) && Enabled(s, a) && ByGetter(a, k) && k in Step(s, a).getters
    ensures GetterOk(Step(s, a), Step(s, a).getters[k])
  {
    if k in s.getters { assert GetterOk(s, s.getters[k]); }
    match a
    case Start(_) =>
    case Look(_) =>
    case Store(_) =>
    case _ =>
  }

  /** History only grows. */
  lemma HistoryGrows(s: State, a: Action)
    requires s.outer != [] && Inv(s) && Enabled(s, a)
    ensures var s' := Step(s, a);
            && s.outer <= s'.outer && s.counted <= s'.counted && s.announced <= s'.announced && s.notices <= s'.notices
            && s'.announced < |s'.outer| && (s'.counted == 0 ==> s'.announced == 0)
  {
  }

  lemma SettersAreOk(s: State, a: Action, t: nat)
    requires s.outer != [] && Inv(s) && Enabled(s, a)
    requires t in Step(s, a).setters && Step(s, a).setters[t].OuterReplaced?
    ensures Step(s, a).setters[t].version < |Step(s, a).outer|
  {
  }

  lemma CacheIsOk(s: State, a: Action)
    requires s.outer != [] && Inv(s) && Enabled(s, a)
    ensures var s' := Step(s, a);
            s'.cache == s.cache || (s'.outer == s.outer && s'.cache.Some? && s'.cache.value.generation == 0
                                    && Was(s', s'.cache.value.source, s'.cache.value.version))
  {
    if a.Store? { assert GetterOk(s, s.getters[a.k]); }
  }

  lemma LastIsOk(s: State, a: Action)
    requires s.outer != [] && Inv(s) && Enabled(s, a)
    ensures var s' := Step(s, a);
            s'.last == s.last || (s'.outer == s.outer && s'.counted == s.counted && s'.last.Some?
                                  && Was(s', s'.last.value.source, s'.last.value.version)
                                  && s'.last.value.ticket.start <= s'.notices
                                  && (Unwrapped(s') ==> s'.last.value.ticket.floor <= s'.last.value.version))
  {
    if a.Read? { assert GetterOk(s, s.getters[a.k]); }
  }

  lemma StepKeepsInv(s: State, a: Action)
    requires s.outer != [] && Inv(s) && Enabled(s, a)
    ensures Inv(Step(s, a))
  {
    HistoryGrows(s, a);
    CacheIsOk(s, a);
    LastIsOk(s, a);
    forall t | t in Step(s, a).setters && Step(s, a).setters[t].OuterReplaced?
      ensures Step(s, a).setters[t].version < |Step(s, a).outer|
    {
      SettersAreOk(s, a, t);
    }
    forall k | k in Step(s, a).getters ensures GetterOk(Step(s, a), Step(s, a).getters[k]) {
      if ByGetter(a, k) {
        MoverIsOk(s, a, k);
      } else {
        OnlyOneMoves(s, a, k);
      }
    }
  }

  lemma {:induction false} RunKeepsInv(source: nat, inner: nat -> Val, actions: seq<Action>)
    ensures Inv(Run(Init(source, inner), actions))
  {
    if actions != [] {
      var front := actions[..|actions| - 1];
      RunKeepsInv(source, inner, front);
      var s1 := Run(Init(source, inner), front);
      if Enabled(s1, actions[|actions| - 1]) { StepKeepsInv(s1, actions[|actions| - 1]); }
    }
  }

  /** In every interleaving (of fewer than 2^32 outer notifications), the inner source a get is
      about to read, and the one the last get did read, was a value of the outer cell at least
      as new as every value that had been announced when that get began
      (src/source/flatten.rs:88-127, 174-180; src/cell.rs:108-109). */
  lemma GetsAreFresh(source: nat, inner: nat -> Val, actions: seq<Action>)
    ensures var s := Run(Init(source, inner), actions);
            Unwrapped(s) ==>
              && (forall k :: k in s.getters && s.getters[k].stage.Chosen? ==>
                    var Getter(ticket, Chosen(x, version)) := s.getters[k];
                    Was(s, x, version) && ticket.floor <= version)
              && (s.last.Some? ==>
                    Was(s, s.last.value.source, s.last.value.version)
                    && s.last.value.ticket.floor <= s.last.value.version)
  {
    RunKeepsInv(source, inner, actions);
  }

  /** The next step of a get. */
  function NextOf(stage: Stage, k: nat): Action {
    match stage
    case Loaded => Look(k)
    case Missed => Fetch(k)
    case Fetched(_, _) => MakeGate(k)
    case Gated(_, _, _) => Action.Listen(k)
    case Listening(_, _, _) => Store(k)
    case Beaten(_, _, _) => Discard(k)
    case Chosen(_, _) => Read(k)
  }

  /** Nobody is stuck: a get can always take its next step, except that to register with a source it
      waits for those who are notifying the listeners of that source, and each of those can always take
      a step. */
  lemma GetterCanMove(s: State, k: nat)
    requires k in s.getters
    ensures var g := s.getters[k].stage;
            Enabled(s, NextOf(g, k)) <==> !(g.Gated? && Locked(s, g.source))
  {
  }

  lemma SetterCanMove(s: State, t: nat) returns (a: Action)
    requires t in s.setters
    ensures Enabled(s, a) && BySetter(a) && a.t == t && !a.SetOuter? && !a.SetInner?
  {
    match s.setters[t]
    case OuterReplaced(_) => a := CountOuter(t);
    case OuterCounted => a := TellOuter(t);
    case InnerReplaced(_) => a := Begin(t);
    case Telling(_, todo) =>
      if todo == {} {
        a := End(t);
      } else {
        var g :| g in todo;
        a := Ask(t, g);
      }
    case Delivering(_, _) => a := Deliver(t);
  }

  lemma {:induction false} AnnouncementsStay(s: State, actions: seq<Action>)
    requires s.outer != []
    ensures s.announced <= Run(s, actions).announced
  {
    if actions != [] { AnnouncementsStay(s, actions[..|actions| - 1]); }
  }

  lemma {:induction false} TicketsStay(s: State, k: nat, actions: seq<Action>)
    requires s.outer != [] && k in s.getters && Read(k) !in actions
    ensures var s' := Run(s, actions); k in s'.getters && s'.getters[k].ticket == s.getters[k].ticket
  {
    if actions != [] {
      var front, a := actions[..|actions| - 1], actions[|actions| - 1];
      assert a in actions;
      TicketsStay(s, k, front);
      if Enabled(Run(s, front), a) { TicketStays(Run(s, front), a, k); }
    }
  }

  lemma TicketStays(s: State, a: Action, k: nat)
    requires s.outer != [] && Enabled(s, a) && k in s.getters && a != Read(k)
    ensures k in Step(s, a).getters && Step(s, a).getters[k].ticket == s.getters[k].ticket
  {
  }

  /** The same in terms of the run alone: if the thread that set the outer cell had counted its
      change before the get began, the get does not return anything older than that change. */
  lemma AnnouncedIsHeard(source: nat, inner: nat -> Val, before: seq<Action>, t: nat, middle: seq<Action>, k: nat,
                         after: seq<Action>)
    requires Enabled(Run(Init(source, inner), before), CountOuter(t))
    requires Enabled(Run(Init(source, inner), before + [CountOuter(t)] + middle), Start(k))
    requires Read(k) !in after
    ensures var s0 := Run(Init(source, inner), before);
            var s := Run(Init(source, inner), before + [CountOuter(t)] + middle + [Start(k)] + after);
            Unwrapped(s) && At(s, k).Some? && At(s, k).value.Chosen? ==>
              At(s, k).value.version >= s0.setters[t].version
  {
    var init := Init(source, inner);
    var s0 := Run(init, before);
    var s1 := Run(init, before + [CountOuter(t)]);
    RunOne(init, before, CountOuter(t));
    var s2 := Run(init, before + [CountOuter(t)] + middle);
    RunInTwo(init, before + [CountOuter(t)], middle);
    AnnouncementsStay(s1, middle);
    var started := before + [CountOuter(t)] + middle + [Start(k)];
    RunOne(init, before + [CountOuter(t)] + middle, Start(k));
    RunInTwo(init, started, after);
    TicketsStay(Run(init, started), k, after);
    RunKeepsInv(source, inner, started + after);
  }
}
