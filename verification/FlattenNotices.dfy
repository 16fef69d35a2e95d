/** When gets do not overlap, a flatten source never leaves a change unannounced. */
module FlattenNotices {
  import opened Wrappers
  import opened FlattenProtocol
  import Fresh = FlattenFreshness
  import Gates = FlattenGates

  /** No get begins while another is in progress. */
  ghost predicate Serial(s: State, actions: seq<Action>)
    requires s.outer != []
  {
    actions != [] ==>
      && Serial(s, actions[..|actions| - 1])
      && (actions[|actions| - 1].Start? ==> Run(s, actions[..|actions| - 1]).getters == map[])
  }

  /** A set of the outer cell that has not been counted yet; or not told to our listeners yet. */
  ghost predicate Uncounted(s: State) {
    exists t :: t in s.setters && s.setters[t].OuterReplaced?
  }

  ghost predicate OuterPending(s: State) {
    exists t :: t in s.setters && (s.setters[t].OuterReplaced? || s.setters[t].OuterCounted?)
  }

  /** A set of an inner cell that is bound to reach our listeners through the cached gate. */
  predicate WillTell(p: Setter, c: Cache) {
    match p
    case InnerReplaced(x) => x == c.source
    case Telling(x, todo) => x == c.source && c.gate in todo
    case Delivering(_, _) => true
    case _ => false
  }

  ghost predicate InnerPending(s: State) {
    s.cache.Some? && exists t :: t in s.setters && WillTell(s.setters[t], s.cache.value)
  }

  /** The source that a getter has picked, if it has. */
  function Picked(stage: Stage): Option<nat> {
    match stage
    case Loaded => None
    case Missed => None
    case Fetched(x, _) => Some(x)
    case Gated(x, _, _) => Some(x)
    case Listening(x, _, _) => Some(x)
    case Beaten(x, _, _) => Some(x)
    case Chosen(x, _) => Some(x)
  }

  ghost predicate RightOrPending(s: State, x: nat) { OuterPending(s) || Current(s) == x }

  /** While nothing has been counted, the cache is right or a count is on its way. */
  ghost predicate CacheInv(s: State) {
    s.counted == 0 && s.cache.Some? ==> Uncounted(s) || Current(s) == s.cache.value.source
  }

  ghost predicate GetterInv(s: State, g: Getter) {
    var onTime := s.notices == g.ticket.start;
    && (match g.stage
        case Loaded => g.ticket.seen == 0 && s.cache.Some? && onTime ==> RightOrPending(s, s.cache.value.source)
        case Missed => true
        case Beaten(_, _, _) => false
        case Chosen(x, _) => s.cache.Some? && s.cache.value.source == x && (onTime ==> RightOrPending(s, x))
        case _ =>
          var x := Picked(g.stage).value;
          (s.counted == 0 ==> Uncounted(s) || Current(s) == x) && (onTime ==> RightOrPending(s, x)))
    && (!g.stage.Loaded? && !g.stage.Chosen? ==> s.cache.None? || g.ticket.needed != 0)
  }

  /** As long as our listeners have heard nothing since the last get began, and no set of the
      outer cell is in progress, the cache is set up to tell them of any inner change. */
  ghost predicate LastInv(s: State, r: Result) {
    && r.ticket.start <= s.notices
    && (s.notices == r.ticket.start && !OuterPending(s) ==>
          && Current(s) == r.source
          && s.cache.Some? && s.cache.value.source == r.source
          && (r.value == s.inner(r.source) || InnerPending(s))
          && (forall k :: k in s.getters && Picked(s.getters[k].stage).Some? ==>
                Picked(s.getters[k].stage).value == r.source))
    && (s.notices == r.ticket.start ==> NewGatesAreOnTheList(s))
  }

  /** A gate about to replace the cached one is on the list of every setter at work. */
  ghost predicate NewGatesAreOnTheList(s: State) {
    forall k, t :: k in s.getters && t in s.setters && s.getters[k].stage.Listening? && s.setters[t].Telling?
                   && s.setters[t].source == s.getters[k].stage.source ==>
      s.getters[k].stage.gate in s.setters[t].todo
  }

  ghost predicate Inv(s: State) {
    && s.outer != []
    && (forall k, k' :: k in s.getters && k' in s.getters ==> k == k')
    && CacheInv(s)
    && (forall k :: k in s.getters ==> GetterInv(s, s.getters[k]))
    && (s.last.Some? ==> LastInv(s, s.last.value))
  }

  ghost predicate AllInv(s: State) {
    Inv(s) && Fresh.Inv(s) && Gates.Inv(s) && Fresh.Unwrapped(s)
  }

  // ----- getters

  lemma LookKeepsInv(s: State, k: nat)
    requires AllInv(s) && Enabled(s, Look(k))
    ensures Inv(Step(s, Look(k)))
  {
    assert Fresh.GetterOk(s, s.getters[k]);
  }

  lemma MakeGateKeepsInv(s: State, k: nat)
    requires AllInv(s) && Enabled(s, MakeGate(k))
    ensures Inv(Step(s, MakeGate(k)))
  {
  }

  lemma ListenKeepsInv(s: State, k: nat)
    requires AllInv(s) && Enabled(s, Listen(k))
    ensures Inv(Step(s, Listen(k)))
  {
  }

  lemma StoreKeepsInv(s: State, k: nat)
    requires AllInv(s) && Enabled(s, Store(k))
    ensures Inv(Step(s, Store(k)))
  {
    var s' := Step(s, Store(k));
    assert GetterInv(s, s.getters[k]) && s'.getters[k].stage.Chosen?;
    if s.last.Some? && s.notices == s.last.value.ticket.start && !OuterPending(s) {
      StoreKeepsInnerPending(s, k);
    }
  }

  lemma StoreKeepsInnerPending(s: State, k: nat)
    requires AllInv(s) && Enabled(s, Store(k)) && NewGatesAreOnTheList(s)
    requires s.cache.Some? && Picked(s.getters[k].stage).value == s.cache.value.source
    requires Step(s, Store(k)).getters[k].stage.Chosen?
    ensures InnerPending(s) ==> InnerPending(Step(s, Store(k)))
  {
    var s' := Step(s, Store(k));
    if InnerPending(s) {
      var t :| t in s.setters && WillTell(s.setters[t], s.cache.value);
      assert WillTell(s'.setters[t], s'.cache.value);
    }
  }

  // ----- setters

  /** What the other setters owe is still owed. */
  lemma OthersStillOwe(s: State, s': State, t0: nat)
    requires s'.cache == s.cache
    requires forall t :: t != t0 ==> Doing(s', t) == Doing(s, t)
    ensures Uncounted(s) ==> Uncounted(s') || (t0 in s.setters && s.setters[t0].OuterReplaced?)
    ensures OuterPending(s) ==>
              OuterPending(s') || (t0 in s.setters && (s.setters[t0].OuterReplaced? || s.setters[t0].OuterCounted?))
    ensures InnerPending(s) ==> InnerPending(s') || (t0 in s.setters && WillTell(s.setters[t0], s.cache.value))
  {
    forall t | t in s.setters && t != t0 ensures t in s'.setters && s'.setters[t] == s.setters[t] {
      assert Doing(s', t) == Doing(s, t);
    }
  }

  /** What setter `t` owes by itself. */
  lemma ThisOneOwes(s: State, t: nat)
    requires t in s.setters
    ensures s.setters[t].OuterReplaced? ==> Uncounted(s)
    ensures s.setters[t].OuterReplaced? || s.setters[t].OuterCounted? ==> OuterPending(s)
    ensures s.cache.Some? && WillTell(s.setters[t], s.cache.value) ==> InnerPending(s)
  {
  }

  lemma SetOuterKeepsInv(s: State, a: Action)
    requires AllInv(s) && Enabled(s, a) && a.SetOuter?
    ensures Inv(Step(s, a))
  {
    ThisOneOwes(Step(s, a), a.t);
  }

  lemma CountOuterKeepsInv(s: State, a: Action)
    requires AllInv(s) && Enabled(s, a) && a.CountOuter?
    ensures Inv(Step(s, a))
  {
    ThisOneOwes(Step(s, a), a.t);
  }

  lemma TellOuterKeepsInv(s: State, a: Action)
    requires AllInv(s) && Enabled(s, a) && a.TellOuter?
    ensures Inv(Step(s, a))
  {
    OthersStillOwe(s, Step(s, a), a.t);
    forall k | k in s.getters ensures s.getters[k].ticket.start <= s.notices { assert Fresh.GetterOk(s, s.getters[k]); }
  }

  lemma SetInnerKeepsInv(s: State, a: Action)
    requires AllInv(s) && Enabled(s, a) && a.SetInner?
    ensures Inv(Step(s, a))
  {
    ThisOneOwes(Step(s, a), a.t);
    OthersStillOwe(s, Step(s, a), a.t);
  }

  lemma BeginKeepsInv(s: State, a: Action)
    requires AllInv(s) && Enabled(s, a) && a.Begin?
    ensures Inv(Step(s, a))
  {
    ThisOneOwes(Step(s, a), a.t);
    OthersStillOwe(s, Step(s, a), a.t);
    forall k | k in s.getters && s.getters[k].stage.Listening?
      ensures (s.getters[k].stage.source, s.getters[k].stage.gate) in s.registered
    {
      assert k in Gates.Holders(s);
    }
  }

  lemma AskKeepsInv(s: State, a: Action)
    requires AllInv(s) && Enabled(s, a) && a.Ask?
    ensures Inv(Step(s, a))
  {
    ThisOneOwes(Step(s, a), a.t);
    OthersStillOwe(s, Step(s, a), a.t);
    forall k | k in s.getters && s.getters[k].stage.Listening? ensures s.getters[k].stage.gate in s.live {
      assert k in Gates.Holders(s) && Gates.Held(s, k) == s.getters[k].stage.gate;
    }
  }

  lemma DeliverKeepsInv(s: State, a: Action)
    requires AllInv(s) && Enabled(s, a) && (a.Deliver? || a.End?)
    ensures Inv(Step(s, a))
  {
    OthersStillOwe(s, Step(s, a), a.t);
    forall k | k in s.getters ensures s.getters[k].ticket.start <= s.notices { assert Fresh.GetterOk(s, s.getters[k]); }
  }

  // ----- runs

  lemma StepKeepsInv(s: State, a: Action)
    requires AllInv(s) && Enabled(s, a) && (a.Start? ==> s.getters == map[])
    ensures Inv(Step(s, a))
  {
    if BySetter(a) { SetterKeepsInv(s, a); } else { GetterKeepsInv(s, a); }
  }

  lemma GetterKeepsInv(s: State, a: Action)
    requires AllInv(s) && Enabled(s, a) && !BySetter(a) && (a.Start? ==> s.getters == map[])
    ensures Inv(Step(s, a))
  {
    match a
    case Start(k) =>
    case Look(k) => LookKeepsInv(s, k);
    case Fetch(k) =>
    case MakeGate(k) => MakeGateKeepsInv(s, k);
    case Listen(k) => ListenKeepsInv(s, k);
    case Store(k) => StoreKeepsInv(s, k);
    case Discard(k) => assert false;
    case Read(k) =>
  }

  lemma SetterKeepsInv(s: State, a: Action)
    requires AllInv(s) && Enabled(s, a) && BySetter(a)
    ensures Inv(Step(s, a))
  {
    match a
    case SetOuter(_, _) => SetOuterKeepsInv(s, a);
    case CountOuter(_) => CountOuterKeepsInv(s, a);
    case TellOuter(_) => TellOuterKeepsInv(s, a);
    case SetInner(_, _, _) => SetInnerKeepsInv(s, a);
    case Begin(_) => BeginKeepsInv(s, a);
    case Ask(_, _) => AskKeepsInv(s, a);
    case Deliver(_) => DeliverKeepsInv(s, a);
    case End(_) => DeliverKeepsInv(s, a);
  }

  lemma {:induction false} RunKeepsInv(source: nat, inner: nat -> Val, actions: seq<Action>)
    requires Serial(Init(source, inner), actions) && Fresh.Unwrapped(Run(Init(source, inner), actions))
    ensures AllInv(Run(Init(source, inner), actions))
  {
    Fresh.RunKeepsInv(source, inner, actions);
    Gates.RunKeepsInv(source, inner, actions);
    if actions != [] {
      var front, a := actions[..|actions| - 1], actions[|actions| - 1];
      var s1 := Run(Init(source, inner), front);
      RunKeepsInv(source, inner, front);
      if Enabled(s1, a) { StepKeepsInv(s1, a); }
    }
  }

  // ----- gets that completed earlier

  /** As if the get that returned `r` were the last to have completed. */
  ghost function Recalling(s: State, r: Result): State { s.(last := Some(r)) }

  /** Only the end of a get makes a difference to that. */
  lemma StepRecalls(s: State, a: Action, r: Result)
    requires s.outer != [] && Enabled(s, a) && !a.Read?
    ensures Enabled(Recalling(s, r), a) && Step(Recalling(s, r), a) == Recalling(Step(s, a), r)
  {
  }

  lemma EndOfGetKeepsInv(s: State, k: nat, r: Result)
    requires AllInv(Recalling(s, r)) && Enabled(s, Read(k))
    ensures AllInv(Recalling(Step(s, Read(k)), r))
  {
    var s', t := Recalling(Step(s, Read(k)), r), Recalling(s, r);
    assert s' == t.(getters := t.getters - {k});
    assert Gates.Holders(s') == Gates.Holders(t) == {};
  }

  lemma StepKeepsRecalled(s: State, a: Action, r: Result)
    requires AllInv(Recalling(s, r)) && Enabled(s, a) && (a.Start? ==> s.getters == map[])
    requires Fresh.Unwrapped(Step(s, a))
    ensures AllInv(Recalling(Step(s, a), r))
  {
    if a.Read? {
      EndOfGetKeepsInv(s, a.k, r);
    } else {
      StepRecalls(s, a, r);
      StepKeepsInv(Recalling(s, r), a);
      Fresh.StepKeepsInv(Recalling(s, r), a);
      Gates.StepKeepsInv(Recalling(s, r), a);
    }
  }

  lemma {:induction false} RunKeepsRecalled(source: nat, inner: nat -> Val, before: seq<Action>, rest: seq<Action>,
                                            r: Result)
    requires Run(Init(source, inner), before).last == Some(r)
    requires Serial(Init(source, inner), before + rest) && Fresh.Unwrapped(Run(Init(source, inner), before + rest))
    ensures AllInv(Recalling(Run(Init(source, inner), before + rest), r))
  {
    if rest == [] {
      assert before + rest == before;
      RunKeepsInv(source, inner, before);
    } else {
      var front, a := rest[..|rest| - 1], rest[|rest| - 1];
      assert (before + rest)[..|before + rest| - 1] == before + front;
      var s1 := Run(Init(source, inner), before + front);
      Fresh.RunKeepsInv(source, inner, before + front);
      if Enabled(s1, a) { Fresh.HistoryGrows(s1, a); }
      RunKeepsRecalled(source, inner, before, front, r);
      if Enabled(s1, a) { StepKeepsRecalled(s1, a, r); }
    }
  }

  /** If nobody is at work, and the value is not the one that `r` returned, our listeners have been
      told since that get began. */
  ghost predicate Told(s: State, r: Result) {
    s.setters == map[] && s.inner(Current(s)) != r.value ==> s.notices > r.ticket.start
  }

  /** In every interleaving in which gets do not overlap each other (and with fewer than 2^32
      outer notifications): after any get has returned a value, however many gets complete after
      it, if the outer source's current inner source comes to have another value and no set is still
      in progress, the listeners of the flatten source have been notified since that get began
      (src/source/flatten.rs:85-128, 168-183; src/cell.rs:105-111). */
  lemma NoMissedChange(source: nat, inner: nat -> Val, before: seq<Action>, rest: seq<Action>)
    requires Serial(Init(source, inner), before + rest) && Run(Init(source, inner), before).last.Some?
    ensures var r := Run(Init(source, inner), before).last.value;
            var s := Run(Init(source, inner), before + rest);
            Fresh.Unwrapped(s) ==> Told(s, r)
  {
    var r, s := Run(Init(source, inner), before).last.value, Run(Init(source, inner), before + rest);
    if Fresh.Unwrapped(s) { ChangeIsTold(source, inner, before, rest, r); }
  }

  lemma ChangeIsTold(source: nat, inner: nat -> Val, before: seq<Action>, rest: seq<Action>, r: Result)
    requires Run(Init(source, inner), before).last == Some(r)
    requires Serial(Init(source, inner), before + rest) && Fresh.Unwrapped(Run(Init(source, inner), before + rest))
    ensures Told(Run(Init(source, inner), before + rest), r)
  {
    RunKeepsRecalled(source, inner, before, rest, r);
    LastIsTold(Run(Init(source, inner), before + rest), r);
  }

  lemma LastIsTold(s: State, r: Result)
    requires s.outer != [] && LastInv(Recalling(s, r), r)
    ensures Told(s, r)
  {
  }

  /** The get that completed last, in particular. */
  lemma LastGetMissesNothing(source: nat, inner: nat -> Val, actions: seq<Action>)
    requires Serial(Init(source, inner), actions)
    ensures var s := Run(Init(source, inner), actions);
            Fresh.Unwrapped(s) && s.last.Some? ==> Told(s, s.last.value)
  {
    assert actions + [] == actions;
    if Run(Init(source, inner), actions).last.Some? { NoMissedChange(source, inner, actions, []); }
  }
}
