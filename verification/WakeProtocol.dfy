/** `WakeFlag` (src/future.rs) with every atomic access a step of its own: one polling task,
    any number of threads delivering messages, and any number of listeners being dropped.
    `AtomicWaker` is a cell that holds a waker once registered; waking empties it. */
module WakeProtocol {
  import opened Wrappers
  import Alone = WakeFlags

  /** Where the task is in `WakeFlagShared::poll`. */
  datatype Stage =
    | Idle                                   // not polling: other code, or a future was dropped
    | FirstSwap | FirstCount                 // get_and_clear
    | Register
    | SecondSwap | SecondCount               // get_and_clear again
    | Parked                                 // Poll::Pending was returned

  /** `notifiers` are threads between their store and their wake; `droppers` are listeners
      whose destructor has woken the task and not yet released `_alive`. `woken`: the task has
      been woken since its poll began. `overlapped` records that the last count of a parked
      task was read while a listener was in the middle of being dropped. */
  datatype State = State(
    notified: bool, alive: nat, waker: bool, woken: bool, stage: Stage, answers: seq<bool>,
    notifiers: set<nat>, droppers: set<nat>, overlapped: bool)

  datatype Action =
    | Store(t: nat)                          // notify_message, first half
    | Wake(t: nat)                           // notify_message, second half
    | CloneListener
    | DropWake(d: nat)                       // Drop for WakeFlagListener
    | DropRelease(d: nat)                    // and then the drop of its fields
    | StartPoll                              // by the executor, woken or not
    | Cancel                                 // the future is dropped
    | Advance                                // the next step of poll

  ghost predicate Enabled(s: State, a: Action) {
    match a
    case Store(t) => t !in s.notifiers
    case Wake(t) => t in s.notifiers
    case CloneListener => s.alive > |s.droppers|
    case DropWake(d) => d !in s.droppers && s.alive > |s.droppers|
    case DropRelease(d) => d in s.droppers && s.alive > 0
    case StartPoll => s.stage.Idle? || s.stage.Parked?
    case Cancel => s.stage.Parked?
    case Advance => !s.stage.Idle? && !s.stage.Parked?
  }

  /** `AtomicWaker::wake`. */
  function WakeTask(s: State): State {
    s.(waker := false, woken := s.woken || s.waker)
  }

  function Finish(s: State, answer: bool): State {
    s.(stage := Idle, answers := s.answers + [answer])
  }

  function Advanced(s: State): State {
    match s.stage
    case Idle => s
    case FirstSwap => if s.notified then Finish(s.(notified := false), true) else s.(stage := FirstCount)
    case FirstCount => if s.alive == 0 then Finish(s, false) else s.(stage := Register)
    case Register => s.(waker := true, stage := SecondSwap)
    case SecondSwap => if s.notified then Finish(s.(notified := false), true) else s.(stage := SecondCount)
    case SecondCount =>
      if s.alive == 0 then Finish(s, false) else s.(stage := Parked, overlapped := s.droppers != {})
    case Parked => s
  }

  ghost function Step(s: State, a: Action): State
    requires Enabled(s, a)
  {
    match a
    case Store(t) => s.(notified := true, notifiers := s.notifiers + {t})
    case Wake(t) => WakeTask(s).(notifiers := s.notifiers - {t})
    case CloneListener => s.(alive := s.alive + 1)
    case DropWake(d) => WakeTask(s).(droppers := s.droppers + {d})
    case DropRelease(d) => s.(alive := s.alive - 1, droppers := s.droppers - {d})
    case StartPoll => s.(stage := FirstSwap, woken := false, overlapped := false)
    case Cancel => s.(stage := Idle)
    case Advance => Advanced(s)
  }

  /** `WakeFlag::new`. */
  function Init(wakeImmediately: bool): State {
    State(wakeImmediately, 1, false, false, Idle, [], {}, {}, false)
  }

  ghost function Run(s: State, actions: seq<Action>): State {
    if actions == [] then s
    else
      var s1 := Run(s, actions[..|actions| - 1]);
      if Enabled(s1, actions[|actions| - 1]) then Step(s1, actions[|actions| - 1]) else s1
  }

  ghost predicate Inv(s: State) {
    && |s.droppers| <= s.alive
    && (s.stage.SecondSwap? || s.stage.SecondCount? || s.stage.Parked? ==> s.waker || s.woken)
    && (s.stage.SecondCount? || s.stage.Parked? ==> s.woken || !s.notified || s.notifiers != {})
    && (s.stage.Parked? && !s.woken && !s.overlapped ==> s.droppers == {} && s.alive > 0)
  }

  lemma DropKeepsInv(s: State, a: Action)
    requires Inv(s) && Enabled(s, a) && (a.DropWake? || a.DropRelease?)
    ensures Inv(Step(s, a))
  {
    if a.DropWake? {
      assert |s.droppers + {a.d}| == |s.droppers| + 1;
    } else {
      assert |s.droppers - {a.d}| == |s.droppers| - 1;
    }
  }

  lemma StepKeepsInv(s: State, a: Action)
    requires Inv(s) && Enabled(s, a)
    ensures Inv(Step(s, a))
  {
    match a
    case DropWake(_) => DropKeepsInv(s, a);
    case DropRelease(_) => DropKeepsInv(s, a);
    case Advance =>
    case _ =>
  }

  lemma {:induction false} RunKeepsInv(wakeImmediately: bool, actions: seq<Action>)
    ensures Inv(Run(Init(wakeImmediately), actions))
  {
    if actions != [] {
      var front := actions[..|actions| - 1];
      RunKeepsInv(wakeImmediately, front);
      var s1 := Run(Init(wakeImmediately), front);
      if Enabled(s1, actions[|actions| - 1]) { StepKeepsInv(s1, actions[|actions| - 1]); }
    }
  }

  /** No message is slept through (src/future.rs:249-276): in every interleaving, if the task
      is parked and has not been woken, its waker is in place, and either there is no message
      or the thread that stored it is still on its way to the waker. */
  lemma NoLostWakeup(wakeImmediately: bool, actions: seq<Action>)
    ensures var s := Run(Init(wakeImmediately), actions);
            s.stage.Parked? && !s.woken ==> s.waker && (s.notified ==> s.notifiers != {})
  {
    RunKeepsInv(wakeImmediately, actions);
  }

  /** Nor is the end of the stream, as long as the poll did not count the listeners while one
      of them was between waking the task and ceasing to be counted. */
  lemma NoLostEnd(wakeImmediately: bool, actions: seq<Action>)
    ensures var s := Run(Init(wakeImmediately), actions);
            s.stage.Parked? && !s.woken && !s.overlapped ==> s.alive > 0
  {
    RunKeepsInv(wakeImmediately, actions);
  }

  /** Some thread comes to its wake in the course of `more`. */
  ghost predicate Wakes(s: State, more: seq<Action>) {
    more != [] &&
    var front, a := more[..|more| - 1], more[|more| - 1];
    Wakes(s, front) || (a.Wake? && Enabled(Run(s, front), a))
  }

  ghost predicate Delivery(s: State, more: seq<Action>) {
    s.notifiers != {} || exists a :: a in more && a.Store?
  }

  /** Exactly when: from a parked task that has not been woken, let anything happen but a poll:
      listeners are cloned and dropped, messages are delivered, deliveries on their way come to their
      wakes, the future itself may be dropped. If no listener is left in the end, the task has been
      woken if and only if some listener was not yet being dropped when it was parked, or some thread
      has come to its wake; and once no thread is on its way, that is to say that some delivery was on
      its way when the task was parked or has begun since. */
  lemma TheEndIsHeardIff(wakeImmediately: bool, actions: seq<Action>, more: seq<Action>)
    requires var s := Run(Init(wakeImmediately), actions); s.stage.Parked? && !s.woken
    requires StartPoll !in more
    ensures var s := Run(Init(wakeImmediately), actions);
            var s' := Run(s, more);
            && (s'.alive == 0 ==> (s'.woken <==> s.alive > |s.droppers| || Wakes(s, more)))
            && (s'.notifiers == {} ==> (Wakes(s, more) <==> Delivery(s, more)))
  {
    var s := Run(Init(wakeImmediately), actions);
    RunKeepsInv(wakeImmediately, actions);
    ListenersFromParked(s, more);
    DeliveriesFromParked(s, more);
  }

  lemma {:induction false} ListenersFromParked(s: State, more: seq<Action>)
    requires Inv(s) && s.stage.Parked? && !s.woken && StartPoll !in more
    ensures var s' := Run(s, more);
            && Inv(s') && (s'.stage.Parked? || s'.stage.Idle?) && (s'.waker || s'.woken)
            && (if s.alive > |s.droppers| then s'.woken || s'.alive > |s'.droppers| else s'.alive == |s'.droppers|)
            && (Wakes(s, more) ==> s'.woken)
            && (s.alive == |s.droppers| && !Wakes(s, more) ==> !s'.woken)
  {
    if more != [] {
      var front, a := more[..|more| - 1], more[|more| - 1];
      assert a in more;
      ListenersFromParked(s, front);
      var s1 := Run(s, front);
      if Enabled(s1, a) {
        StepKeepsInv(s1, a);
        if a.DropRelease? { assert |s1.droppers - {a.d}| == |s1.droppers| - 1; }
      }
    }
  }

  lemma {:induction false} DeliveriesFromParked(s: State, more: seq<Action>)
    ensures !Delivery(s, more) ==> Run(s, more).notifiers == {}
    ensures Delivery(s, more) ==> Wakes(s, more) || Run(s, more).notifiers != {}
    ensures Wakes(s, more) ==> Delivery(s, more)
  {
    if more != [] {
      var front, a := more[..|more| - 1], more[|more| - 1];
      DeliveriesFromParked(s, front);
      NotifiersStep(Run(s, front), a);
      OneMoreStore(s, front, a);
      assert front + [a] == more;
    }
  }

  lemma NotifiersStep(s: State, a: Action)
    ensures var after := if Enabled(s, a) then Step(s, a).notifiers else s.notifiers;
            && (a.Store? ==> after != {})
            && (a.Wake? && Enabled(s, a) ==> s.notifiers != {})
            && (!a.Store? && s.notifiers == {} ==> after == {})
            && (s.notifiers != {} ==> after != {} || (a.Wake? && Enabled(s, a)))
  {
    if a.Store? { assert a.t in s.notifiers + {a.t}; }
  }

  lemma OneMoreStore(s: State, front: seq<Action>, a: Action)
    ensures Delivery(s, front + [a]) <==> Delivery(s, front) || a.Store?
  {
    assert a in front + [a];
    assert forall b :: b in front ==> b in front + [a];
  }

  /** That exception is real (src/future.rs:227-233, 109, 267-275): the last listener wakes
      nobody, the task then registers its waker and still counts one listener, and the count
      drops to zero. The task is parked for good: no listener is left to wake it. */
  lemma TheEndCanBeMissed() returns (actions: seq<Action>)
    ensures var s := Run(Init(false), actions);
            && s.stage.Parked? && !s.woken && s.alive == 0 && s.notifiers == {} && s.droppers == {}
            && !s.notified && s.overlapped
    ensures forall a :: Enabled(Run(Init(false), actions), a) ==> a.Store? || a.StartPoll? || a.Cancel?
  {
    var s0 := Init(false);
    var s1 := RunOne(s0, [], StartPoll);
    var s2 := RunOne(s0, [StartPoll], Advance);
    var a3 := [StartPoll, Advance];
    var s3 := RunOne(s0, a3, Advance);
    var s4 := RunOne(s0, a3 + [Advance], DropWake(0));
    var a5 := a3 + [Advance] + [DropWake(0)];
    var s5 := RunOne(s0, a5, Advance);
    var s6 := RunOne(s0, a5 + [Advance], Advance);
    var s7 := RunOne(s0, a5 + [Advance] + [Advance], Advance);
    var s8 := RunOne(s0, a5 + [Advance] + [Advance] + [Advance], DropRelease(0));
    actions := a5 + [Advance] + [Advance] + [Advance] + [DropRelease(0)];
    assert s4.stage == Register && s4.droppers == {0} && !s4.waker && !s4.woken;
    assert s7.stage == Parked && s7.overlapped && s7.waker;
  }

  lemma RunOne(s: State, actions: seq<Action>, a: Action) returns (s': State)
    requires Enabled(Run(s, actions), a)
    ensures s' == Run(s, actions + [a]) == Step(Run(s, actions), a)
  {
    s' := Step(Run(s, actions), a);
    assert (actions + [a])[..|actions|] == actions;
  }

  // ----- without interruption

  ghost function Flag(s: State): Alone.Flag {
    Alone.Flag(s.notified, s.alive, s.waker, s.woken)
  }

  /** A poll that nobody interrupts is the single step that module WakeFlags takes it for: the same
      answer, the same flag, count and waker afterwards. */
  lemma PollAlone(s: State) returns (actions: seq<Action>)
    requires Enabled(s, StartPoll)
    ensures forall a :: a in actions ==> a == StartPoll || a == Advance
    ensures var (s', (f, answer)) := (Run(s, actions), Alone.Do(Flag(s), Alone.Poll));
            && Flag(s') == f
            && match answer
               case Some(b) => s'.stage == Idle && s'.answers == s.answers + [b]
               case None => s'.stage == Parked && s'.answers == s.answers
  {
    actions := [StartPoll];
    var s' := RunOne(s, [], StartPoll);
    while s'.stage != Idle && s'.stage != Parked
      invariant s' == Run(s, actions) && forall a :: a in actions ==> a == StartPoll || a == Advance
      invariant s'.alive == s.alive
      invariant s'.stage in {FirstCount, Register, SecondSwap, SecondCount} ==> !s.notified && !s'.notified
      invariant s'.stage in {Register, SecondSwap, SecondCount} ==> s.alive > 0
      invariant s'.stage == FirstSwap ==> s'.notified == s.notified
      invariant s'.stage in {FirstSwap, FirstCount, Register} ==> s'.waker == s.waker
      invariant s'.stage in {SecondSwap, SecondCount} ==> s'.waker
      invariant s'.stage !in {Idle, Parked} ==> s'.answers == s.answers && !s'.woken
      invariant s'.stage in {Idle, Parked} ==>
                  var (f, answer) := Alone.Do(Flag(s), Alone.Poll);
                  && Flag(s') == f
                  && match answer
                     case Some(b) => s'.stage == Idle && s'.answers == s.answers + [b]
                     case None => s'.stage == Parked && s'.answers == s.answers
      decreases match s'.stage
                case FirstSwap => 5 case FirstCount => 4 case Register => 3
                case SecondSwap => 2 case SecondCount => 1 case _ => 0
    {
      s' := RunOne(s, actions, Advance);
      actions := actions + [Advance];
    }
  }

  /** So are a delivery and the drop of a listener. */
  lemma OthersAlone(s: State, t: nat)
    requires t !in s.notifiers && t !in s.droppers && s.alive > |s.droppers|
    ensures Flag(Step(Step(s, Store(t)), Wake(t))) == Alone.Do(Flag(s), Alone.Message).0
    ensures Flag(Step(Step(s, DropWake(t)), DropRelease(t))) == Alone.Do(Flag(s), Alone.DropListener).0
    ensures Flag(Step(s, CloneListener)) == Alone.Do(Flag(s), Alone.CloneListener).0
    ensures s.stage.Parked? ==> Flag(Step(s, Cancel)) == Flag(s) && Step(s, Cancel).stage.Idle?
  {
  }
}
