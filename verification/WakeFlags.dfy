/** `WakeFlag` on one thread, where a poll and the drop of a listener are each one step
    (src/future.rs:95-276). */
module WakeFlags {
  import opened Wrappers

  /** `woken`: the waker has been called since the task was last polled. */
  datatype Flag = Flag(notified: bool, listeners: nat, waker: bool, woken: bool)

  datatype Op =
    | Message                                // a listener receives a non-empty batch
    | Query                                  // a listener receives an empty one
    | Notify                                 // WakeFlag::notify, by the owner
    | CloneListener
    | DropListener
    | Poll

  function New(wakeImmediately: bool): Flag { Flag(wakeImmediately, 1, false, false) }

  function Wake(f: Flag): Flag { f.(waker := false, woken := f.woken || f.waker) }

  /** `None` is `Poll::Pending`, or an operation that returns nothing. */
  function Do(f: Flag, op: Op): (r: (Flag, Option<bool>))
    requires op.Message? || op.Query? || op.CloneListener? || op.DropListener? ==> f.listeners > 0
  {
    match op
    case Message => (Wake(f.(notified := true)), None)
    case Query => (f, None)
    case Notify => (Wake(f.(notified := true)), None)
    case CloneListener => (f.(listeners := f.listeners + 1), None)
    case DropListener => (Wake(f).(listeners := f.listeners - 1), None)
    case Poll =>
      if f.notified then (f.(notified := false, woken := false), Some(true))
      else if f.listeners == 0 then (f.(woken := false), Some(false))
      else (f.(waker := true, woken := false), None)
  }

  class WakeFlag {
    var notified: bool
    var listenersAlive: nat
    var waker: bool
    var woken: bool
    var owned: bool                          // the WakeFlag itself has not been dropped

    ghost function Abs(): Flag
      reads this
    {
      Flag(notified, listenersAlive, waker, woken)
    }

    constructor (wakeImmediately: bool)
      ensures Abs() == New(wakeImmediately) && owned
    {
      notified, listenersAlive, waker, woken, owned := wakeImmediately, 1, false, false, true;
    }

    /** Dropping the `WakeFlag`: its listeners find out when they next receive something. */
    method Drop()
      modifies `owned
      ensures !owned
    {
      owned := false;
    }

    /** `AtomicWaker::wake`. */
    method WakeTask()
      modifies `waker, `woken
      ensures Abs() == Wake(old(Abs()))
    {
      if waker {
        waker, woken := false, true;
      }
    }

    method NotifyMessage()
      modifies `notified, `waker, `woken
      ensures Abs() == Do(old(Abs()), Notify).0
    {
      notified := true;
      WakeTask();
    }

    /** `WakeFlagListener::receive`, for a batch of `n` messages. */
    method Receive(n: nat) returns (alive: bool)
      requires listenersAlive > 0
      modifies `notified, `waker, `woken
      ensures alive == owned
      ensures Abs() == if owned then Do(old(Abs()), if n > 0 then Message else Query).0 else old(Abs())
    {
      if owned {
        if n > 0 {
          NotifyMessage();
        }
        alive := true;
      } else {
        alive := false;
      }
    }

    method CloneListener()
      requires listenersAlive > 0
      modifies `listenersAlive
      ensures Abs() == Do(old(Abs()), Op.CloneListener).0
    {
      listenersAlive := listenersAlive + 1;
    }

    /** The task is woken before the listener stops being counted. */
    method DropListener()
      requires listenersAlive > 0
      modifies `listenersAlive, `waker, `woken
      ensures owned ==> Abs() == Do(old(Abs()), Op.DropListener).0
      ensures !owned ==> Abs() == old(Abs()).(listeners := old(listenersAlive) - 1)
    {
      if owned {
        WakeTask();
      }
      listenersAlive := listenersAlive - 1;
    }

    method GetAndClear() returns (answer: Option<bool>)
      modifies `notified
      ensures !notified
      ensures answer == if old(notified) then Some(true) else if listenersAlive == 0 then Some(false) else None
    {
      var was := notified;
      notified := false;
      if was {
        answer := Some(true);
      } else if listenersAlive == 0 {
        answer := Some(false);
      } else {
        answer := None;
      }
    }

    /** `WakeFlagShared::poll`: look, register, look again. */
    method Poll() returns (answer: Option<bool>)
      modifies `notified, `waker, `woken
      ensures (Abs(), answer) == Do(old(Abs()), Op.Poll)
    {
      woken := false;
      answer := GetAndClear();
      if answer.Some? {
        return;
      }
      waker := true;
      answer := GetAndClear();
    }
  }

  /** `WakeFlagFuture`: polling it again after it has given its answer panics. */
  class WakeFlagFuture {
    const flag: WakeFlag
    var done: bool

    constructor (flag: WakeFlag)
      ensures this.flag == flag && !done
    {
      this.flag, done := flag, false;
    }

    method Poll() returns (r: Outcome<Option<bool>>)
      modifies this`done, flag`notified, flag`waker, flag`woken
      ensures if old(done) then r == Panicked && flag.Abs() == old(flag.Abs()) && done
              else r.Returned? && (flag.Abs(), r.value) == Do(old(flag.Abs()), Op.Poll) && done == r.value.Some?
    {
      if done {
        return Panicked;
      }
      var answer := flag.Poll();
      done := answer.Some?;
      r := Returned(answer);
    }
  }

  // ----- runs

  ghost predicate Allowed(f: Flag, op: Op) {
    op.Message? || op.Query? || op.CloneListener? || op.DropListener? ==> f.listeners > 0
  }

  /** `None` once an operation was not allowed. */
  ghost function Run(f: Flag, ops: seq<Op>): Option<Flag> {
    if ops == [] then Some(f)
    else
      match Run(f, ops[..|ops| - 1])
      case None => None
      case Some(f1) => if Allowed(f1, ops[|ops| - 1]) then Some(Do(f1, ops[|ops| - 1]).0) else None
  }

  // What a reader of the history knows, without the flag.

  /** Something has come in since the last poll. */
  ghost predicate Unconsumed(wakeImmediately: bool, ops: seq<Op>) {
    if exists i :: 0 <= i < |ops| && ops[i].Poll?
    then exists i :: LastPoll(ops, i) && exists j :: i < j < |ops| && (ops[j].Message? || ops[j].Notify?)
    else wakeImmediately || exists j :: 0 <= j < |ops| && (ops[j].Message? || ops[j].Notify?)
  }

  ghost predicate LastPoll(ops: seq<Op>, i: int) {
    0 <= i < |ops| && ops[i].Poll? && forall k :: i < k < |ops| ==> !ops[k].Poll?
  }

  ghost function Clones(ops: seq<Op>): int {
    if ops == [] then 1
    else
      Clones(ops[..|ops| - 1])
      + match ops[|ops| - 1] case CloneListener => 1 case DropListener => -1 case _ => 0
  }

  lemma {:induction false} History(wakeImmediately: bool, ops: seq<Op>)
    requires Run(New(wakeImmediately), ops).Some?
    ensures var f := Run(New(wakeImmediately), ops).value;
            f.listeners == Clones(ops) && f.notified == Unconsumed(wakeImmediately, ops)
  {
    if ops != [] {
      var front, op := ops[..|ops| - 1], ops[|ops| - 1];
      History(wakeImmediately, front);
      UnconsumedStep(wakeImmediately, front, op);
      assert ops == front + [op];
    }
  }

  lemma UnconsumedStep(wakeImmediately: bool, front: seq<Op>, op: Op)
    ensures Unconsumed(wakeImmediately, front + [op])
            <==> !op.Poll? && (op.Message? || op.Notify? || Unconsumed(wakeImmediately, front))
  {
    var ops, n := front + [op], |front|;
    assert ops[n] == op && forall i :: 0 <= i < n ==> ops[i] == front[i];
    if op.Poll? {
      assert LastPoll(ops, n);
      assert ops[n].Poll?;
    } else {
      assert forall i :: LastPoll(front, i) <==> LastPoll(ops, i);
      if i :| 0 <= i < n && front[i].Poll? {
        var last := FindLastPoll(front, i);
      }
    }
  }

  lemma {:induction false} FindLastPoll(ops: seq<Op>, i: nat) returns (last: nat)
    requires i < |ops| && ops[i].Poll?
    ensures LastPoll(ops, last)
    decreases |ops| - i
  {
    if j :| i < j < |ops| && ops[j].Poll? {
      last := FindLastPoll(ops, j);
    } else {
      last := i;
    }
  }

  /** What a poll answers, after any history (src/future.rs:170-177): `true` exactly if
      something has come in since the last poll; `false`, the end of the stream, exactly if
      nothing has and no listener is left; otherwise it is pending. */
  lemma PollTellsTheTruth(wakeImmediately: bool, ops: seq<Op>)
    requires Run(New(wakeImmediately), ops).Some?
    ensures var answer := Do(Run(New(wakeImmediately), ops).value, Poll).1;
            && (answer == Some(true) <==> Unconsumed(wakeImmediately, ops))
            && (answer == Some(false) <==> !Unconsumed(wakeImmediately, ops) && Clones(ops) == 0)
            && (answer == None <==> !Unconsumed(wakeImmediately, ops) && Clones(ops) > 0)
  {
    History(wakeImmediately, ops);
  }

  /** A task that was left pending is woken by the next message and by the drop of a listener,
      the last one included; a query does not wake it. */
  lemma {:induction false} PendingTaskIsWoken(f: Flag, ops: seq<Op>)
    requires Do(f, Poll).1 == None && Run(Do(f, Poll).0, ops).Some?
    requires forall i :: 0 <= i < |ops| ==> !ops[i].Poll?
    ensures var f' := Run(Do(f, Poll).0, ops).value;
            && (f'.woken <==> exists i :: 0 <= i < |ops| && (ops[i].Message? || ops[i].Notify? || ops[i].DropListener?))
            && (f'.waker <==> !f'.woken)
            && (f'.listeners == 0 || f'.notified ==> f'.woken)
  {
    if ops != [] {
      var front := ops[..|ops| - 1];
      PendingTaskIsWoken(f, front);
      assert forall i :: 0 <= i < |front| ==> front[i] == ops[i];
    }
  }

  /** What the polls of a run answered. */
  ghost function Answers(f: Flag, ops: seq<Op>): seq<Option<bool>> {
    if ops == [] then []
    else
      var front := ops[..|ops| - 1];
      Answers(f, front)
      + match Run(f, front)
        case Some(f1) => if ops[|ops| - 1].Poll? then [Do(f1, Poll).1] else []
        case None => []
  }

  /** A `wait` given up while pending leaves no trace: whatever happens later, every later poll
      answers as if it had never been made (src/future.rs:179-181). */
  lemma {:induction false} AbandonedWaitLeavesNoTrace(f: Flag, ops: seq<Op>)
    requires Do(f, Poll).1 == None
    ensures Answers(Do(f, Poll).0, ops) == Answers(f, ops)
    ensures Run(Do(f, Poll).0, ops).Some? <==> Run(f, ops).Some?
    ensures Run(f, ops).Some? ==>
              var (a, b) := (Run(Do(f, Poll).0, ops).value, Run(f, ops).value);
              a.notified == b.notified && a.listeners == b.listeners
  {
    if ops != [] { AbandonedWaitLeavesNoTrace(f, ops[..|ops| - 1]); }
  }

  /** After the end no message can come; unless the owner raises the flag itself, every later
      poll says so again. */
  lemma {:induction false} TheEndIsForEver(f: Flag, ops: seq<Op>)
    requires Do(f, Poll).1 == Some(false) && Run(Do(f, Poll).0, ops).Some?
    requires forall i :: 0 <= i < |ops| ==> !ops[i].Notify?
    ensures var f' := Run(Do(f, Poll).0, ops).value;
            f'.listeners == 0 && !f'.notified && Do(f', Poll).1 == Some(false)
    ensures forall i :: 0 <= i < |ops| ==> ops[i].Poll?
  {
    if ops != [] {
      var front := ops[..|ops| - 1];
      TheEndIsForEver(f, front);
      assert forall i :: 0 <= i < |front| ==> front[i] == ops[i];
    }
  }
}
