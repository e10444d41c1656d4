/**
 The capacity-1 wakeup channel of the task queue, at the grain of its lock
 (internal/taskqueue/queue.go): any number of producers append and signal under the
 lock; each consumer checks the slice under the lock, lets go, and waits for a token.
 */
module Wakeup {

  datatype Consumer =
    | Ready            // at the top of Next's loop
    | Checking         // holds the lock
    | Waiting          // saw an empty slice, let go of the lock, and is at the select
    | Working          // has a task
    | Stopped          // its context ended

  datatype Holder =
    | Free
    | Producing        // Enqueue, before the append
    | Appended         // Enqueue, between the append and the signal
    | Signalled        // Enqueue, after the signal
    | Consuming(who: nat)

  datatype World = World(lock: Holder, length: nat, token: bool, consumers: seq<Consumer>)

  datatype Step =
    | Acquire | Refuse | Append | Signal | Release
    | Check(who: nat) | Take(who: nat) | FoundEmpty(who: nat) | Wake(who: nat) | Stop(who: nat) | Return(who: nat)

  ghost predicate Init(w: World, n: nat) {
    w.lock == Free && |w.consumers| == n && (w.length > 0 ==> w.token) // loading signals when it found tasks
    && forall i :: 0 <= i < n ==> w.consumers[i] == Ready
  }

  function Moved(w: World, who: nat, c: Consumer): World
    requires who < |w.consumers|
  {
    w.(consumers := w.consumers[who := c])
  }

  ghost predicate At(w: World, who: nat, c: Consumer) {
    who < |w.consumers| && w.consumers[who] == c
  }

  ghost predicate Moves(w: World, step: Step, w': World) {
    match step
    case Acquire => w.lock == Free && w' == w.(lock := Producing)
    case Refuse => w.lock == Producing && w' == w.(lock := Free) // the queue was full
    case Append => w.lock == Producing && w' == w.(lock := Appended, length := w.length + 1)
    case Signal => w.lock == Appended && w' == w.(lock := Signalled, token := true) // a full channel keeps its token
    case Release => w.lock == Signalled && w' == w.(lock := Free)
    case Check(i) => w.lock == Free && At(w, i, Ready) && w' == Moved(w, i, Checking).(lock := Consuming(i))
    case Take(i) =>
      && At(w, i, Checking) && w.lock == Consuming(i) && w.length > 0
      && w' == Moved(w, i, Working).(lock := Free, length := w.length - 1)
    case FoundEmpty(i) =>
      && At(w, i, Checking) && w.lock == Consuming(i) && w.length == 0
      && w' == Moved(w, i, Waiting).(lock := Free)
    case Wake(i) => At(w, i, Waiting) && w.token && w' == Moved(w, i, Ready).(token := false)
    case Stop(i) => At(w, i, Waiting) && w' == Moved(w, i, Stopped)
    case Return(i) => At(w, i, Working) && w' == Moved(w, i, Ready)
  }

  ghost predicate IsRun(n: nat, ws: seq<World>, steps: seq<Step>) {
    |ws| == |steps| + 1 && Init(ws[0], n)
    && forall i :: 0 <= i < |steps| ==> Moves(ws[i], steps[i], ws[i + 1])
  }

  ghost predicate Asleep(c: Consumer) {
    c == Waiting || c == Stopped
  }

  ghost predicate AllAsleep(w: World) {
    forall i :: 0 <= i < |w.consumers| ==> Asleep(w.consumers[i])
  }

  /** Work left with everyone asleep always comes with a token, once the producer has signalled. */
  ghost predicate Awake(w: World) {
    && (w.length > 0 && w.lock != Appended && AllAsleep(w) ==> w.token)
    && (forall i :: 0 <= i < |w.consumers| && w.consumers[i] == Checking ==> w.lock == Consuming(i))
    && (w.lock.Consuming? ==> At(w, w.lock.who, Checking))
  }

  lemma {:induction false} AwakePreserved(w: World, step: Step, w': World)
    requires Awake(w) && Moves(w, step, w')
    ensures Awake(w')
  {
    match step {
      case Check(i) => assert At(w', i, Checking);
      case Take(i) => assert At(w', i, Working);
      case FoundEmpty(i) => assert w'.length == 0;
      case Wake(i) => assert At(w', i, Ready);
      case Return(i) => assert At(w', i, Ready);
      case Stop(i) =>
        if AllAsleep(w') {
          assert forall j :: 0 <= j < |w.consumers| && j != i ==> w'.consumers[j] == w.consumers[j];
          assert AllAsleep(w);
        }
      case _ =>
        assert w'.consumers == w.consumers;
    }
  }

  lemma {:induction false} AwakeAlways(n: nat, ws: seq<World>, steps: seq<Step>, i: nat)
    requires IsRun(n, ws, steps) && i < |ws|
    ensures Awake(ws[i]) && |ws[i].consumers| == n
  {
    if i > 0 {
      AwakeAlways(n, ws, steps, i - 1);
      AwakePreserved(ws[i - 1], steps[i - 1], ws[i]);
    }
  }

  /**
   No lost wakeup, for the runtime's one consumer: in every interleaving, if it waits
   and the queue holds a task, the channel holds a token, except between an append and
   the signal that follows it under the same lock.
   */
  lemma {:induction false} NoLostWakeup(ws: seq<World>, steps: seq<Step>, i: nat)
    requires IsRun(1, ws, steps) && i < |ws|
    ensures At(ws[i], 0, Waiting) && ws[i].length > 0 ==> ws[i].token || ws[i].lock == Appended
  {
    AwakeAlways(1, ws, steps, i);
    if At(ws[i], 0, Waiting) {
      assert AllAsleep(ws[i]);
    }
  }

  /** With any number of consumers, they are never all waiting while work is left and no token is out. */
  lemma {:induction false} SomeoneIsAwake(n: nat, ws: seq<World>, steps: seq<Step>, i: nat)
    requires IsRun(n, ws, steps) && i < |ws| && ws[i].length > 0 && !ws[i].token && ws[i].lock != Appended
    ensures exists j :: 0 <= j < |ws[i].consumers| && !Asleep(ws[i].consumers[j])
  {
    AwakeAlways(n, ws, steps, i);
  }

  /**
   The wakeup is not only there but used: whenever the lock is free and work is left, a
   consumer that has not stopped reaches the task by its own steps alone.
   */
  lemma {:induction false} ConsumerCanAlwaysProceed(ws: seq<World>, steps: seq<Step>, i: nat)
      returns (more: seq<Step>, rest: seq<World>)
    requires IsRun(1, ws, steps) && i < |ws| && ws[i].lock == Free && ws[i].length > 0
    requires !At(ws[i], 0, Stopped)
    ensures |rest| == |more| + 1 <= 4 && rest[0] == ws[i] && rest[|more|].length == ws[i].length - 1
    ensures At(rest[|more|], 0, Working)
    ensures forall k :: 0 <= k < |more| ==>
                          Moves(rest[k], more[k], rest[k + 1]) && more[k] in {Wake(0), Return(0), Check(0), Take(0)}
  {
    AwakeAlways(1, ws, steps, i);
    var w := ws[i];
    var c := w.consumers[0];
    if c == Waiting {
      NoLostWakeup(ws, steps, i);
    }
    var ready := if c == Waiting then Moved(w, 0, Ready).(token := false) else Moved(w, 0, Ready);
    var checking := Moved(ready, 0, Checking).(lock := Consuming(0));
    var done := Moved(checking, 0, Working).(lock := Free, length := w.length - 1);
    if c == Ready {
      assert ready == w;
      more, rest := [Check(0), Take(0)], [w, checking, done];
    } else {
      more := [if c == Waiting then Wake(0) else Return(0), Check(0), Take(0)];
      rest := [w, ready, checking, done];
    }
  }

  function StarvingWorlds(): (ws: seq<World>)
    ensures |ws| == 16
  {
    var r, c, z := Ready, Checking, Waiting;
    [World(Free, 0, false, [r, r]),
     World(Consuming(0), 0, false, [c, r]), World(Free, 0, false, [z, r]),
     World(Consuming(1), 0, false, [z, c]), World(Free, 0, false, [z, z]),
     World(Producing, 0, false, [z, z]), World(Appended, 1, false, [z, z]),
     World(Signalled, 1, true, [z, z]), World(Free, 1, true, [z, z]),
     World(Producing, 1, true, [z, z]), World(Appended, 2, true, [z, z]),
     World(Signalled, 2, true, [z, z]), World(Free, 2, true, [z, z]),
     World(Free, 2, false, [r, z]), World(Consuming(0), 2, false, [c, z]),
     World(Free, 1, false, [Working, z])]
  }

  function StarvingSteps(): (steps: seq<Step>)
    ensures |steps| == 15
  {
    [Check(0), FoundEmpty(0), Check(1), FoundEmpty(1),
     Acquire, Append, Signal, Release, Acquire, Append, Signal, Release,
     Wake(0), Check(0), Take(0)]
  }

  lemma {:induction false} BothFallAsleep()
    ensures forall i :: 0 <= i < 4 ==> Moves(StarvingWorlds()[i], StarvingSteps()[i], StarvingWorlds()[i + 1])
  {
  }

  lemma {:induction false} TwoTasksArrive()
    ensures forall i :: 4 <= i < 12 ==> Moves(StarvingWorlds()[i], StarvingSteps()[i], StarvingWorlds()[i + 1])
  {
  }

  lemma {:induction false} OneWakes()
    ensures forall i :: 12 <= i < 15 ==> Moves(StarvingWorlds()[i], StarvingSteps()[i], StarvingWorlds()[i + 1])
  {
  }

  /**
   The single consumer is needed: with two, one can wait beside a queued task with no
   token in the channel while the other is busy, because two signals share one slot.
   */
  lemma {:induction false} TwoConsumersCanStarveOne() returns (ws: seq<World>, steps: seq<Step>)
    ensures IsRun(2, ws, steps)
    ensures var w := ws[|steps|];
            At(w, 0, Working) && At(w, 1, Waiting) && w.length > 0 && !w.token && w.lock == Free
  {
    ws, steps := StarvingWorlds(), StarvingSteps();
    BothFallAsleep();
    TwoTasksArrive();
    OneWakes();
  }
}
