/**
 The queue's own operations as runs of the wakeup protocol (internal/taskqueue/queue.go):
 each takes the lock once, and what it does to the slice and to the token is a chain of
 Wakeup's steps. So no wakeup is lost of the queue itself.
 */
module Waking {
  import opened Wrappers
  import opened Events
  import opened TaskQueue
  import opened Wakeup

  // The queue while nobody holds its lock, and its consumers.
  datatype Service = Service(q: State, consumers: seq<Consumer>)

  datatype Op =
    | Enqueued(ev: Event, id: string, now: int, m: Option<Parked>)
    | Refused
    | Looked(who: nat)          // one pass of Next under the lock
    | Woken(who: nat)           // the select took the token
    | Ended(who: nat)           // the select saw the context end
    | Finished(who: nat, t: Task)
    | ParkWritten(p: Parked)
    | ParkInserted(p: Parked)

  function As(x: Service, who: nat, c: Consumer): Service
    requires who < |x.consumers|
  {
    x.(consumers := x.consumers[who := c])
  }

  ghost predicate Is(x: Service, who: nat, c: Consumer) {
    who < |x.consumers| && x.consumers[who] == c
  }

  /** What each does, in terms of the queue's methods. */
  ghost predicate Serves(capacity: nat, x: Service, op: Op, x': Service) {
    match op
    case Enqueued(ev, id, now, m) => |x.q.pending| < capacity && x' == x.(q := EnqueueTo(x.q, ev, id, now, m))
    case Refused => |x.q.pending| >= capacity && x' == x
    case Looked(who) =>
      Is(x, who, Ready)
      && x' == if x.q.pending == [] then As(x, who, Waiting) else As(x, who, Working).(q := TakeTo(x.q))
    case Woken(who) => Is(x, who, Waiting) && x.q.token && x' == As(x, who, Ready).(q := x.q.(token := false))
    case Ended(who) => Is(x, who, Waiting) && x' == As(x, who, Stopped)
    case Finished(who, t) => Is(x, who, Working) && x' == As(x, who, Ready).(q := DoneTo(x.q, t))
    case ParkWritten(p) => x' == x.(q := ParkWriteTo(x.q, p))
    case ParkInserted(p) => x' == x.(q := ParkInsertTo(x.q, p))
  }

  /** Any sequence of operations on a queue just opened, for n consumers. */
  ghost predicate IsService(capacity: nat, n: nat, d: Disk, now: int, xs: seq<Service>, ops: seq<Op>) {
    && |xs| == |ops| + 1
    && OpenTo(d, now, xs[0].q) && |xs[0].consumers| == n && (forall i :: 0 <= i < n ==> xs[0].consumers[i] == Ready)
    && forall i :: 0 <= i < |ops| ==> Serves(capacity, xs[i], ops[i], xs[i + 1])
  }

  /** What the wakeup protocol sees of the queue. */
  function Seen(x: Service, lock: Holder): World {
    World(lock, |x.q.pending|, x.q.token, x.consumers)
  }

  ghost predicate IsChain(ws: seq<World>, steps: seq<Step>) {
    |ws| == |steps| + 1 && forall i :: 0 <= i < |steps| ==> Moves(ws[i], steps[i], ws[i + 1])
  }

  ghost predicate Joins(ws: seq<World>, steps: seq<Step>, w: World, w': World) {
    IsChain(ws, steps) && ws[0] == w && ws[|steps|] == w'
  }

  /** Enqueue takes the lock, appends, signals, and lets go. */
  lemma {:induction false} EnqueueSignals(x: Service, ev: Event, id: string, now: int, m: Option<Parked>)
      returns (ws: seq<World>, steps: seq<Step>)
    ensures var x' := x.(q := EnqueueTo(x.q, ev, id, now, m));
            Joins(ws, steps, Seen(x, Free), Seen(x', Free)) && steps == [Acquire, Append, Signal, Release]
  {
    var x' := x.(q := EnqueueTo(x.q, ev, id, now, m));
    steps := [Acquire, Append, Signal, Release];
    var w := Seen(x, Producing);
    ws := [Seen(x, Free), w, w.(lock := Appended, length := w.length + 1), Seen(x', Signalled), Seen(x', Free)];
  }

  /** Next, under the lock, takes the head or finds nothing; neither touches the token. */
  lemma {:induction false} LookTakesOrWaits(capacity: nat, x: Service, who: nat, x': Service)
      returns (ws: seq<World>, steps: seq<Step>)
    requires Serves(capacity, x, Looked(who), x')
    ensures Joins(ws, steps, Seen(x, Free), Seen(x', Free))
    ensures steps == [Check(who), if x.q.pending == [] then FoundEmpty(who) else Take(who)]
  {
    steps := [Check(who), if x.q.pending == [] then FoundEmpty(who) else Take(who)];
    ws := [Seen(x, Free), Seen(As(x, who, Checking), Consuming(who)), Seen(x', Free)];
  }

  lemma {:induction false} OpIsChain(capacity: nat, x: Service, op: Op, x': Service)
      returns (ws: seq<World>, steps: seq<Step>)
    requires Serves(capacity, x, op, x')
    ensures Joins(ws, steps, Seen(x, Free), Seen(x', Free))
  {
    match op {
      case Enqueued(ev, id, now, m) => ws, steps := EnqueueSignals(x, ev, id, now, m);
      case Refused => ws, steps := [Seen(x, Free), Seen(x, Producing), Seen(x, Free)], [Acquire, Refuse];
      case Looked(who) => ws, steps := LookTakesOrWaits(capacity, x, who, x');
      case Woken(who) => ws, steps := [Seen(x, Free), Seen(x', Free)], [Wake(who)];
      case Ended(who) => ws, steps := [Seen(x, Free), Seen(x', Free)], [Stop(who)];
      case Finished(who, _) => ws, steps := [Seen(x, Free), Seen(x', Free)], [Return(who)];
      case _ => ws, steps := [Seen(x, Free)], [];
    }
  }

  lemma {:induction false} OpenStarts(capacity: nat, n: nat, d: Disk, now: int, xs: seq<Service>, ops: seq<Op>)
    requires IsService(capacity, n, d, now, xs, ops)
    ensures Init(Seen(xs[0], Free), n)
  {
  }

  lemma {:induction false} ChainOn(ws: seq<World>, steps: seq<Step>, more: seq<World>, next: seq<Step>)
    requires IsChain(ws, steps) && IsChain(more, next) && ws[|steps|] == more[0]
    ensures Joins(ws + more[1..], steps + next, ws[0], more[|next|])
  {
    var all, both := ws + more[1..], steps + next;
    forall i | 0 <= i < |both| ensures Moves(all[i], both[i], all[i + 1]) {
      if i >= |steps| {
        assert all[i] == more[i - |steps|] && all[i + 1] == more[i - |steps| + 1];
      }
    }
  }

  /** Whatever the queue and its consumers do after it is opened is a run of the wakeup protocol. */
  lemma {:induction false} ServiceIsRun(
      capacity: nat, n: nat, d: Disk, now: int, xs: seq<Service>, ops: seq<Op>, i: nat)
      returns (ws: seq<World>, steps: seq<Step>)
    requires IsService(capacity, n, d, now, xs, ops) && i < |xs|
    ensures IsRun(n, ws, steps) && ws[|steps|] == Seen(xs[i], Free)
  {
    if i == 0 {
      OpenStarts(capacity, n, d, now, xs, ops);
      ws, steps := [Seen(xs[0], Free)], [];
    } else {
      var more, next := OpIsChain(capacity, xs[i - 1], ops[i - 1], xs[i]);
      ws, steps := ServiceIsRun(capacity, n, d, now, xs, ops, i - 1);
      ChainOn(ws, steps, more, next);
      ws, steps := ws + more[1..], steps + next;
    }
  }

  /**
   No wakeup of the queue is lost: in every sequence of its operations after it is opened,
   whatever was on disk, the one consumer never waits beside a task without a token to take.
   */
  lemma {:induction false} QueueWakesItsConsumer(
      capacity: nat, d: Disk, now: int, xs: seq<Service>, ops: seq<Op>, i: nat)
    requires IsService(capacity, 1, d, now, xs, ops) && i < |xs| && xs[i].q.pending != []
    ensures Is(xs[i], 0, Waiting) ==> xs[i].q.token
    ensures |xs[i].consumers| == 1
  {
    var ws, steps := ServiceIsRun(capacity, 1, d, now, xs, ops, i);
    AwakeAlways(1, ws, steps, |steps|);
    NoLostWakeup(ws, steps, |steps|);
  }
}
