/**
 The task pipeline as one state machine: ingest enqueues, one worker takes a task,
 runs calls, and finishes or parks it, and the process can crash and reopen at any
 point between two disk effects. History remembers what a single state forgets, so
 that claims about whole runs are invariants of Sys.
 */
module Pipeline {
  import opened Wrappers
  import opened Events
  import opened TaskQueue
  import opened Approval

  datatype Config = Config(capacity: nat, guarded: set<string>)

  // Park takes three steps because ingest may enqueue between them.
  datatype Phase =
    | Idle
    | Running(task: Task, ran: seq<ToolRun>)
    | Parking(task: Task, question: Parked, inserted: bool)

  datatype Execution = Execution(taskId: string, call: ToolRun)

  datatype History = History(
    tasks: map<string, Task>,  // every task written, as first written
    parks: map<int, Parked>,   // every question, by when it was asked; that is its name from here on
    taken: map<int, string>,   // which task took up a question
    handed: map<string, nat>,  // how often Next returned a task
    cut: map<string, nat>,     // attempts counted by a Next that a crash cut short
    done: set<string>,
    dropped: set<string>,      // removed by loading for too many attempts
    expired: set<int>,         // questions that ran out
    lost: set<int>,            // answered questions that a crash inside Enqueue took with it
    unfiled: set<int>,         // questions whose file went when an older one of their task was settled
    executions: seq<Execution>,
    crashes: nat)

  datatype Sys = Sys(q: State, phase: Phase, h: History, clock: int)

  datatype Step =
    | Enqueue(ev: Event, id: string, now: int, m: Option<Parked>)
    | Refuse
    | Next
    | Run(call: ToolRun)
    | Finish
    | ParkWrite(question: string, keys: seq<string>, pending: Option<PendingCall>, now: int)
    | ParkInsert
    | ParkDone
    | Crash(now: int)
    | CrashInSweep(ev: Event, at: int, gone: set<string>, now: int)
    | CrashInEnqueue(ev: Event, at: int, m: Option<Parked>, now: int)
    | CrashInNext(now: int)

  function Count(m: map<string, nat>, id: string): nat {
    if id in m then m[id] else 0
  }

  function Plus1(m: map<string, nat>, id: string): map<string, nat> {
    m[id := Count(m, id) + 1]
  }

  /** When the questions filed under ids were asked. */
  function Asks(parked: map<string, Parked>, ids: set<string>): set<int> {
    set id | id in ids && id in parked :: parked[id].asked
  }

  /** Settling what memory holds under ids removes files by id alone, newer questions' files too. */
  function Unfiled(s: State, ids: set<string>): set<int> {
    set id | id in ids && id in s.parked && id in s.disk.parked && s.disk.parked[id] != s.parked[id] ::
      s.disk.parked[id].asked
  }

  /** The tasks with a pending file, oldest first: the one in flight, then the slice. */
  function Backlog(s: Sys): seq<Task> {
    (if s.phase.Idle? then [] else [s.phase.task]) + s.q.pending
  }

  const NOTHING: History := History(map[], map[], map[], map[], map[], {}, {}, {}, {}, {}, [], 0)

  // ---------- Steps ----------

  ghost predicate Init(s: Sys) {
    s.clock >= 0 &&
    s == Sys(State(Disk(map[], map[]), [], map[], false), Idle,
             NOTHING, s.clock)
  }

  function Reopened(h: History, d: Disk, now: int): History {
    h.(dropped := h.dropped + (set f | f in OverLimit(d) :: f.id),
       expired := h.expired + Asks(d.parked, Stale(d, now)),
       crashes := h.crashes + 1)
  }

  /** The process dies leaving d on disk, and opens again at now. */
  ghost predicate Restart(d: Disk, h: History, now: int, s': Sys) {
    OpenTo(d, now, s'.q) && s'.phase == Idle && s'.h == Reopened(h, d, now) && s'.clock == now
  }

  predicate IsCrash(step: Step) {
    step.Crash? || step.CrashInSweep? || step.CrashInEnqueue? || step.CrashInNext?
  }

  ghost predicate CrashEnabled(s: Sys, step: Step)
    requires IsCrash(step)
  {
    match step
    case Crash(now) => s.clock < now
    case CrashInSweep(ev, at, gone, now) => s.clock < at < now && gone <= Expired(s.q.parked, ev, at)
    case CrashInEnqueue(ev, at, m, now) => s.clock < at < now && Answers(s.q.parked, ResumeKeys(ev), at, m)
    case CrashInNext(now) => s.clock < now && s.phase == Idle && s.q.pending != []
  }

  /** The files a crash leaves. */
  function CrashDisk(s: Sys, step: Step): Disk
    requires IsCrash(step) && (step.CrashInNext? ==> s.q.pending != [])
  {
    match step
    case Crash(_) => s.q.disk
    case CrashInSweep(_, _, gone, _) => s.q.disk.(parked := s.q.disk.parked - gone)
    case CrashInEnqueue(ev, at, m, _) => ConsumePoint(s.q, ev, at, m)
    case CrashInNext(_) => TakeTo(s.q).disk
  }

  function CrashHistory(s: Sys, step: Step): History
    requires IsCrash(step) && (step.CrashInNext? ==> s.q.pending != [])
  {
    match step
    case Crash(_) => s.h
    case CrashInSweep(_, _, gone, _) =>
      s.h.(expired := s.h.expired + Asks(s.q.parked, gone), unfiled := s.h.unfiled + Unfiled(s.q, gone))
    case CrashInEnqueue(ev, at, m, _) =>
      s.h.(expired := s.h.expired + Asks(s.q.parked, Expired(s.q.parked, ev, at)),
           lost := s.h.lost + if m.Some? then {m.value.asked} else {},
           unfiled := s.h.unfiled + Unfiled(s.q, Expired(s.q.parked, ev, at) + Consumed(m)))
    case CrashInNext(_) => s.h.(cut := Plus1(s.h.cut, s.q.pending[0].id))
  }

  function AfterEnqueue(h: History, s: State, step: Step): History
    requires step.Enqueue?
  {
    h.(tasks := h.tasks[step.id := NewTask(step.ev, step.id, step.now, step.m)],
       taken := if step.m.Some? then h.taken[step.m.value.asked := step.id] else h.taken,
       expired := h.expired + Asks(s.parked, Expired(s.parked, step.ev, step.now)),
       unfiled := h.unfiled + Unfiled(s, Expired(s.parked, step.ev, step.now) + Consumed(step.m)))
  }

  /** What the queue, the worker and a crash do, whatever calls a turn makes or parks. */
  ghost predicate Acts(cfg: Config, s: Sys, step: Step, s': Sys) {
    match step
    case Enqueue(ev, id, now, m) =>
      && |s.q.pending| < cfg.capacity && id !in s.h.tasks && now > s.clock
      && Answers(s.q.parked, ResumeKeys(ev), now, m)
      && s' == Sys(EnqueueTo(s.q, ev, id, now, m), s.phase, AfterEnqueue(s.h, s.q, step), now)
    case Refuse =>
      && |s.q.pending| >= cfg.capacity
      && s' == s
    case Next =>
      && s.phase == Idle && s.q.pending != []
      && var t := Attempt(s.q.pending[0]);
         s' == Sys(TakeTo(s.q), Running(t, []), s.h.(handed := Plus1(s.h.handed, t.id)), s.clock)
    case Run(call) =>
      && s.phase.Running?
      && s' == s.(phase := s.phase.(ran := s.phase.ran + [call]),
                  h := s.h.(executions := s.h.executions + [Execution(s.phase.task.id, call)]))
    case Finish =>
      && s.phase.Running?
      && s' == s.(q := DoneTo(s.q, s.phase.task), phase := Idle, h := s.h.(done := s.h.done + {s.phase.task.id}))
    case ParkWrite(question, keys, call, now) =>
      && s.phase.Running? && now > s.clock
      && var p := NewParked(s.phase.task, question, keys, call, now);
         s' == Sys(ParkWriteTo(s.q, p), Parking(s.phase.task, p, false), s.h.(parks := s.h.parks[now := p]), now)
    case ParkInsert =>
      && s.phase.Parking? && !s.phase.inserted
      && s' == s.(q := ParkInsertTo(s.q, s.phase.question), phase := s.phase.(inserted := true))
    case ParkDone =>
      && s.phase.Parking? && s.phase.inserted
      && s' == s.(q := DoneTo(s.q, s.phase.task), phase := Idle)
    case _ =>
      && CrashEnabled(s, step)
      && Restart(CrashDisk(s, step), CrashHistory(s, step), step.now, s')
  }

  /**
   What a turn may call and park. That the tool-calling loop keeps to it is proved of the
   loop, in Driven; here it is what the guarantees rest on.
   */
  predicate MayAct(cfg: Config, s: Sys, step: Step) {
    match step
    case Run(call) => s.phase.Running? && Permitted(cfg.guarded, s.phase.task, s.phase.ran + [call])
    case ParkWrite(_, _, pending, _) => pending.Some? ==> pending.value.tool in cfg.guarded
    case _ => true
  }

  ghost predicate Moves(cfg: Config, s: Sys, step: Step, s': Sys) {
    Acts(cfg, s, step, s') && MayAct(cfg, s, step)
  }

  /** A run: its states, and the step between each two. */
  ghost predicate IsRun(cfg: Config, states: seq<Sys>, steps: seq<Step>) {
    |states| == |steps| + 1 && Init(states[0]) &&
    forall i :: 0 <= i < |steps| ==> Moves(cfg, states[i], steps[i], states[i + 1])
  }

  // ---------- Files: the disk mirrors the backlog ----------

  ghost predicate Ascending(ts: seq<Task>) {
    forall i, j :: 0 <= i < j < |ts| ==> ts[i].enqueued < ts[j].enqueued
  }

  ghost predicate FilesAre(files: map<Slot, Task>, ts: seq<Task>) {
    && (forall t :: t in ts ==> SlotOf(t) in files && files[SlotOf(t)] == t)
    && (forall f :: f in files ==> files[f] in ts && SlotOf(files[f]) == f)
  }

  /** The pending files are exactly the backlog, in the order of enqueueing, at most one over capacity. */
  ghost predicate Filed(cfg: Config, s: Sys) {
    && FilesAre(s.q.disk.pending, Backlog(s))
    && Ascending(Backlog(s))
    && (forall t :: t in Backlog(s) ==> t.enqueued <= s.clock)
    && |Backlog(s)| <= cfg.capacity + 1
    && (!s.phase.Idle? ==> |s.q.pending| <= cfg.capacity)
  }

  function Survivors(ts: seq<Task>): (r: seq<Task>)
    ensures forall t :: t in r <==> t in ts && Survives(t)
    ensures |r| <= |ts|
  {
    if ts == [] then [] else (if Survives(ts[0]) then [ts[0]] else []) + Survivors(ts[1..])
  }

  lemma {:induction false} SurvivorsAscend(ts: seq<Task>)
    requires Ascending(ts)
    ensures Ascending(Survivors(ts))
  {
    if ts != [] {
      SurvivorsAscend(ts[1..]);
      forall t | t in Survivors(ts[1..]) ensures ts[0].enqueued < t.enqueued {
        assert t in ts[1..];
      }
    }
  }

  /** A sequence in strict order is determined by what it holds. */
  lemma {:induction false} AscendingIsUnique(a: seq<Task>, b: seq<Task>)
    requires Ascending(a) && Ascending(b) && forall t :: t in a <==> t in b
    ensures a == b
  {
    if b != [] {
      assert b[0] in a;
    }
    if a != [] {
      assert a[0] in b;
      assert a[0] == b[0];
      RestAscends(a);
      RestAscends(b);
      AscendingIsUnique(a[1..], b[1..]);
      assert a == [a[0]] + a[1..] && b == [b[0]] + b[1..];
    }
  }

  lemma {:induction false} RestAscends(a: seq<Task>)
    requires Ascending(a) && a != []
    ensures Ascending(a[1..]) && forall t :: t in a[1..] <==> t in a && t != a[0]
  {
    forall t | t in a && t != a[0] ensures t in a[1..] {
      var i :| 0 <= i < |a| && a[i] == t;
      assert a[1..][i - 1] == t;
    }
  }

  /** Reopening rebuilds the backlog in order, minus the tasks out of attempts. */
  lemma {:induction false} LoadedIsSurvivors(d: Disk, ts: seq<Task>, loaded: seq<Task>)
    requires FilesAre(d.pending, ts) && Ascending(ts) && Loaded(d, loaded)
    ensures loaded == Survivors(ts)
    ensures FilesAre(d.pending - OverLimit(d), loaded)
  {
    SurvivorsAscend(ts);
    forall i, j | 0 <= i < j < |loaded| ensures loaded[i].enqueued < loaded[j].enqueued {
      assert loaded[i] in loaded && loaded[j] in loaded;
      SameTimeSameTask(ts, loaded[i], loaded[j]);
    }
    AscendingIsUnique(loaded, Survivors(ts));
  }

  lemma {:induction false} SameTimeSameTask(ts: seq<Task>, a: Task, b: Task)
    requires Ascending(ts) && a in ts && b in ts
    ensures a.enqueued == b.enqueued ==> a == b
  {
    var i :| 0 <= i < |ts| && ts[i] == a;
    var j :| 0 <= j < |ts| && ts[j] == b;
  }

  lemma {:induction false} RewritingTheHead(files: map<Slot, Task>, ts: seq<Task>)
    requires FilesAre(files, ts) && Ascending(ts) && ts != []
    ensures var t := Attempt(ts[0]);
            FilesAre(files[SlotOf(t) := t], [t] + ts[1..]) && Ascending([t] + ts[1..])
  {
    var t := Attempt(ts[0]);
    var files' := files[SlotOf(t) := t];
    assert ts == [ts[0]] + ts[1..];
    forall u | u in [t] + ts[1..] ensures SlotOf(u) in files' && files'[SlotOf(u)] == u {
      if u != t {
        assert u in ts && u.enqueued > t.enqueued;
      }
    }
    forall f | f in files' ensures files'[f] in [t] + ts[1..] && SlotOf(files'[f]) == f {
      if f != SlotOf(t) {
        assert files[f] in ts && files[f] != ts[0];
      }
    }
  }

  lemma {:induction false} RemovingTheHead(files: map<Slot, Task>, ts: seq<Task>)
    requires FilesAre(files, ts) && Ascending(ts) && ts != []
    ensures FilesAre(files - {SlotOf(ts[0])}, ts[1..])
  {
    assert ts == [ts[0]] + ts[1..];
    forall u | u in ts[1..] ensures u.enqueued > ts[0].enqueued && u in ts {
    }
  }

  lemma {:induction false} RestartFiled(cfg: Config, d: Disk, ts: seq<Task>, h: History, clock: int, now: int, s': Sys)
    requires FilesAre(d.pending, ts) && Ascending(ts) && |ts| <= cfg.capacity + 1
    requires forall t :: t in ts ==> t.enqueued <= clock
    requires clock < now && Restart(d, h, now, s')
    ensures Filed(cfg, s') && Backlog(s') == Survivors(ts)
  {
    LoadedIsSurvivors(d, ts, s'.q.pending);
    SurvivorsAscend(ts);
    assert Backlog(s') == s'.q.pending;
  }

  lemma {:induction false} AppendingTheNewest(files: map<Slot, Task>, ts: seq<Task>, t: Task)
    requires FilesAre(files, ts) && Ascending(ts) && forall u :: u in ts ==> u.enqueued < t.enqueued
    ensures FilesAre(files[SlotOf(t) := t], ts + [t]) && Ascending(ts + [t])
  {
    var files' := files[SlotOf(t) := t];
    forall u | u in ts + [t] ensures SlotOf(u) in files' && files'[SlotOf(u)] == u {
    }
    forall i, j | 0 <= i < j < |ts + [t]| ensures (ts + [t])[i].enqueued < (ts + [t])[j].enqueued {
      assert ts[i] in ts;
    }
  }

  /** Every step keeps the mirror, and moves the backlog the way a plain queue would. */
  lemma {:induction false} FiledPreserved(cfg: Config, s: Sys, step: Step, s': Sys)
    requires Filed(cfg, s) && Moves(cfg, s, step, s')
    ensures Filed(cfg, s')
    ensures Simple(step, Backlog(s), Backlog(s'))
  {
    match step {
      case Enqueue(_, _, _, _) => FiledEnqueue(cfg, s, step, s');
      case Next => FiledNext(cfg, s, step, s');
      case Finish => FiledLeave(cfg, s, step, s');
      case ParkDone => FiledLeave(cfg, s, step, s');
      case Refuse =>
      case Run(_) =>
      case ParkWrite(_, _, _, _) =>
      case ParkInsert =>
      case _ => FiledRestart(cfg, s, step, s');
    }
  }

  lemma {:induction false} FiledEnqueue(cfg: Config, s: Sys, step: Step, s': Sys)
    requires Filed(cfg, s) && Moves(cfg, s, step, s') && step.Enqueue?
    ensures Filed(cfg, s') && Simple(step, Backlog(s), Backlog(s'))
  {
    var t := NewTask(step.ev, step.id, step.now, step.m);
    assert Backlog(s') == Backlog(s) + [t];
    AppendingTheNewest(s.q.disk.pending, Backlog(s), t);
  }

  lemma {:induction false} FiledNext(cfg: Config, s: Sys, step: Step, s': Sys)
    requires Filed(cfg, s) && Moves(cfg, s, step, s') && step.Next?
    ensures Filed(cfg, s') && Simple(step, Backlog(s), Backlog(s'))
  {
    var b := Backlog(s);
    assert b == s.q.pending;
    assert Backlog(s') == [Attempt(b[0])] + b[1..];
    RewritingTheHead(s.q.disk.pending, b);
    TailWithin(b, s.clock);
  }

  lemma {:induction false} FiledLeave(cfg: Config, s: Sys, step: Step, s': Sys)
    requires Filed(cfg, s) && Moves(cfg, s, step, s') && (step.Finish? || step.ParkDone?)
    ensures Filed(cfg, s') && Simple(step, Backlog(s), Backlog(s'))
  {
    var b := Backlog(s);
    assert Backlog(s') == b[1..];
    RemovingTheHead(s.q.disk.pending, b);
    TailWithin(b, s.clock);
  }

  lemma {:induction false} FiledRestart(cfg: Config, s: Sys, step: Step, s': Sys)
    requires Filed(cfg, s) && Moves(cfg, s, step, s')
    requires IsCrash(step)
    ensures Filed(cfg, s') && Simple(step, Backlog(s), Backlog(s'))
  {
    var b := Backlog(s);
    if step.CrashInNext? {
      RewritingTheHead(s.q.disk.pending, b);
      TailWithin(b, s.clock);
      b := [Attempt(b[0])] + b[1..];
    }
    RestartFiled(cfg, CrashDisk(s, step), b, CrashHistory(s, step), s.clock, step.now, s');
  }

  lemma {:induction false} TailWithin(b: seq<Task>, clock: int)
    requires b != [] && forall t :: t in b ==> t.enqueued <= clock
    ensures forall t :: t in b[1..] || t == Attempt(b[0]) ==> t.enqueued <= clock
  {
    assert b[0] in b;
  }

  /**
   What a plain in-memory queue would do: append, count an attempt at the head, drop
   the head, or, after a crash, keep what still has attempts left.
   */
  ghost predicate Simple(step: Step, b: seq<Task>, b': seq<Task>) {
    match step
    case Enqueue(ev, id, now, m) => b' == b + [NewTask(ev, id, now, m)]
    case Next => b != [] && b' == [Attempt(b[0])] + b[1..]
    case Finish => b != [] && b' == b[1..]
    case ParkDone => b != [] && b' == b[1..]
    case Crash(_) => b' == Survivors(b)
    case CrashInSweep(_, _, _, _) => b' == Survivors(b)
    case CrashInEnqueue(_, _, _, _) => b' == Survivors(b)
    case CrashInNext(_) => b != [] && b' == Survivors([Attempt(b[0])] + b[1..])
    case _ => b' == b
  }

  /** The states Queue.Enqueue's files pass through are the crash steps of this machine. */
  lemma {:induction false} EnqueuePointsAreCrashPoints(
      s: Sys, ev: Event, id: string, at: int, m: Option<Parked>, d: Disk, now: int) returns (step: Step)
    requires s.clock < at < now && Answers(s.q.parked, ResumeKeys(ev), at, m)
    requires EnqueuePoint(s.q, ev, id, at, m, d) && d != EnqueueTo(s.q, ev, id, at, m).disk
    ensures IsCrash(step) && !step.CrashInNext? && step.now == now && CrashEnabled(s, step) && CrashDisk(s, step) == d
  {
    if SweepPoint(s.q.disk, Expired(s.q.parked, ev, at), d) {
      var gone :| gone <= Expired(s.q.parked, ev, at) && d.parked == s.q.disk.parked - gone;
      step := CrashInSweep(ev, at, gone, now);
    } else {
      step := CrashInEnqueue(ev, at, m, now);
    }
  }
}
