/**
 The pipeline with the tool-calling loop inside it (internal/agent/runtime.go,
 internal/agent/loop.go): nothing here says which calls a turn may make. A turn makes the
 calls the loop makes and ends as the loop ends, and that such runs are runs of the
 pipeline is proved.
 */
module Driven {
  import opened Wrappers
  import opened TaskQueue
  import opened Approval
  import opened Host
  import opened LoopSpec
  import opened Pipeline
  import opened Guarantees
  import opened LoopAuthority
  import LoopOutcomes
  import LoopPairing

  // What a turn is taken with: model, servers, clock and connector, and how things stood before it.
  datatype Setting = Setting(env: Env, start: Progress)

  // The pipeline, and the setting of the turn under way.
  datatype World = World(s: Sys, now: Setting)

  /** Any setting at all whose catalog has the guarded tools, for a turn that has awaited nothing yet. */
  ghost predicate Fits(cfg: Config, x: Setting) {
    ProperNames(x.env.catalog) && Guarded(x.env.catalog) == cfg.guarded
    && x.start.turn.pending == None && x.start.turn.await == None
  }

  function Outcome(x: Setting, t: Task): Progress
    requires ProperNames(x.env.catalog)
  {
    HandleTo(x.env, t, x.start)
  }

  /** The calls the loop makes in a turn of t. */
  function Calls(x: Setting, t: Task): seq<ToolRun>
    requires ProperNames(x.env.catalog)
  {
    Since(Outcome(x, t).ran, |x.start.ran|)
  }

  /** The worker does next what the loop did next, and parks exactly what the loop left to park. */
  ghost predicate Follows(d: World, step: Step)
    requires d.s.phase.Running? && ProperNames(d.now.env.catalog)
  {
    var calls, end := Calls(d.now, d.s.phase.task), Outcome(d.now, d.s.phase.task).turn;
    match step
    case Run(call) => |d.s.phase.ran| < |calls| && call == calls[|d.s.phase.ran|]
    case Finish => d.s.phase.ran == calls && end.await.None?
    case ParkWrite(question, keys, pending, _) =>
      d.s.phase.ran == calls && end.await == Some(Await(question, keys)) && pending == end.pending
    case _ => true
  }

  ghost predicate Drives(cfg: Config, d: World, step: Step, d': World) {
    && Acts(cfg, d.s, step, d'.s)
    && (if step.Next? then Fits(cfg, d'.now) else d'.now == d.now)
    && (d.s.phase.Running? ==> Fits(cfg, d.now) && Follows(d, step))
  }

  ghost predicate IsDrivenRun(cfg: Config, ds: seq<World>, steps: seq<Step>) {
    |ds| == |steps| + 1 && Init(ds[0].s) &&
    forall i :: 0 <= i < |steps| ==> Drives(cfg, ds[i], steps[i], ds[i + 1])
  }

  // ---------- The loop keeps to what the pipeline allows ----------

  /** A turn under way has made a first part of the loop's calls. */
  ghost predicate OnScript(cfg: Config, d: World) {
    d.s.phase.Running? ==> Fits(cfg, d.now) && d.s.phase.ran <= Calls(d.now, d.s.phase.task)
  }

  lemma {:induction false} LoopMayAct(cfg: Config, d: World, step: Step)
    requires d.s.phase.Running? && OnScript(cfg, d) && Follows(d, step)
    ensures MayAct(cfg, d.s, step)
  {
    var t, calls := d.s.phase.task, Calls(d.now, d.s.phase.task);
    TurnRunsOnlyPermittedCalls(d.now.env, t, d.now.start);
    if step.Run? {
      var ran := d.s.phase.ran;
      assert ran + [step.call] == calls[..|ran| + 1];
      PermittedPrefix(cfg.guarded, t, calls, |ran| + 1);
    }
  }

  lemma {:induction false} ScriptKept(cfg: Config, d: World, step: Step, d': World)
    requires Drives(cfg, d, step, d') && OnScript(cfg, d)
    ensures OnScript(cfg, d')
  {
    if d.s.phase.Running? && step.Run? {
      var ran, calls := d.s.phase.ran, Calls(d.now, d.s.phase.task);
      assert ran + [step.call] == calls[..|ran| + 1];
    }
  }

  lemma {:induction false} DrivesMove(cfg: Config, d: World, step: Step, d': World)
    requires Drives(cfg, d, step, d') && OnScript(cfg, d)
    ensures Moves(cfg, d.s, step, d'.s)
  {
    if d.s.phase.Running? {
      LoopMayAct(cfg, d, step);
    }
  }

  function Systems(ds: seq<World>): (r: seq<Sys>)
    ensures |r| == |ds| && forall i :: 0 <= i < |ds| ==> r[i] == ds[i].s
  {
    seq(|ds|, i requires 0 <= i < |ds| => ds[i].s)
  }

  lemma StartsIdle(s: Sys)
    requires Init(s)
    ensures s.phase.Idle?
  {
  }

  lemma {:induction false} AlwaysOnScript(cfg: Config, ds: seq<World>, steps: seq<Step>, i: nat)
    requires IsDrivenRun(cfg, ds, steps) && i < |ds|
    ensures OnScript(cfg, ds[i])
  {
    if i == 0 {
      StartsIdle(ds[0].s);
    } else {
      AlwaysOnScript(cfg, ds, steps, i - 1);
      ScriptKept(cfg, ds[i - 1], steps[i - 1], ds[i]);
    }
  }

  lemma {:induction false} StepMoves(cfg: Config, ds: seq<World>, steps: seq<Step>, i: nat)
    requires IsDrivenRun(cfg, ds, steps) && i < |steps|
    ensures Moves(cfg, ds[i].s, steps[i], ds[i + 1].s)
  {
    AlwaysOnScript(cfg, ds, steps, i);
    DrivesMove(cfg, ds[i], steps[i], ds[i + 1]);
  }

  /** However models, servers, users and crashes behave, a run with the loop in it is a run of the pipeline. */
  lemma {:induction false} DrivenRunsAreRuns(cfg: Config, ds: seq<World>, steps: seq<Step>)
    requires IsDrivenRun(cfg, ds, steps)
    ensures IsRun(cfg, Systems(ds), steps)
  {
    var states := Systems(ds);
    forall i | 0 <= i < |steps| ensures Moves(cfg, states[i], steps[i], states[i + 1]) {
      StepMoves(cfg, ds, steps, i);
    }
  }

  /**
   Approvals run exactly what was proposed, of the loop itself: whatever the model answers,
   a guarded call that ran was put to the user in a question, a later event with one of the
   question's keys and a plain yes took that up, and the call is the very one proposed.
   */
  lemma {:induction false} LoopCallsWereApproved(cfg: Config, ds: seq<World>, steps: seq<Step>, i: nat, k: nat)
    requires IsDrivenRun(cfg, ds, steps) && i < |ds|
    requires k < |ds[i].s.h.executions| && ds[i].s.h.executions[k].call.tool in cfg.guarded
    ensures var h, e := ds[i].s.h, ds[i].s.h.executions[k];
            exists a ::
              && a in h.parks && a in h.taken && h.taken[a] == e.taskId && e.taskId in h.tasks
              && h.parks[a].pending.Some?
              && e.call == ToolRun(h.parks[a].pending.value.tool, h.parks[a].pending.value.arguments)
              && TakesUp(h.tasks[e.taskId], h.parks[a])
              && Approved(h.tasks[e.taskId].event.content)
  {
    DrivenRunsAreRuns(cfg, ds, steps);
    GuardedCallsWereApproved(cfg, Systems(ds), steps, i, k);
  }

  /** s' has s's record, and step's own call after it if that is a call. */
  ghost predicate Records(s: Sys, step: Step, s': Sys) {
    if step.Run? then s.phase.Running? && s'.h.executions == s.h.executions + [Execution(s.phase.task.id, step.call)]
    else s'.h.executions == s.h.executions
  }

  lemma {:induction false} StepRecords(cfg: Config, s: Sys, step: Step, s': Sys)
    requires Acts(cfg, s, step, s')
    ensures Records(s, step, s')
  {
  }

  lemma {:induction false} OnlyRunsAreRecorded(cfg: Config, ds: seq<World>, steps: seq<Step>, i: nat)
    requires IsDrivenRun(cfg, ds, steps) && i < |steps|
    ensures Records(ds[i].s, steps[i], ds[i + 1].s)
  {
    assert Drives(cfg, ds[i], steps[i], ds[i + 1]);
    StepRecords(cfg, ds[i].s, steps[i], ds[i + 1].s);
  }

  lemma {:induction false} NothingRecordedFirst(cfg: Config, ds: seq<World>, steps: seq<Step>)
    requires IsDrivenRun(cfg, ds, steps)
    ensures ds[0].s.h.executions == []
  {
    assert Init(ds[0].s);
  }

  ghost predicate RecordsAll(states: seq<Sys>, steps: seq<Step>) {
    |states| == |steps| + 1 && states[0].h.executions == []
    && forall i :: 0 <= i < |steps| ==> Records(states[i], steps[i], states[i + 1])
  }

  lemma {:induction false} RecordedBy(states: seq<Sys>, steps: seq<Step>, i: nat, k: nat) returns (j: nat)
    requires RecordsAll(states, steps) && i < |states| && k < |states[i].h.executions|
    ensures j < i && steps[j].Run? && states[j].phase.Running?
    ensures states[i].h.executions[k] == Execution(states[j].phase.task.id, steps[j].call)
  {
    if i > 0 {
      assert Records(states[i - 1], steps[i - 1], states[i]);
      if k < |states[i - 1].h.executions| {
        j := RecordedBy(states, steps, i - 1, k);
      } else {
        j := i - 1;
      }
    }
  }

  /** Each call on record was made by a Run step. */
  lemma {:induction false} MadeInStep(cfg: Config, ds: seq<World>, steps: seq<Step>, i: nat, k: nat) returns (j: nat)
    requires IsDrivenRun(cfg, ds, steps) && i < |ds| && k < |ds[i].s.h.executions|
    ensures j < i && steps[j].Run? && ds[j].s.phase.Running?
    ensures ds[i].s.h.executions[k] == Execution(ds[j].s.phase.task.id, steps[j].call)
  {
    var states := Systems(ds);
    NothingRecordedFirst(cfg, ds, steps);
    forall m | 0 <= m < |steps| ensures Records(states[m], steps[m], states[m + 1]) {
      OnlyRunsAreRecorded(cfg, ds, steps, m);
    }
    j := RecordedBy(states, steps, i, k);
  }

  lemma {:induction false} RunIsHarmless(cfg: Config, ds: seq<World>, steps: seq<Step>, j: nat)
    requires IsDrivenRun(cfg, ds, steps) && j < |steps| && steps[j].Run? && ds[j].s.phase.Running?
    ensures var catalog, call := ds[j].now.env.catalog, steps[j].call;
            && Guarded(catalog) == cfg.guarded && call.tool in catalog
            && (SaysHarmless(catalog[call.tool].annotations)
                || (ds[j].s.phase.ran == [] && Granted(ds[j].s.phase.task, call)))
  {
    var x, t, ran := ds[j].now, ds[j].s.phase.task, ds[j].s.phase.ran;
    assert Drives(cfg, ds[j], steps[j], ds[j + 1]);
    TurnRunsOnlyPermittedCalls(x.env, t, x.start);
    assert Outcome(x, t).ran[|x.start.ran| + |ran|] == Calls(x, t)[|ran|];
    LoopOutcomes.UnaskedCallsAreHarmless(x.env, t, x.start, |x.start.ran| + |ran|);
  }

  /**
   By what the tools say of themselves: each call that ran, in any run, went to a tool of the
   catalog that says it only reads or destroys nothing, unless it is exactly one the user was
   asked about in a question that its task took up with a plain yes.
   */
  lemma {:induction false} UnapprovedCallsAreHarmless(cfg: Config, ds: seq<World>, steps: seq<Step>, i: nat, k: nat)
      returns (j: nat)
    requires IsDrivenRun(cfg, ds, steps) && i < |ds| && k < |ds[i].s.h.executions|
    ensures var h, e := ds[i].s.h, ds[i].s.h.executions[k];
            && j < i && steps[j] == Run(e.call) && ds[j].s.phase.Running? && ds[j].s.phase.task.id == e.taskId
            && var catalog := ds[j].now.env.catalog;
               && e.call.tool in catalog
               && (SaysHarmless(catalog[e.call.tool].annotations)
                   || exists a ::
                        && a in h.parks && a in h.taken && h.taken[a] == e.taskId && e.taskId in h.tasks
                        && h.parks[a].pending.Some?
                        && e.call == ToolRun(h.parks[a].pending.value.tool, h.parks[a].pending.value.arguments)
                        && TakesUp(h.tasks[e.taskId], h.parks[a])
                        && Approved(h.tasks[e.taskId].event.content))
  {
    j := MadeInStep(cfg, ds, steps, i, k);
    RunIsHarmless(cfg, ds, steps, j);
    var catalog, tool := ds[j].now.env.catalog, steps[j].call.tool;
    if !SaysHarmless(catalog[tool].annotations) {
      assert tool in Guarded(catalog);
      LoopCallsWereApproved(cfg, ds, steps, i, k);
    }
  }

  /** And nobody is asked about a harmless call: one that waits for an answer is to a tool that does not say so. */
  lemma {:induction false} OnlyOtherCallsWait(cfg: Config, ds: seq<World>, steps: seq<Step>, j: nat)
    requires IsDrivenRun(cfg, ds, steps) && j < |steps| && steps[j].ParkWrite? && steps[j].pending.Some?
    ensures var catalog, tool := ds[j].now.env.catalog, steps[j].pending.value.tool;
            tool in catalog && !SaysHarmless(catalog[tool].annotations)
  {
    assert Drives(cfg, ds[j], steps[j], ds[j + 1]);
    var x, t := ds[j].now, ds[j].s.phase.task;
    TurnRunsOnlyPermittedCalls(x.env, t, x.start);
    assert steps[j].pending.value.tool in Guarded(x.env.catalog);
  }

  /** What the turn's own proofs ask of a task that resumes, every task that reaches the loop meets. */
  lemma {:induction false} TurnsStartWell(cfg: Config, ds: seq<World>, steps: seq<Step>, i: nat)
    requires IsDrivenRun(cfg, ds, steps) && i < |ds| && ds[i].s.phase.Running?
    ensures LoopPairing.ResumesAToolCall(ds[i].s.phase.task)
  {
    var t, catalog := ds[i].s.phase.task, ds[i].now.env.catalog;
    DrivenRunsAreRuns(cfg, ds, steps);
    AlwaysOnScript(cfg, ds, steps, i);
    assert t in Backlog(Systems(ds)[i]);
    ResumedCallsAreGuarded(cfg, Systems(ds), steps, i, t);
    if t.resume.Some? && t.resume.value.pending.Some? {
      var tool := t.resume.value.pending.value.tool;
      assert tool in Guarded(catalog) && tool in catalog;
    }
  }

  // ---------- A turn can be played to its end ----------

  ghost predicate IsChain(cfg: Config, ds: seq<World>, steps: seq<Step>) {
    |ds| == |steps| + 1 && forall i :: 0 <= i < |steps| ==> Drives(cfg, ds[i], steps[i], ds[i + 1])
  }

  function Executions(id: string, calls: seq<ToolRun>): (r: seq<Execution>)
    ensures |r| == |calls| && forall i :: 0 <= i < |calls| ==> r[i] == Execution(id, calls[i])
  {
    seq(|calls|, i requires 0 <= i < |calls| => Execution(id, calls[i]))
  }

  lemma {:induction false} ChainCons(cfg: Config, d: World, step: Step, ds: seq<World>, steps: seq<Step>)
    requires IsChain(cfg, ds, steps) && Drives(cfg, d, step, ds[0])
    ensures IsChain(cfg, [d] + ds, [step] + steps)
  {
    var ds', steps' := [d] + ds, [step] + steps;
    forall i | 0 <= i < |steps'| ensures Drives(cfg, ds'[i], steps'[i], ds'[i + 1]) {
      assert i > 0 ==> Drives(cfg, ds[i - 1], steps[i - 1], ds[i]);
    }
  }

  /** The state after the calls left to make. */
  function Ran(d: World): World
    requires d.s.phase.Running? && ProperNames(d.now.env.catalog)
    requires d.s.phase.ran <= Calls(d.now, d.s.phase.task)
  {
    var t, calls := d.s.phase.task, Calls(d.now, d.s.phase.task);
    d.(s := d.s.(phase := Running(t, calls),
                 h := d.s.h.(executions := d.s.h.executions + Executions(t.id, calls[|d.s.phase.ran|..]))))
  }

  /** The next call made. */
  function RanOne(d: World): World
    requires d.s.phase.Running? && ProperNames(d.now.env.catalog)
    requires |d.s.phase.ran| < |Calls(d.now, d.s.phase.task)|
  {
    var t, ran := d.s.phase.task, d.s.phase.ran;
    var call := Calls(d.now, t)[|ran|];
    d.(s := d.s.(phase := Running(t, ran + [call]), h := d.s.h.(executions := d.s.h.executions + [Execution(t.id, call)])))
  }

  lemma {:induction false} NextCall(cfg: Config, d: World)
    requires d.s.phase.Running? && OnScript(cfg, d) && |d.s.phase.ran| < |Calls(d.now, d.s.phase.task)|
    ensures Drives(cfg, d, Run(Calls(d.now, d.s.phase.task)[|d.s.phase.ran|]), RanOne(d)) && OnScript(cfg, RanOne(d))
    ensures Ran(RanOne(d)) == Ran(d)
  {
    var t, n, calls := d.s.phase.task, |d.s.phase.ran|, Calls(d.now, d.s.phase.task);
    assert d.s.phase.ran + [calls[n]] == calls[..n + 1];
    ExecutionsCons(t.id, calls, n, d.s.h.executions);
  }

  lemma {:induction false} ExecutionsCons(id: string, calls: seq<ToolRun>, n: nat, before: seq<Execution>)
    requires n < |calls|
    ensures before + Executions(id, calls[n..]) == before + [Execution(id, calls[n])] + Executions(id, calls[n + 1..])
  {
    var first, rest := [Execution(id, calls[n])], Executions(id, calls[n + 1..]);
    assert calls[n..] == [calls[n]] + calls[n + 1..];
    assert Executions(id, calls[n..]) == first + rest;
    Regrouped(before, first, rest);
  }

  lemma {:induction false} CallsPlayOut(cfg: Config, d: World) returns (ds: seq<World>, steps: seq<Step>)
    requires d.s.phase.Running? && OnScript(cfg, d)
    ensures IsChain(cfg, ds, steps) && ds[0] == d && ds[|steps|] == Ran(d)
    ensures |steps| == |Calls(d.now, d.s.phase.task)| - |d.s.phase.ran| && forall step :: step in steps ==> step.Run?
    decreases |Calls(d.now, d.s.phase.task)| - |d.s.phase.ran|
  {
    var ran, calls := d.s.phase.ran, Calls(d.now, d.s.phase.task);
    if |ran| == |calls| {
      assert calls[|ran|..] == [] && d.s.h.executions + [] == d.s.h.executions;
      ds, steps := [d], [];
    } else {
      NextCall(cfg, d);
      ds, steps := CallsPlayOut(cfg, RanOne(d));
      ChainCons(cfg, d, Run(calls[|ran|]), ds, steps);
      ds, steps := [d] + ds, [Run(calls[|ran|])] + steps;
    }
  }

  /** How the loop's turn of t leaves the pipeline that has made its calls. */
  ghost predicate EndsAs(d: World, now: int, last: Sys)
    requires d.s.phase.Running? && ProperNames(d.now.env.catalog)
  {
    var t, end := d.s.phase.task, Outcome(d.now, d.s.phase.task).turn;
    match end.await
    case None => last == d.s.(q := DoneTo(d.s.q, t), phase := Idle, h := d.s.h.(done := d.s.h.done + {t.id}))
    case Some(a) =>
      var p := NewParked(t, a.question, a.keys, end.pending, now);
      last == Sys(DoneTo(ParkInsertTo(ParkWriteTo(d.s.q, p), p), t), Idle, d.s.h.(parks := d.s.h.parks[now := p]), now)
  }

  function Finished(d: World): World
    requires d.s.phase.Running?
  {
    var t := d.s.phase.task;
    d.(s := d.s.(q := DoneTo(d.s.q, t), phase := Idle, h := d.s.h.(done := d.s.h.done + {t.id})))
  }

  lemma {:induction false} FinishPlaysOut(cfg: Config, d: World)
    requires d.s.phase.Running? && Fits(cfg, d.now) && d.s.phase.ran == Calls(d.now, d.s.phase.task)
    requires Outcome(d.now, d.s.phase.task).turn.await.None?
    ensures IsChain(cfg, [d, Finished(d)], [Finish])
  {
    assert Drives(cfg, d, Finish, Finished(d));
  }

  /** The three states of parking p. */
  function Written(d: World, p: Parked): World
    requires d.s.phase.Running?
  {
    d.(s := Sys(ParkWriteTo(d.s.q, p), Parking(d.s.phase.task, p, false), d.s.h.(parks := d.s.h.parks[p.asked := p]), p.asked))
  }

  function Inserted(d: World): World
    requires d.s.phase.Parking?
  {
    d.(s := d.s.(q := ParkInsertTo(d.s.q, d.s.phase.question), phase := d.s.phase.(inserted := true)))
  }

  function Left(d: World): World
    requires d.s.phase.Parking?
  {
    d.(s := d.s.(q := DoneTo(d.s.q, d.s.phase.task), phase := Idle))
  }

  lemma {:induction false} WritingDrives(cfg: Config, d: World, now: int)
    requires d.s.phase.Running? && Fits(cfg, d.now) && d.s.phase.ran == Calls(d.now, d.s.phase.task) && now > d.s.clock
    requires Outcome(d.now, d.s.phase.task).turn.await.Some?
    ensures var end := Outcome(d.now, d.s.phase.task).turn;
            var a := end.await.value;
            Drives(cfg, d, ParkWrite(a.question, a.keys, end.pending, now),
                   Written(d, NewParked(d.s.phase.task, a.question, a.keys, end.pending, now)))
  {
  }

  lemma {:induction false} ParkingDrives(cfg: Config, d: World, p: Parked)
    requires d.s.phase.Running?
    ensures var w := Written(d, p);
            Drives(cfg, w, ParkInsert, Inserted(w)) && Drives(cfg, Inserted(w), ParkDone, Left(Inserted(w)))
  {
  }

  lemma {:induction false} EndPlaysOut(cfg: Config, d: World, now: int) returns (ds: seq<World>, steps: seq<Step>)
    requires d.s.phase.Running? && Fits(cfg, d.now) && d.s.phase.ran == Calls(d.now, d.s.phase.task) && now > d.s.clock
    ensures IsChain(cfg, ds, steps) && ds[0] == d && EndsAs(d, now, ds[|steps|].s)
  {
    var t, end := d.s.phase.task, Outcome(d.now, d.s.phase.task).turn;
    match end.await {
      case None =>
        FinishPlaysOut(cfg, d);
        ds, steps := [d, Finished(d)], [Finish];
      case Some(a) =>
        var p := NewParked(t, a.question, a.keys, end.pending, now);
        var w := Written(d, p);
        WritingDrives(cfg, d, now);
        ParkingDrives(cfg, d, p);
        ChainCons(cfg, Inserted(w), ParkDone, [Left(Inserted(w))], []);
        ds, steps := [Inserted(w)] + [Left(Inserted(w))], [ParkDone] + [];
        ChainCons(cfg, w, ParkInsert, ds, steps);
        ds, steps := [w] + ds, [ParkInsert] + steps;
        ChainCons(cfg, d, ParkWrite(a.question, a.keys, end.pending, now), ds, steps);
        ds, steps := [d] + ds, [ParkWrite(a.question, a.keys, end.pending, now)] + steps;
    }
  }

  /**
   A turn of the loop is a chain of the pipeline's steps: one Run for each call it makes,
   then Finish, or the three of parking with the question, keys and call the turn left.
   */
  lemma {:induction false} TurnPlaysOut(cfg: Config, d: World, now: int)
      returns (ds: seq<World>, steps: seq<Step>, end: seq<World>, last: seq<Step>)
    requires d.s.phase.Running? && d.s.phase.ran == [] && Fits(cfg, d.now) && now > d.s.clock
    ensures IsChain(cfg, ds, steps) && ds[0] == d && |steps| == |Calls(d.now, d.s.phase.task)|
    ensures forall step :: step in steps ==> step.Run?
    ensures ds[|steps|] == Ran(d) && IsChain(cfg, end, last) && end[0] == Ran(d)
    ensures EndsAs(Ran(d), now, end[|last|].s)
  {
    ds, steps := CallsPlayOut(cfg, d);
    end, last := EndPlaysOut(cfg, Ran(d), now);
  }
}
