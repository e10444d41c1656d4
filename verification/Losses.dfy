/**
 Runs that show what the pipeline does not promise (internal/taskqueue/queue.go): a drop
 without a delivery, an answer lost with its question, and a question lost with an older
 one. Guarantees says exactly when each can happen. The turns in them are the loop's own.
 */
module Losses {
  import opened Wrappers
  import opened Text
  import opened Events
  import opened TaskQueue
  import opened Approval
  import opened Chat
  import opened Host
  import opened Turns
  import opened LoopSpec
  import opened LoopAuthority
  import opened Pipeline
  import opened Guarantees
  import opened Driven

  // ---------- One setting ----------

  const GUARDED := "s_t"
  const ITS_CALL: ToolCall := ToolCall("c", GUARDED, "")
  const ITS_PENDING: PendingCall := PendingCall("c", GUARDED, "")
  const NEW_TURN: TurnView := TurnView(Transcript([], 0, {}), "", None, None, [], [], [], 0)
  const NEW: Progress := Progress(NEW_TURN, [], map[], NO_REPEATS, [], [], 0, 0)

  const WORDS: Texts := Texts("", "", "", "", name => "", call => "ok?", "", "", "", "")

  /** One tool, which needs approval and always answers alike, and a model that always proposes alike. */
  function Scene(proposal: Proposal, answer: Answer): Env {
    Env(map[GUARDED := ToolInfo(None, false)], (ran, call) => answer, text => text, (n, ms, offered) => proposal,
        n => false, text => Delivered(""), plan => "", (text, turn) => Some("done"), turn => "", Some(""), WORDS)
  }

  lemma SceneIsProper(proposal: Proposal, answer: Answer)
    ensures var catalog := Scene(proposal, answer).catalog;
            ProperNames(catalog) && Guarded(catalog) == {GUARDED} && NeedsApproval(catalog, GUARDED)
  {
    assert |GUARDED| == 3 && |"reply"| == 5 && |"plan"| == 4;
  }

  /** A fresh task is asked about before anything runs. */
  lemma {:induction false} TurnAsks(t: Task, answer: Answer)
    requires t.resume.None? && ByteLen(t.event.content) <= MAX_BYTES
    ensures ProperNames(Scene(Proposed(ITS_CALL), answer).catalog)
    ensures var q := HandleTo(Scene(Proposed(ITS_CALL), answer), t, NEW);
            && q.ran == [] && q.turn.await == Some(Await("ok?", AskKeys(t.event))) && q.turn.pending == Some(ITS_PENDING)
  {
    var env := Scene(Proposed(ITS_CALL), answer);
    SceneIsProper(Proposed(ITS_CALL), answer);
    var p := Ready(env, Begin(env, t, NEW), "");
    BytesJoin([Say(User, t.event.content)], [Say(User, "")]);
    assert p.turn.conv.messages == [Say(User, t.event.content)] + [Say(User, "")];
    assert StalledBy(env, p).None?;
    assert Choice(env, p) == Proposed(ITS_CALL);
    assert |REPLY| == 5 && |PLAN| == 4 && |GUARDED| == 3;
    assert [] + AskKeys(t.event) == AskKeys(t.event);
  }

  // ---------- A drop that was never a delivery ----------

  /** Task t alone in the pipeline after n crashes inside Next, while it is still queued. */
  ghost function Cut(t: Task, n: nat): Sys
    requires n < MAX_ATTEMPTS
  {
    var t' := t.(attempts := n);
    Sys(State(Disk(map[SlotOf(t) := t'], map[]), [t'], map[], true), Idle,
        NOTHING.(tasks := map[t.id := t], cut := if n == 0 then map[] else map[t.id := n], crashes := n), t.enqueued + n)
  }

  ghost function Gone(t: Task): Sys {
    Sys(State(Disk(map[], map[]), [], map[], false), Idle,
        NOTHING.(tasks := map[t.id := t], cut := map[t.id := 2], crashes := 2, dropped := {t.id}), t.enqueued + 2)
  }

  lemma {:induction false} CutOnce(cfg: Config, t: Task)
    requires t.attempts == 0
    ensures Moves(cfg, Cut(t, 0), CrashInNext(t.enqueued + 1), Cut(t, 1))
  {
    var d := Disk(map[SlotOf(t) := Attempt(t)], map[]);
    assert CrashDisk(Cut(t, 0), CrashInNext(t.enqueued + 1)) == d;
    assert OverLimit(d) == {} && Stale(d, t.enqueued + 1) == {};
    assert Loaded(d, [Attempt(t)]);
  }

  lemma {:induction false} CutTwice(cfg: Config, t: Task)
    requires t.attempts == 0
    ensures Moves(cfg, Cut(t, 1), CrashInNext(t.enqueued + 2), Gone(t))
  {
    var d := Disk(map[SlotOf(t) := t.(attempts := 2)], map[]);
    assert CrashDisk(Cut(t, 1), CrashInNext(t.enqueued + 2)) == d;
    assert OverLimit(d) == {SlotOf(t)} && Stale(d, t.enqueued + 2) == {};
    assert (set f | f in OverLimit(d) :: f.id) == {t.id};
    assert Loaded(d, []);
  }

  lemma {:induction false} FirstEnqueue(cfg: Config, s: Sys, ev: Event, t: Task)
    requires cfg.capacity > 0 && ResumeKeys(ev) == [] && t == NewTask(ev, "t", 1, None)
    requires s == Sys(State(Disk(map[], map[]), [], map[], false), Idle, NOTHING, 0)
    ensures Moves(cfg, s, Enqueue(ev, "t", 1, None), Cut(t, 0))
  {
    var none: set<string> := Expired(s.q.parked, ev, 1) + Consumed(None);
    assert none == {};
    assert s.q.parked - none == map[] && s.q.disk.parked - none == map[];
    assert EnqueueTo(s.q, ev, "t", 1, None) == Cut(t, 0).q;
  }

  /**
   The attempt is counted on disk before the task is handed over, so two crashes inside
   Next drop a task that no turn ever saw. BoundedRedeliveryWithoutLoss says when a
   dropped task was delivered every time: exactly when no such crash hit it.
   */
  lemma {:induction false} DroppedWithoutDelivery(ev: Event, x: Setting)
      returns (cfg: Config, ds: seq<World>, steps: seq<Step>)
    requires ResumeKeys(ev) == []
    ensures IsDrivenRun(cfg, ds, steps)
    ensures "t" in ds[|steps|].s.h.dropped && Count(ds[|steps|].s.h.handed, "t") == 0
  {
    cfg := Config(1, {});
    var t := NewTask(ev, "t", 1, None);
    var s0 := Sys(State(Disk(map[], map[]), [], map[], false), Idle, NOTHING, 0);
    FirstEnqueue(cfg, s0, ev, t);
    CutOnce(cfg, t);
    CutTwice(cfg, t);
    ds := [World(s0, x), World(Cut(t, 0), x), World(Cut(t, 1), x), World(Gone(t), x)];
    steps := [Enqueue(ev, "t", 1, None), CrashInNext(2), CrashInNext(3)];
  }

  // ---------- A question, once and again ----------

  /** The event of a task, and one that shares a key with what the task asks. */
  datatype Story = Story(first: Event, answer: Event)

  ghost predicate Tells(y: Story) {
    && ResumeKeys(y.first) == [] && ByteLen(y.first.content) <= MAX_BYTES
    && SharesKey(y.answer, AskKeys(y.first))
  }

  /** A reminder's task asks the person it was set for, who then answers where the reminder came. */
  lemma {:induction false} SomeStoryTells() returns (y: Story)
    ensures Tells(y)
  {
    var place, someone := Address("d", "1", ""), Actor("2", "", "");
    y := Story(Event("", "", Timer, someone, place, "", ""), Event("", "", Kind.Message, someone, place, "", "yes"));
    assert ActorKey(place, "2") in ResumeKeys(y.answer) && ActorKey(place, "2") in AskKeys(y.first);
  }

  /** Every turn in these stories is taken in this setting: the model proposes the guarded call. */
  function Asker(): Setting {
    Setting(Scene(Proposed(ITS_CALL), Answered("", false, None)), NEW)
  }

  const CFG: Config := Config(1, {GUARDED})

  function TheTask(y: Story): Task {
    NewTask(y.first, "t", 1, None)
  }

  function Tried(y: Story, n: nat): Task {
    TheTask(y).(attempts := n)
  }

  /** The question put at now, as the loop puts it. */
  function TheQuestion(y: Story, now: int): Parked {
    NewParked(TheTask(y), "ok?", AskKeys(y.first), Some(ITS_PENDING), now)
  }

  /** The answer's task, written at now: it takes up the first question. */
  function TheAnswer(y: Story, now: int): Task {
    NewTask(y.answer, "u", now, Some(TheQuestion(y, 2)))
  }

  function Start(): Sys {
    Sys(State(Disk(map[], map[]), [], map[], false), Idle, NOTHING, 0)
  }

  function Written(y: Story): Sys {
    var t := TheTask(y);
    Sys(State(Disk(map[SlotOf(t) := t], map[]), [t], map[], true), Idle, NOTHING.(tasks := map["t" := t]), 1)
  }

  /** The first turn of the task. */
  function Begun(y: Story): Sys {
    var t := Tried(y, 1);
    Sys(State(Disk(map[SlotOf(t) := t], map[]), [], map[], true), Running(t, []),
        NOTHING.(tasks := map["t" := TheTask(y)], handed := map["t" := 1]), 1)
  }

  /** Its question is on disk, and not yet in memory. */
  function Asking(y: Story): Sys {
    var t, q := Tried(y, 1), TheQuestion(y, 2);
    Sys(State(Disk(map[SlotOf(t) := t], map["t" := q]), [], map[], true), Parking(t, q, false),
        Begun(y).h.(parks := map[2 := q]), 2)
  }

  lemma {:induction false} WrittenFirst(y: Story)
    requires Tells(y)
    ensures Moves(CFG, Start(), Enqueue(y.first, "t", 1, None), Written(y))
  {
    var none: map<string, Parked> := map[];
    assert Expired(none, y.first, 1) + Consumed(None) == {};
    assert none - {} == none;
    assert EnqueueTo(Start().q, y.first, "t", 1, None) == Written(y).q;
    assert Asks(none, {}) == {} && Unfiled(Start().q, {}) == {};
  }

  lemma {:induction false} BegunNext(y: Story)
    ensures Moves(CFG, Written(y), Next, Begun(y))
  {
    var t := TheTask(y);
    assert map[SlotOf(t) := t][SlotOf(t) := Attempt(t)] == map[SlotOf(t) := Attempt(t)];
  }

  lemma {:induction false} AskingNext(y: Story)
    requires Tells(y)
    ensures Moves(CFG, Begun(y), ParkWrite("ok?", AskKeys(y.first), Some(ITS_PENDING), 2), Asking(y))
  {
    assert NewParked(Tried(y, 1), "ok?", AskKeys(y.first), Some(ITS_PENDING), 2) == TheQuestion(y, 2);
  }

  function At(s: Sys): World {
    World(s, Asker())
  }

  /** The turn of a task under way in these stories parks what the loop asked. */
  ghost predicate OnlyAsks(s: Sys, step: Step) {
    s.phase.Running? ==>
      && s.phase.ran == [] && s.phase.task.resume.None? && ByteLen(s.phase.task.event.content) <= MAX_BYTES
      && step.ParkWrite? && step.question == "ok?" && step.keys == AskKeys(s.phase.task.event)
      && step.pending == Some(ITS_PENDING)
  }

  lemma {:induction false} DrivenStep(s: Sys, step: Step, s': Sys)
    requires Moves(CFG, s, step, s') && OnlyAsks(s, step)
    ensures Drives(CFG, At(s), step, At(s'))
  {
    SceneIsProper(Proposed(ITS_CALL), Answered("", false, None));
    if s.phase.Running? {
      TurnAsks(s.phase.task, Answered("", false, None));
    }
  }

  lemma {:induction false} Onward(ds: seq<World>, steps: seq<Step>, s: Sys, step: Step, s': Sys)
      returns (ds': seq<World>, steps': seq<Step>)
    requires IsDrivenRun(CFG, ds, steps) && ds[|steps|] == At(s) && Moves(CFG, s, step, s') && OnlyAsks(s, step)
    ensures ds' == ds + [At(s')] && steps' == steps + [step] && IsDrivenRun(CFG, ds', steps')
  {
    DrivenStep(s, step, s');
    ds', steps' := ds + [At(s')], steps + [step];
    forall i | 0 <= i < |steps'| ensures Drives(CFG, ds'[i], steps'[i], ds'[i + 1]) {
      assert i < |steps| ==> Drives(CFG, ds[i], steps[i], ds[i + 1]);
    }
  }

  lemma {:induction false} AskingRun(y: Story) returns (ds: seq<World>, steps: seq<Step>)
    requires Tells(y)
    ensures IsDrivenRun(CFG, ds, steps) && |steps| == 3 && ds[3] == At(Asking(y))
  {
    ds, steps := [At(Start())], [];
    WrittenFirst(y);
    ds, steps := Onward(ds, steps, Start(), Enqueue(y.first, "t", 1, None), Written(y));
    BegunNext(y);
    ds, steps := Onward(ds, steps, Written(y), Next, Begun(y));
    AskingNext(y);
    ds, steps := Onward(ds, steps, Begun(y), ParkWrite("ok?", AskKeys(y.first), Some(ITS_PENDING), 2), Asking(y));
  }

  lemma {:induction false} FirstShared(keys: seq<string>, asked: seq<string>) returns (i: nat)
    requires exists key :: key in keys && key in asked
    ensures i < |keys| && keys[i] in asked && forall j :: 0 <= j < i ==> keys[j] !in asked
  {
    if keys[0] in asked {
      i := 0;
    } else {
      var key :| key in keys && key in asked;
      assert key in keys[1..];
      i := FirstShared(keys[1..], asked);
      i := i + 1;
    }
  }

  /** With only that question parked, the answer is an answer to it. */
  lemma {:induction false} AnswersTheQuestion(y: Story, parked: map<string, Parked>, now: int)
    requires Tells(y) && parked == map["t" := TheQuestion(y, 2)] && 2 < now < 100
    ensures Answers(parked, ResumeKeys(y.answer), now, Some(TheQuestion(y, 2)))
    ensures Expired(parked, y.answer, now) == {}
  {
    var keys, q := ResumeKeys(y.answer), TheQuestion(y, 2);
    var i := FirstShared(keys, q.keys);
    assert parked["t"] == q && LiveMatch(parked, keys[i], now, q);
    forall key, p | key in keys[..i] ensures !LiveMatch(parked, key, now, p) {
      assert key !in q.keys;
    }
    assert Chosen(parked, keys, i, now, q);
  }

  // ---------- A crash inside Enqueue ----------

  function Parked1(y: Story): Sys {
    var q := TheQuestion(y, 2);
    Asking(y).(q := Asking(y).q.(parked := map["t" := q]), phase := Asking(y).phase.(inserted := true))
  }

  function Waits(y: Story): Sys {
    var q := TheQuestion(y, 2);
    Sys(State(Disk(map[], map["t" := q]), [], map["t" := q], true), Idle, Asking(y).h, 2)
  }

  function AnswerLost(y: Story): Sys {
    Sys(State(Disk(map[], map[]), [], map[], false), Idle, Asking(y).h.(lost := {2}, crashes := 1), 4)
  }

  lemma {:induction false} WaitsNext(y: Story)
    requires Tells(y)
    ensures Moves(CFG, Asking(y), ParkInsert, Parked1(y)) && Moves(CFG, Parked1(y), ParkDone, Waits(y))
  {
    var t := Tried(y, 1);
    assert map[SlotOf(t) := t] - {SlotOf(t)} == map[];
  }

  lemma {:induction false} AnswerLostNext(y: Story)
    requires Tells(y)
    ensures Moves(CFG, Waits(y), CrashInEnqueue(y.answer, 3, Some(TheQuestion(y, 2)), 4), AnswerLost(y))
  {
    var s, step := Waits(y), CrashInEnqueue(y.answer, 3, Some(TheQuestion(y, 2)), 4);
    AnswersTheQuestion(y, s.q.parked, 3);
    var gone := {"t"};
    assert Expired(s.q.parked, y.answer, 3) + Consumed(step.m) == gone;
    var d := Disk(map[], map[]);
    assert s.q.disk.parked - gone == d.parked;
    assert CrashDisk(s, step) == d;
    assert Asks(s.q.parked, {}) == {} && Unfiled(s.q, gone) == {};
    assert CrashHistory(s, step) == s.h.(lost := {2});
    assert OverLimit(d) == {} && Stale(d, 4) == {} && Asks(d.parked, {}) == {};
    assert (set f | f in OverLimit(d) :: f.id) == {};
    assert Loaded(d, []) && d.pending - {} == d.pending && d.parked - {} == d.parked;
  }

  /**
   An answered question can be lost: a crash between the removal of the question's file and
   the writing of the answer's leaves neither, and the request is nowhere.
   */
  lemma {:induction false} AnswerLostInEnqueue(y: Story) returns (ds: seq<World>, steps: seq<Step>)
    requires Tells(y)
    ensures IsDrivenRun(CFG, ds, steps)
    ensures var s := ds[|steps|].s;
            && 2 in s.h.lost && 2 in s.h.parks && s.h.parks[2].taskId == "t" && "t" !in s.h.done && "t" !in s.h.dropped
            && s.q.disk == Disk(map[], map[]) && s.q.pending == [] && s.q.parked == map[]
  {
    ds, steps := AskingRun(y);
    WaitsNext(y);
    ds, steps := Onward(ds, steps, Asking(y), ParkInsert, Parked1(y));
    ds, steps := Onward(ds, steps, Parked1(y), ParkDone, Waits(y));
    AnswerLostNext(y);
    ds, steps := Onward(ds, steps, Waits(y), CrashInEnqueue(y.answer, 3, Some(TheQuestion(y, 2)), 4), AnswerLost(y));
  }

  // ---------- A second question ----------

  /** A crash while the question was being parked: the task is queued again, and ingest knows the question. */
  function Again(y: Story): Sys {
    var t, q := Tried(y, 1), TheQuestion(y, 2);
    Sys(State(Disk(map[SlotOf(t) := t], map["t" := q]), [t], map["t" := q], true), Idle,
        Asking(y).h.(crashes := 1), 3)
  }

  function BegunAgain(y: Story): Sys {
    var t, q := Tried(y, 2), TheQuestion(y, 2);
    Sys(State(Disk(map[SlotOf(t) := t], map["t" := q]), [], map["t" := q], true), Running(t, []),
        Again(y).h.(handed := map["t" := 2]), 3)
  }

  /** The second question's file has taken the place of the first one's. */
  function AskingAgain(y: Story): Sys {
    var t, q, q' := Tried(y, 2), TheQuestion(y, 2), TheQuestion(y, 4);
    Sys(State(Disk(map[SlotOf(t) := t], map["t" := q']), [], map["t" := q], true), Parking(t, q', false),
        BegunAgain(y).h.(parks := map[2 := q, 4 := q']), 4)
  }

  /** The answer to the first question removes the only file under the task's id. */
  function FirstAnswered(y: Story): Sys {
    var t, u := Tried(y, 2), TheAnswer(y, 5);
    Sys(State(Disk(map[SlotOf(t) := t, SlotOf(u) := u], map[]), [u], map[], true), AskingAgain(y).phase,
        AskingAgain(y).h.(tasks := map["t" := TheTask(y), "u" := u], taken := map[2 := "u"], unfiled := {4}), 5)
  }

  function InsertedAgain(y: Story): Sys {
    var s := FirstAnswered(y);
    s.(q := s.q.(parked := map["t" := TheQuestion(y, 4)]), phase := s.phase.(inserted := true))
  }

  function WaitsAgain(y: Story): Sys {
    var u := TheAnswer(y, 5);
    Sys(State(Disk(map[SlotOf(u) := u], map[]), [u], map["t" := TheQuestion(y, 4)], true), Idle, FirstAnswered(y).h, 5)
  }

  function QuestionLost(y: Story): Sys {
    var u := TheAnswer(y, 5);
    Sys(State(Disk(map[SlotOf(u) := u], map[]), [u], map[], true), Idle, FirstAnswered(y).h.(crashes := 2), 6)
  }

  lemma {:induction false} OneLoaded(d: Disk, t: Task)
    requires d.pending == map[SlotOf(t) := t] && Survives(t)
    ensures OverLimit(d) == {} && (set f | f in OverLimit(d) :: f.id) == {} && Loaded(d, [t])
  {
  }

  lemma {:induction false} AgainNext(y: Story)
    requires Tells(y)
    ensures Moves(CFG, Asking(y), Crash(3), Again(y))
  {
    var d, t := Asking(y).q.disk, Tried(y, 1);
    OneLoaded(d, t);
    assert Stale(d, 3) == {} && Asks(d.parked, {}) == {};
    assert d.pending - {} == d.pending && d.parked - {} == d.parked;
  }

  lemma {:induction false} BegunAgainNext(y: Story)
    requires Tells(y)
    ensures Moves(CFG, Again(y), Next, BegunAgain(y))
  {
    var t := Tried(y, 1);
    assert Attempt(t) == Tried(y, 2);
    assert map[SlotOf(t) := t][SlotOf(t) := Attempt(t)] == map[SlotOf(t) := Attempt(t)];
    assert Plus1(Again(y).h.handed, "t") == map["t" := 2];
  }

  lemma {:induction false} AskingAgainNext(y: Story)
    requires Tells(y)
    ensures Moves(CFG, BegunAgain(y), ParkWrite("ok?", AskKeys(y.first), Some(ITS_PENDING), 4), AskingAgain(y))
  {
    var q, q' := TheQuestion(y, 2), TheQuestion(y, 4);
    assert NewParked(Tried(y, 2), "ok?", AskKeys(y.first), Some(ITS_PENDING), 4) == q';
    assert map["t" := q]["t" := q'] == map["t" := q'];
    assert map[2 := q][4 := q'] == map[2 := q, 4 := q'];
  }

  lemma {:induction false} FirstAnsweredNext(y: Story)
    requires Tells(y)
    ensures Moves(CFG, AskingAgain(y), Enqueue(y.answer, "u", 5, Some(TheQuestion(y, 2))), FirstAnswered(y))
  {
    var s, m, u := AskingAgain(y), Some(TheQuestion(y, 2)), TheAnswer(y, 5);
    AnswersTheQuestion(y, s.q.parked, 5);
    var gone := {"t"};
    assert Expired(s.q.parked, y.answer, 5) + Consumed(m) == gone;
    assert s.q.parked - gone == map[] && s.q.disk.parked - gone == map[];
    var t := Tried(y, 2);
    assert map[SlotOf(t) := t][SlotOf(u) := u] == map[SlotOf(t) := t, SlotOf(u) := u];
    assert EnqueueTo(s.q, y.answer, "u", 5, m) == FirstAnswered(y).q;
    assert Unfiled(s.q, gone) == {4} by {
      assert s.q.disk.parked["t"].asked == 4;
    }
    assert Asks(s.q.parked, {}) == {};
    assert s.h.tasks["u" := u] == FirstAnswered(y).h.tasks && s.h.taken[2 := "u"] == map[2 := "u"];
  }

  lemma {:induction false} WaitsAgainNext(y: Story)
    requires Tells(y)
    ensures Moves(CFG, FirstAnswered(y), ParkInsert, InsertedAgain(y)) && Moves(CFG, InsertedAgain(y), ParkDone, WaitsAgain(y))
  {
    var t, u := Tried(y, 2), TheAnswer(y, 5);
    assert map[SlotOf(t) := t, SlotOf(u) := u] - {SlotOf(t)} == map[SlotOf(u) := u];
  }

  lemma {:induction false} QuestionLostNext(y: Story)
    requires Tells(y)
    ensures Moves(CFG, WaitsAgain(y), Crash(6), QuestionLost(y))
  {
    var d, u := WaitsAgain(y).q.disk, TheAnswer(y, 5);
    OneLoaded(d, u);
    assert Stale(d, 6) == {} && Asks(d.parked, {}) == {};
    assert d.pending - {} == d.pending && d.parked - {} == d.parked;
  }

  lemma {:induction false} AskingAgainRun(y: Story) returns (ds: seq<World>, steps: seq<Step>)
    requires Tells(y)
    ensures IsDrivenRun(CFG, ds, steps) && |steps| == 6 && ds[6] == At(AskingAgain(y))
  {
    ds, steps := AskingRun(y);
    AgainNext(y);
    ds, steps := Onward(ds, steps, Asking(y), Crash(3), Again(y));
    BegunAgainNext(y);
    ds, steps := Onward(ds, steps, Again(y), Next, BegunAgain(y));
    AskingAgainNext(y);
    ds, steps := Onward(ds, steps, BegunAgain(y), ParkWrite("ok?", AskKeys(y.first), Some(ITS_PENDING), 4), AskingAgain(y));
  }

  lemma {:induction false} WaitsAgainRun(y: Story) returns (ds: seq<World>, steps: seq<Step>)
    requires Tells(y)
    ensures IsDrivenRun(CFG, ds, steps) && |steps| == 9 && ds[9] == At(WaitsAgain(y))
  {
    ds, steps := AskingAgainRun(y);
    FirstAnsweredNext(y);
    ds, steps := Onward(ds, steps, AskingAgain(y), Enqueue(y.answer, "u", 5, Some(TheQuestion(y, 2))), FirstAnswered(y));
    WaitsAgainNext(y);
    ds, steps := Onward(ds, steps, FirstAnswered(y), ParkInsert, InsertedAgain(y));
    ds, steps := Onward(ds, steps, InsertedAgain(y), ParkDone, WaitsAgain(y));
  }

  lemma {:induction false} LosingRun(y: Story) returns (ds: seq<World>, steps: seq<Step>)
    requires Tells(y)
    ensures IsDrivenRun(CFG, ds, steps) && |steps| == 10 && steps[9] == Crash(6)
    ensures ds[9] == At(WaitsAgain(y)) && ds[10] == At(QuestionLost(y))
  {
    ds, steps := WaitsAgainRun(y);
    QuestionLostNext(y);
    ds, steps := Onward(ds, steps, WaitsAgain(y), Crash(6), QuestionLost(y));
  }

  /**
   A live question can be lost without being answered: a task whose first question outlived
   a crash asks again, the answer to the first removes the second one's file while it is
   being parked, and the next crash finds nothing to read the second from.
   */
  lemma {:induction false} SecondQuestionLost(y: Story) returns (ds: seq<World>, steps: seq<Step>)
    requires Tells(y)
    ensures IsDrivenRun(CFG, ds, steps) && |steps| == 10 && steps[9] == Crash(6)
    ensures var s, s' := ds[9].s, ds[10].s;
            && "t" in s.q.parked && 4 in s.h.parks && s.q.parked["t"] == s.h.parks[4] && Live(s.h.parks[4], 6) && s.phase == Idle
            && 4 !in s'.h.taken && 4 !in s'.h.expired && 4 !in s'.h.lost
            && s'.q.parked == map[] && s'.q.disk.parked == map[] && !PendingFile(s', "t")
            && "t" !in s'.h.done && "t" !in s'.h.dropped
  {
    ds, steps := LosingRun(y);
    assert QuestionLost(y).h == FirstAnswered(y).h.(crashes := 2);
  }

  // ---------- A question of an approved call's own ----------

  const ITS_QUESTION: Await := Await("which one?", ["k"])

  /** A task whose user said yes to the guarded call. */
  ghost predicate SaidYes(t: Task) {
    t.resume.Some? && t.resume.value.pending == Some(ITS_PENDING) && Approved(t.event.content)
    && Bytes(RequestMessages(t)) + ByteLen(GUARDED) <= MAX_BYTES
  }

  lemma {:induction false} SomeoneSaidYes() returns (t: Task)
    ensures SaidYes(t)
  {
    var place, someone := Address("d", "1", ""), Actor("2", "", "");
    t := Task("u", Event("", "", Kind.Message, someone, place, "", "yes"),
              Some(Resume("t", "", "ok?", Some(ITS_PENDING), 1)), 2, 0);
    assert ToLower("yes") == "yes" && SaysOnly("yes", "", "yes", "", "");
    ApprovedIs("yes");
    var ms := RequestMessages(t);
    assert ms == [ms[0], ms[1], ms[2]] && ms[1..] == [ms[1], ms[2]] && ms[1..][1..] == [ms[2]] && [ms[2]][1..] == [];
    assert ByteLen("yes") <= 100 && ByteLen("ok?") <= 100 && ByteLen(GUARDED) <= 100 by {
      ShortIsSmall("yes");
      ShortIsSmall("ok?");
      ShortIsSmall(GUARDED);
    }
  }

  lemma {:induction false} ShortIsSmall(s: string)
    ensures ByteLen(s) <= 4 * |s|
  {
    if s != "" {
      ShortIsSmall(s[1..]);
    }
  }

  /** Where the loop starts once the approved call has asked. */
  lemma {:induction false} StartsAsking(t: Task, proposal: Proposal) returns (start: Progress)
    requires SaidYes(t) && proposal.Proposed? && proposal.call.name in {GUARDED, REPLY}
    ensures var env := Scene(proposal, Answered("", false, Some(ITS_QUESTION)));
            && ProperNames(env.catalog) && NeedsApproval(env.catalog, GUARDED) && ApprovedCallAsks(env, t, NEW)
            && FirstDecides(env, t, NEW, start, proposal.call) && start.turn.await == Some(ITS_QUESTION)
  {
    var env := Scene(proposal, Answered("", false, Some(ITS_QUESTION)));
    SceneIsProper(proposal, Answered("", false, Some(ITS_QUESTION)));
    var ms := RequestMessages(t);
    start := Ready(env, Begin(env, t, NEW), "");
    assert [] + ms == ms;
    assert start.turn.conv.messages == ms + [CallMessage(ITS_CALL)] + [ResultMessage(ITS_CALL, "")] + [Say(User, "")];
    StartIsSmall(ms);
    assert StalledBy(env, start).None?;
    assert |REPLY| == 5 && |PLAN| == 4 && |GUARDED| == 3;
  }

  lemma {:induction false} StartIsSmall(ms: seq<Message>)
    ensures Bytes(ms + [CallMessage(ITS_CALL)] + [ResultMessage(ITS_CALL, "")] + [Say(User, "")])
         == Bytes(ms) + ByteLen(GUARDED)
  {
    var call, result := CallMessage(ITS_CALL), ResultMessage(ITS_CALL, "");
    BytesJoin(ms, [call]);
    BytesJoin(ms + [call], [result]);
    BytesJoin(ms + [call] + [result], [Say(User, "")]);
    assert Bytes([call]) == CallBytes([ITS_CALL]) == ByteLen(GUARDED);
  }

  /** Two questions in one turn: the one the turn parks with is the second, and the first waits for nothing. */
  lemma {:induction false} FirstQuestionOverwritten(t: Task) returns (env: Env, start: Progress)
    requires SaidYes(t)
    ensures ProperNames(env.catalog) && start.turn.await == Some(ITS_QUESTION)
    ensures FirstDecides(env, t, NEW, start, ITS_CALL)
    ensures HandleTo(env, t, NEW).turn.await.Some? && HandleTo(env, t, NEW).turn.await.value.question == "ok?"
  {
    var proposal := Proposed(ITS_CALL);
    env := Scene(proposal, Answered("", false, Some(ITS_QUESTION)));
    start := StartsAsking(t, proposal);
    QuestionTakesItsPlace(env, t, NEW, start, ITS_CALL, "");
  }

  /** A reply the model wrote, in a turn that parks with a question: Worker.Run delivers no reply of such a turn. */
  lemma {:induction false} ReplyDropped(t: Task) returns (env: Env)
    requires SaidYes(t)
    ensures ProperNames(env.catalog)
    ensures HandleTo(env, t, NEW).turn.reply == "done" && HandleTo(env, t, NEW).turn.await == Some(ITS_QUESTION)
  {
    var call := ToolCall("r", REPLY, "");
    env := Scene(Proposed(call), Answered("", false, Some(ITS_QUESTION)));
    var start := StartsAsking(t, Proposed(call));
    ReplyIsLeftBehind(env, t, NEW, start, call, "done");
  }
}
