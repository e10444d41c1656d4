/**
 What holds in every state of every run of the pipeline: deliveries are counted and
 bounded, questions are taken up once and keep their root request, no request
 vanishes, and guarded calls run only as approved.
 */
module Guarantees {
  import opened Wrappers
  import opened Events
  import opened TaskQueue
  import opened Approval
  import opened Pipeline
  import Chat
  import Turns

  // ---------- Deliveries ----------

  ghost predicate Registered(h: History, clock: int) {
    0 <= clock &&
    forall id :: id in h.tasks ==>
      h.tasks[id].id == id && h.tasks[id].attempts == 0 && 0 <= h.tasks[id].enqueued <= clock
  }

  function Tries(h: History, id: string): nat {
    Count(h.handed, id) + Count(h.cut, id)
  }

  ghost predicate Traced(h: History, t: Task) {
    t.id in h.tasks && h.tasks[t.id] == t.(attempts := 0) && t.attempts == Tries(h, t.id)
  }

  ghost predicate AllTraced(h: History, ts: seq<Task>) {
    forall t :: t in ts ==> Traced(h, t)
  }

  ghost predicate Waiting(h: History, ts: seq<Task>) {
    forall t :: t in ts ==> Survives(t) && Count(h.handed, t.id) <= h.crashes
  }

  ghost predicate Bounded(h: History) {
    && (forall id :: Tries(h, id) <= MAX_ATTEMPTS && Count(h.handed, id) <= h.crashes + 1)
    && (forall id :: id !in h.tasks ==> Tries(h, id) == 0)
  }

  ghost predicate DroppedWhenSpent(h: History) {
    forall id :: id in h.dropped ==> id in h.tasks && Tries(h, id) == MAX_ATTEMPTS
  }

  /** The attempts on disk are the deliveries made plus those a crash inside Next cut short. */
  ghost predicate Counted(s: Sys) {
    && Registered(s.h, s.clock)
    && AllTraced(s.h, Backlog(s))
    && Waiting(s.h, s.q.pending)
    && Bounded(s.h)
    && DroppedWhenSpent(s.h)
  }

  lemma {:induction false} IdsDiffer(h: History, b: seq<Task>)
    requires Ascending(b) && b != [] && AllTraced(h, b)
    ensures forall t :: t in b[1..] ==> t.id != b[0].id && t in b
  {
    forall t | t in b[1..] ensures t.id != b[0].id && t in b {
      var i :| 1 <= i < |b| && b[i] == t;
      assert b[0].enqueued < b[i].enqueued;
      assert b[0] in b && b[i] in b;
      assert Traced(h, b[0]) && Traced(h, t);
    }
  }

  /** Counting one more try of the head, whether or not it was handed over. */
  lemma {:induction false} HeadTried(h: History, b: seq<Task>, h': History)
    requires Ascending(b) && b != [] && AllTraced(h, b) && Waiting(h, b) && Bounded(h) && DroppedWhenSpent(h)
    requires h' == h.(handed := Plus1(h.handed, b[0].id)) || h' == h.(cut := Plus1(h.cut, b[0].id))
    ensures AllTraced(h', [Attempt(b[0])] + b[1..]) && Waiting(h', b[1..]) && Bounded(h') && DroppedWhenSpent(h')
  {
    var id0 := b[0].id;
    IdsDiffer(h, b);
    assert b[0] in b && Traced(h, b[0]);
    assert forall id :: Tries(h', id) == Tries(h, id) + (if id == id0 then 1 else 0);
    assert forall id :: id != id0 ==> Count(h'.handed, id) == Count(h.handed, id);
    forall t | t in b[1..] ensures Traced(h', t) {
      assert Traced(h, t);
    }
    assert Tries(h, id0) < MAX_ATTEMPTS;
  }

  lemma {:induction false} CountedRestart(b: seq<Task>, d: Disk, h: History, clock: int, now: int, s': Sys)
    requires FilesAre(d.pending, b) && Ascending(b)
    requires Registered(h, clock) && AllTraced(h, b) && Bounded(h) && DroppedWhenSpent(h)
    requires clock < now && Restart(d, h, now, s')
    ensures Counted(s')
  {
    LoadedIsSurvivors(d, b, s'.q.pending);
    assert Backlog(s') == s'.q.pending;
    assert forall id :: Count(s'.h.handed, id) == Count(h.handed, id) && Tries(s'.h, id) == Tries(h, id);
    forall id | id in s'.h.dropped ensures id in h.tasks && Tries(h, id) == MAX_ATTEMPTS {
      if id !in h.dropped {
        var f :| f in OverLimit(d) && f.id == id;
        assert d.pending[f] in b && Traced(h, d.pending[f]);
      }
    }
    forall t | t in s'.q.pending ensures Traced(s'.h, t) && Survives(t) {
      assert t in b && Traced(h, t);
    }
  }

  lemma {:induction false} CountedCrash(cfg: Config, s: Sys, step: Step, s': Sys)
    requires Filed(cfg, s) && Counted(s) && Moves(cfg, s, step, s') && IsCrash(step)
    ensures Counted(s')
  {
    if step.CrashInNext? {
      CutShortRestart(s, step, s');
    } else {
      PlainRestart(s, step, s');
    }
  }

  lemma {:induction false} PlainRestart(s: Sys, step: Step, s': Sys)
    requires FilesAre(s.q.disk.pending, Backlog(s)) && Ascending(Backlog(s)) && Counted(s)
    requires IsCrash(step) && !step.CrashInNext? && CrashEnabled(s, step)
    requires Restart(CrashDisk(s, step), CrashHistory(s, step), step.now, s')
    ensures Counted(s')
  {
    SameTries(s.h, CrashHistory(s, step), Backlog(s));
    assert CrashDisk(s, step).pending == s.q.disk.pending;
    CountedRestart(Backlog(s), CrashDisk(s, step), CrashHistory(s, step), s.clock, step.now, s');
  }

  lemma {:induction false} CutShortRestart(s: Sys, step: Step, s': Sys)
    requires FilesAre(s.q.disk.pending, Backlog(s)) && Ascending(Backlog(s)) && Counted(s)
    requires step.CrashInNext? && CrashEnabled(s, step)
    requires Restart(CrashDisk(s, step), CrashHistory(s, step), step.now, s')
    ensures Counted(s')
  {
    CountedCutShort(s, step);
    CountedRestart([Attempt(Backlog(s)[0])] + Backlog(s)[1..], CrashDisk(s, step), CrashHistory(s, step), s.clock, step.now, s');
  }

  lemma {:induction false} SameTries(h: History, h': History, b: seq<Task>)
    requires AllTraced(h, b) && Bounded(h) && DroppedWhenSpent(h)
    requires h'.tasks == h.tasks && h'.handed == h.handed && h'.cut == h.cut
    requires h'.dropped == h.dropped && h'.crashes == h.crashes
    ensures AllTraced(h', b) && Bounded(h') && DroppedWhenSpent(h')
  {
    assert forall id :: Tries(h', id) == Tries(h, id);
    forall t | t in b ensures Traced(h', t) {
      assert Traced(h, t);
    }
  }

  lemma {:induction false} CountedCutShort(s: Sys, step: Step)
    requires step.CrashInNext? && s.phase == Idle && s.q.pending != [] && Counted(s)
    requires FilesAre(s.q.disk.pending, Backlog(s)) && Ascending(Backlog(s))
    ensures var b, h := [Attempt(Backlog(s)[0])] + Backlog(s)[1..], CrashHistory(s, step);
            && FilesAre(CrashDisk(s, step).pending, b) && Ascending(b)
            && AllTraced(h, b) && Bounded(h) && DroppedWhenSpent(h)
  {
    var b := Backlog(s);
    assert b == s.q.pending;
    HeadTried(s.h, b, CrashHistory(s, step));
    RewritingTheHead(s.q.disk.pending, b);
  }

  lemma {:induction false} CountedEnqueue(cfg: Config, s: Sys, step: Step, s': Sys)
    requires Filed(cfg, s) && Counted(s) && Moves(cfg, s, step, s') && step.Enqueue?
    ensures Counted(s')
  {
    var t := NewTask(step.ev, step.id, step.now, step.m);
    var h, h' := s.h, s'.h;
    assert Backlog(s') == Backlog(s) + [t] && s'.q.pending == s.q.pending + [t];
    assert forall id :: Tries(h', id) == Tries(h, id) && Count(h'.handed, id) == Count(h.handed, id);
    assert Tries(h, t.id) == 0;
    forall u | u in Backlog(s') ensures Traced(h', u) {
      assert u != t ==> Traced(h, u);
    }
  }

  lemma {:induction false} CountedPreserved(cfg: Config, s: Sys, step: Step, s': Sys)
    requires Filed(cfg, s) && Counted(s) && Moves(cfg, s, step, s')
    ensures Counted(s')
  {
    match step {
      case Enqueue(_, _, _, _) => CountedEnqueue(cfg, s, step, s');
      case Next =>
        assert Backlog(s) == s.q.pending && Backlog(s') == [Attempt(s.q.pending[0])] + s.q.pending[1..];
        HeadTried(s.h, s.q.pending, s'.h);
      case Finish => CountedLeave(cfg, s, step, s');
      case ParkDone => CountedLeave(cfg, s, step, s');
      case Refuse =>
      case Run(_) => CountedSame(s, s');
      case ParkWrite(_, _, _, _) => CountedSame(s, s');
      case ParkInsert =>
      case _ => CountedCrash(cfg, s, step, s');
    }
  }

  lemma {:induction false} CountedLeave(cfg: Config, s: Sys, step: Step, s': Sys)
    requires Filed(cfg, s) && Counted(s) && Moves(cfg, s, step, s') && (step.Finish? || step.ParkDone?)
    ensures Counted(s')
  {
    assert Backlog(s') == Backlog(s)[1..];
    CountedSame(s, s');
  }

  lemma {:induction false} CountedSame(s: Sys, s': Sys)
    requires Counted(s)
    requires s'.h.tasks == s.h.tasks && s'.h.handed == s.h.handed && s'.h.cut == s.h.cut
    requires s'.h.dropped == s.h.dropped && s'.h.crashes == s.h.crashes && s.clock <= s'.clock
    requires s'.q.pending == s.q.pending && forall t :: t in Backlog(s') ==> t in Backlog(s)
    ensures Counted(s')
  {
    assert forall id :: Tries(s'.h, id) == Tries(s.h, id) && Count(s'.h.handed, id) == Count(s.h.handed, id);
    forall t | t in Backlog(s') ensures Traced(s'.h, t) {
      assert Traced(s.h, t);
    }
  }

  // ---------- Questions ----------

  /** Every record held is a question that was asked and that no task has taken up. */
  ghost predicate Open(h: History, parked: map<string, Parked>) {
    forall id :: id in parked ==>
      parked[id].taskId == id && Asked(h, parked[id]) && parked[id].asked !in h.taken
  }

  ghost predicate Asked(h: History, p: Parked) {
    p.asked in h.parks && h.parks[p.asked] == p
  }

  /** t takes up p in time. */
  ghost predicate TakesUp(t: Task, p: Parked) {
    Resumes(t, p) && p.asked < t.enqueued
  }

  ghost predicate AskedInTime(h: History, clock: int) {
    forall a :: a in h.parks ==> h.parks[a].asked == a && a <= clock && h.parks[a].taskId in h.tasks
  }

  ghost predicate TakenUp(h: History) {
    && (forall a :: a in h.taken ==> a in h.parks && h.taken[a] in h.tasks && TakesUp(h.tasks[h.taken[a]], h.parks[a]))
    && (forall id :: id in h.tasks && h.tasks[id].resume.Some? ==>
                       h.tasks[id].resume.value.asked in h.taken && h.taken[h.tasks[id].resume.value.asked] == id)
  }

  ghost predicate NotYetInserted(s: Sys) {
    s.phase.Parking? && !s.phase.inserted ==>
      && s.phase.question.asked !in s.h.taken
      && forall id :: id in s.q.parked ==> s.q.parked[id].asked != s.phase.question.asked
  }

  ghost predicate Questioned(s: Sys) {
    && Open(s.h, s.q.parked)
    && Open(s.h, s.q.disk.parked)
    && AskedInTime(s.h, s.clock)
    && TakenUp(s.h)
    && (s.phase.Parking? ==> Asked(s.h, s.phase.question) && s.phase.question.taskId == s.phase.task.id)
    && NotYetInserted(s)
  }

  lemma {:induction false} AnswerIsLive(parked: map<string, Parked>, keys: seq<string>, now: int, m: Option<Parked>)
    requires Answers(parked, keys, now, m) && m.Some?
    ensures m.value.taskId in parked && parked[m.value.taskId] == m.value
    ensures Live(m.value, now) && exists key :: key in keys && key in m.value.keys
  {
    var i :| 0 <= i < |keys| && Chosen(parked, keys, i, now, m.value);
    assert keys[i] in keys;
  }

  lemma {:induction false} QuestionedEnqueue(cfg: Config, s: Sys, step: Step, s': Sys)
    requires Counted(s) && Questioned(s) && Moves(cfg, s, step, s') && step.Enqueue?
    ensures Questioned(s')
  {
    var h, h', m := s.h, s'.h, step.m;
    if m.Some? {
      AnswerIsLive(s.q.parked, ResumeKeys(step.ev), step.now, m);
      assert Asked(h, m.value);
    }
    TakenUpEnqueue(cfg, s, step, s');
    OpenShrinks(h, s.q.parked, h', s'.q.parked, m);
    OpenShrinks(h, s.q.disk.parked, h', s'.q.disk.parked, m);
  }

  lemma {:induction false} TakenUpEnqueue(cfg: Config, s: Sys, step: Step, s': Sys)
    requires Counted(s) && Questioned(s) && Moves(cfg, s, step, s') && step.Enqueue?
    ensures TakenUp(s'.h)
  {
    var h, h', m := s.h, s'.h, step.m;
    var t := NewTask(step.ev, step.id, step.now, m);
    if m.Some? {
      AnswerIsLive(s.q.parked, ResumeKeys(step.ev), step.now, m);
      assert Asked(h, m.value) && m.value.asked <= s.clock;
      assert TakesUp(t, m.value);
    }
    forall a | a in h'.taken
      ensures a in h'.parks && h'.taken[a] in h'.tasks && TakesUp(h'.tasks[h'.taken[a]], h'.parks[a])
    {
      assert a in h.taken ==> h.taken[a] in h.tasks && h.taken[a] != step.id;
    }
    forall id | id in h'.tasks && h'.tasks[id].resume.Some?
      ensures h'.tasks[id].resume.value.asked in h'.taken && h'.taken[h'.tasks[id].resume.value.asked] == id
    {
      if id != step.id && m.Some? {
        assert m.value.asked !in h.taken;
      }
    }
  }

  lemma {:induction false} OpenShrinks(
      h: History, parked: map<string, Parked>, h': History, parked': map<string, Parked>, m: Option<Parked>)
    requires Open(h, parked) && h'.parks == h.parks
    requires forall id :: id in parked' ==> id in parked && parked'[id] == parked[id]
    requires m.Some? ==> Asked(h, m.value) && m.value.taskId !in parked'
    requires h'.taken.Keys == h.taken.Keys + (if m.Some? then {m.value.asked} else {})
    ensures Open(h', parked')
  {
    forall id | id in parked'
      ensures parked'[id].taskId == id && Asked(h', parked'[id]) && parked'[id].asked !in h'.taken
    {
      assert Asked(h, parked[id]);
    }
  }

  lemma {:induction false} QuestionedPark(cfg: Config, s: Sys, step: Step, s': Sys)
    requires Filed(cfg, s) && Counted(s) && Questioned(s) && Moves(cfg, s, step, s')
    requires step.ParkWrite? || step.ParkInsert? || step.ParkDone?
    ensures Questioned(s')
  {
    if step.ParkWrite? {
      QuestionedWrite(cfg, s, step, s');
    }
  }

  lemma {:induction false} QuestionedWrite(cfg: Config, s: Sys, step: Step, s': Sys)
    requires Counted(s) && Questioned(s) && Acts(cfg, s, step, s') && step.ParkWrite?
    ensures Questioned(s')
  {
    assert s.phase.task in Backlog(s) && Traced(s.h, s.phase.task);
    assert step.now !in s.h.parks && step.now !in s.h.taken;
    assert forall p :: Asked(s.h, p) ==> Asked(s'.h, p) && p.asked != step.now;
  }

  lemma {:induction false} QuestionedCrash(cfg: Config, s: Sys, step: Step, s': Sys)
    requires Counted(s) && Questioned(s) && Moves(cfg, s, step, s') && IsCrash(step)
    ensures Questioned(s')
  {
    assert forall p :: Asked(s.h, p) ==> Asked(s'.h, p);
  }

  lemma {:induction false} QuestionedPreserved(cfg: Config, s: Sys, step: Step, s': Sys)
    requires Filed(cfg, s) && Counted(s) && Questioned(s) && Moves(cfg, s, step, s')
    ensures Questioned(s')
  {
    match step {
      case Enqueue(_, _, _, _) => QuestionedEnqueue(cfg, s, step, s');
      case ParkWrite(_, _, _, _) => QuestionedPark(cfg, s, step, s');
      case ParkInsert => QuestionedPark(cfg, s, step, s');
      case ParkDone => QuestionedPark(cfg, s, step, s');
      case Refuse =>
      case Next => assert forall p :: Asked(s.h, p) ==> Asked(s'.h, p);
      case Run(_) => assert forall p :: Asked(s.h, p) ==> Asked(s'.h, p);
      case Finish => assert forall p :: Asked(s.h, p) ==> Asked(s'.h, p);
      case _ => QuestionedCrash(cfg, s, step, s');
    }
  }

  // ---------- The first request ----------

  ghost predicate HasParent(tasks: map<string, Task>, t: Task) {
    t.resume.Some? && t.resume.value.taskId in tasks && 0 <= tasks[t.resume.value.taskId].enqueued < t.enqueued
  }

  /** What the first event of id's chain of parked and resumed tasks said. */
  ghost function Root(tasks: map<string, Task>, id: string): string
    requires id in tasks
    decreases tasks[id].enqueued
  {
    var t := tasks[id];
    if HasParent(tasks, t) then Root(tasks, t.resume.value.taskId) else t.event.content
  }

  /** Resumes point back at tasks that were written, and repeat the first request of the chain. */
  ghost predicate Rooted(h: History) {
    && (forall id :: id in h.tasks && h.tasks[id].resume.Some? ==>
                       HasParent(h.tasks, h.tasks[id]) && h.tasks[id].resume.value.request == Root(h.tasks, id))
    && (forall a :: a in h.parks ==>
                      h.parks[a].taskId in h.tasks && h.parks[a].request == Root(h.tasks, h.parks[a].taskId)
                      && 0 <= h.tasks[h.parks[a].taskId].enqueued < a)
  }

  lemma {:induction false} RootKept(tasks: map<string, Task>, id': string, t': Task, id: string)
    requires id in tasks && id' !in tasks
    requires forall i :: i in tasks && tasks[i].resume.Some? ==> HasParent(tasks, tasks[i])
    ensures Root(tasks[id' := t'], id) == Root(tasks, id)
    decreases tasks[id].enqueued
  {
    var t := tasks[id];
    if t.resume.Some? {
      RootKept(tasks, id', t', t.resume.value.taskId);
    }
  }

  lemma {:induction false} AnswerIsRooted(cfg: Config, s: Sys, step: Step, s': Sys)
    requires Counted(s) && Questioned(s) && Rooted(s.h) && Moves(cfg, s, step, s') && step.Enqueue? && step.m.Some?
    ensures var t := s'.h.tasks[step.id];
            && t.resume.Some? && HasParent(s'.h.tasks, t) && t.resume.value.request == Root(s'.h.tasks, step.id)
  {
    var m := step.m.value;
    AnswerIsLive(s.q.parked, ResumeKeys(step.ev), step.now, step.m);
    assert Asked(s.h, m);
    RootKept(s.h.tasks, step.id, s'.h.tasks[step.id], m.taskId);
    assert s'.h.tasks[step.id] == NewTask(step.ev, step.id, step.now, step.m);
  }

  lemma {:induction false} RootedEnqueue(cfg: Config, s: Sys, step: Step, s': Sys)
    requires Counted(s) && Questioned(s) && Rooted(s.h) && Moves(cfg, s, step, s') && step.Enqueue?
    ensures Rooted(s'.h)
  {
    var tasks, tasks' := s.h.tasks, s'.h.tasks;
    forall i | i in tasks ensures Root(tasks', i) == Root(tasks, i) {
      RootKept(tasks, step.id, tasks'[step.id], i);
    }
    if step.m.Some? {
      AnswerIsRooted(cfg, s, step, s');
    }
    forall i | i in tasks' && tasks'[i].resume.Some?
      ensures HasParent(tasks', tasks'[i]) && tasks'[i].resume.value.request == Root(tasks', i)
    {
      assert i != step.id ==> HasParent(tasks, tasks[i]);
    }
  }

  lemma {:induction false} RootedPreserved(cfg: Config, s: Sys, step: Step, s': Sys)
    requires Filed(cfg, s) && Counted(s) && Questioned(s) && Rooted(s.h) && Moves(cfg, s, step, s')
    ensures Rooted(s'.h)
  {
    if step.Enqueue? {
      RootedEnqueue(cfg, s, step, s');
    } else if step.ParkWrite? {
      RootedPark(cfg, s, step, s');
    } else {
      assert s'.h.tasks == s.h.tasks && s'.h.parks == s.h.parks;
    }
  }

  lemma {:induction false} RootedPark(cfg: Config, s: Sys, step: Step, s': Sys)
    requires Counted(s) && Questioned(s) && Rooted(s.h) && Acts(cfg, s, step, s') && step.ParkWrite?
    ensures Rooted(s'.h)
  {
    var t := s.phase.task;
    assert t in Backlog(s) && Traced(s.h, t);
    assert s'.h.tasks == s.h.tasks && step.now !in s.h.parks;
    assert RequestOf(t) == Root(s.h.tasks, t.id);
  }

  // ---------- No request vanishes ----------

  /** Question a is on disk, or an answer took it up, or it ran out, or was lost in one of two ways. */
  ghost predicate QuestionKept(s: Sys, a: int) {
    OnDisk(s, a) || a in s.h.taken || a in s.h.expired || a in s.h.lost || a in s.h.unfiled
  }

  ghost predicate OnDisk(s: Sys, a: int) {
    a in s.h.parks && s.h.parks[a].taskId in s.q.disk.parked && s.q.disk.parked[s.h.parks[a].taskId].asked == a
  }

  ghost predicate Newer(h: History, a: int, b: int) {
    a in h.parks && b in h.parks && a < b && h.parks[a].taskId == h.parks[b].taskId
  }

  ghost predicate AskedAgain(h: History, a: int) {
    exists b :: Newer(h, a, b)
  }

  ghost predicate AskedFor(h: History, id: string) {
    exists a :: a in h.parks && h.parks[a].taskId == id
  }

  ghost predicate PendingFile(s: Sys, id: string) {
    exists f :: f in s.q.disk.pending && f.id == id
  }

  ghost predicate Kept(s: Sys) {
    && (forall id :: id in s.h.tasks ==> PendingFile(s, id) || id in s.h.done || id in s.h.dropped || AskedFor(s.h, id))
    && (forall a :: a in s.h.parks ==> QuestionKept(s, a) || AskedAgain(s.h, a))
    && (s.phase.Parking? ==> QuestionKept(s, s.phase.question.asked))
  }

  /** The last question task id asked. */
  ghost predicate Latest(h: History, id: string, a: int) {
    a in h.parks && h.parks[a].taskId == id && !AskedAgain(h, a)
  }

  ghost predicate AccountedFor(s: Sys, id: string) {
    PendingFile(s, id) || id in s.h.done || id in s.h.dropped || exists a :: Latest(s.h, id, a) && QuestionKept(s, a)
  }

  lemma {:induction false} LatestExists(h: History, a: int, later: set<int>) returns (b: int)
    requires a in h.parks && forall c :: c in later <==> Newer(h, a, c)
    ensures Latest(h, h.parks[a].taskId, b)
    decreases later
  {
    b := a;
    if AskedAgain(h, a) {
      var c :| Newer(h, a, c);
      var later' := set d | d in later && Newer(h, c, d);
      assert c in later && c !in later';
      assert forall d :: Newer(h, c, d) ==> Newer(h, a, d);
      b := LatestExists(h, c, later');
    }
  }

  lemma {:induction false} KeptAccounts(s: Sys, id: string)
    requires Kept(s) && id in s.h.tasks
    ensures AccountedFor(s, id)
  {
    if AskedFor(s.h, id) {
      var a :| a in s.h.parks && s.h.parks[a].taskId == id;
      var b := LatestExists(s.h, a, set c | c in s.h.parks && Newer(s.h, a, c));
      assert Latest(s.h, id, b) && QuestionKept(s, b);
    }
  }

  /** Each of memory's records under ids, and the file beside it, is settled one way or another. */
  lemma {:induction false} RemovedIsKept(s: Sys, ids: set<string>, a: int)
    requires ids <= s.q.parked.Keys && OnDisk(s, a) && s.h.parks[a].taskId in ids
    requires Open(s.h, s.q.disk.parked)
    ensures a in Asks(s.q.parked, ids) || a in Unfiled(s.q, ids)
  {
    var id := s.h.parks[a].taskId;
    assert s.q.disk.parked[id].asked == a;
    if s.q.disk.parked[id] == s.q.parked[id] {
      assert s.q.parked[id].asked == a;
    }
  }

  lemma {:induction false} EnqueueKeepsQuestion(cfg: Config, s: Sys, step: Step, s': Sys, a: int)
    requires Questioned(s) && Moves(cfg, s, step, s') && step.Enqueue? && QuestionKept(s, a)
    ensures QuestionKept(s', a)
  {
    var expired := Expired(s.q.parked, step.ev, step.now);
    if step.m.Some? {
      AnswerIsLive(s.q.parked, ResumeKeys(step.ev), step.now, step.m);
    }
    if OnDisk(s, a) {
      var id := s.h.parks[a].taskId;
      if id in expired + Consumed(step.m) {
        RemovedIsKept(s, expired + Consumed(step.m), a);
        if a in Asks(s.q.parked, expired + Consumed(step.m)) {
          AsksSplit(s.q.parked, expired, Consumed(step.m), a);
        }
      }
    }
  }

  lemma {:induction false} AsksSplit(parked: map<string, Parked>, ids: set<string>, more: set<string>, a: int)
    requires a in Asks(parked, ids + more)
    ensures a in Asks(parked, ids) || a in Asks(parked, more)
  {
  }

  lemma {:induction false} CrashKeepsQuestion(cfg: Config, s: Sys, step: Step, s': Sys, a: int)
    requires Questioned(s) && Moves(cfg, s, step, s') && IsCrash(step) && QuestionKept(s, a)
    ensures QuestionKept(s', a)
  {
    if OnDisk(s, a) {
      if s.h.parks[a].taskId in CrashDisk(s, step).parked {
        FiledOrExpired(s, step, s', a);
      } else {
        CutIsKept(s, step, a);
      }
    }
  }

  lemma {:induction false} FiledOrExpired(s: Sys, step: Step, s': Sys, a: int)
    requires IsCrash(step) && CrashEnabled(s, step) && OnDisk(s, a)
    requires Restart(CrashDisk(s, step), CrashHistory(s, step), step.now, s')
    requires s.h.parks[a].taskId in CrashDisk(s, step).parked
    ensures OnDisk(s', a) || a in s'.h.expired
  {
    var d, id := CrashDisk(s, step), s.h.parks[a].taskId;
    assert d.parked[id] == s.q.disk.parked[id];
    assert id in Stale(d, step.now) ==> a in Asks(d.parked, Stale(d, step.now));
  }

  lemma {:induction false} CutIsKept(s: Sys, step: Step, a: int)
    requires Questioned(s) && IsCrash(step) && CrashEnabled(s, step) && OnDisk(s, a)
    requires s.h.parks[a].taskId !in CrashDisk(s, step).parked
    ensures var h := CrashHistory(s, step); a in h.expired || a in h.lost || a in h.unfiled
  {
    match step {
      case CrashInSweep(ev, at, gone, _) => RemovedIsKept(s, gone, a);
      case CrashInEnqueue(ev, at, m, _) =>
        var expired := Expired(s.q.parked, ev, at);
        if m.Some? {
          AnswerIsLive(s.q.parked, ResumeKeys(ev), at, m);
        }
        RemovedIsKept(s, expired + Consumed(m), a);
        if a in Asks(s.q.parked, expired + Consumed(m)) {
          AsksSplit(s.q.parked, expired, Consumed(m), a);
        }
      case _ =>
    }
  }

  /** A question stays settled or filed, unless its task asks again. */
  lemma {:induction false} QuestionStaysKept(cfg: Config, s: Sys, step: Step, s': Sys, a: int)
    requires Questioned(s) && Moves(cfg, s, step, s') && a in s.h.parks && QuestionKept(s, a)
    ensures QuestionKept(s', a) || (step.ParkWrite? && AskedAgain(s'.h, a))
  {
    if step.Enqueue? {
      EnqueueKeepsQuestion(cfg, s, step, s', a);
    } else if IsCrash(step) {
      CrashKeepsQuestion(cfg, s, step, s', a);
    } else if step.ParkWrite? {
      assert step.now !in s.h.parks;
      if s.h.parks[a].taskId == s.phase.task.id {
        assert Newer(s'.h, a, step.now);
      }
    }
  }

  lemma {:induction false} QuestionsStayKept(cfg: Config, s: Sys, step: Step, s': Sys)
    requires Questioned(s) && Kept(s) && Moves(cfg, s, step, s')
    ensures forall a :: a in s'.h.parks ==> QuestionKept(s', a) || AskedAgain(s'.h, a)
    ensures s'.phase.Parking? ==> QuestionKept(s', s'.phase.question.asked)
  {
    if s'.phase.Parking? && s.phase.Parking? {
      assert Asked(s.h, s.phase.question);
      QuestionStaysKept(cfg, s, step, s', s.phase.question.asked);
    } else if s'.phase.Parking? {
      assert OnDisk(s', s'.phase.question.asked);
    }
    forall a | a in s'.h.parks ensures QuestionKept(s', a) || AskedAgain(s'.h, a) {
      if a !in s.h.parks {
        assert OnDisk(s', a);
      } else if QuestionKept(s, a) {
        QuestionStaysKept(cfg, s, step, s', a);
      } else {
        var b :| Newer(s.h, a, b);
        assert step.ParkWrite? ==> step.now !in s.h.parks;
        assert Newer(s'.h, a, b);
      }
    }
  }

  lemma {:induction false} PendingStaysAccounted(cfg: Config, s: Sys, step: Step, s': Sys, f: Slot)
    requires Filed(cfg, s) && Questioned(s) && Moves(cfg, s, step, s') && f in s.q.disk.pending
    ensures PendingFile(s', f.id) || f.id in s'.h.done || f.id in s'.h.dropped || AskedFor(s'.h, f.id)
  {
    if f in s'.q.disk.pending {
      assert PendingFile(s', f.id);
    } else if step.ParkDone? {
      assert Asked(s.h, s.phase.question) && s.phase.question.taskId == f.id;
      assert s'.h.parks[s.phase.question.asked].taskId == f.id;
    } else if IsCrash(step) {
      GoneIsDropped(cfg, s, step, s', f);
    }
  }

  lemma {:induction false} GoneIsDropped(cfg: Config, s: Sys, step: Step, s': Sys, f: Slot)
    requires Moves(cfg, s, step, s') && IsCrash(step) && f in s.q.disk.pending && f !in s'.q.disk.pending
    ensures f.id in s'.h.dropped
  {
    var d := CrashDisk(s, step);
    assert f in d.pending && f in OverLimit(d);
  }

  lemma {:induction false} AskedForStays(cfg: Config, s: Sys, step: Step, s': Sys, id: string)
    requires Questioned(s) && Moves(cfg, s, step, s') && AskedFor(s.h, id)
    ensures AskedFor(s'.h, id)
  {
    var a :| a in s.h.parks && s.h.parks[a].taskId == id;
    assert step.ParkWrite? ==> step.now !in s.h.parks;
    assert a in s'.h.parks && s'.h.parks[a].taskId == id;
  }

  lemma {:induction false} KeptPreserved(cfg: Config, s: Sys, step: Step, s': Sys)
    requires Filed(cfg, s) && Counted(s) && Questioned(s) && Kept(s) && Moves(cfg, s, step, s')
    ensures Kept(s')
  {
    QuestionsStayKept(cfg, s, step, s');
    forall id | id in s'.h.tasks
      ensures PendingFile(s', id) || id in s'.h.done || id in s'.h.dropped || AskedFor(s'.h, id)
    {
      if id !in s.h.tasks {
        assert SlotOf(s'.h.tasks[id]) in s'.q.disk.pending;
        assert PendingFile(s', id);
      } else if PendingFile(s, id) {
        var f :| f in s.q.disk.pending && f.id == id;
        PendingStaysAccounted(cfg, s, step, s', f);
      } else if AskedFor(s.h, id) {
        AskedForStays(cfg, s, step, s', id);
      } else {
        assert id in s.h.done ==> id in s'.h.done;
        assert id in s.h.dropped ==> id in s'.h.dropped;
      }
    }
  }

  // ---------- Questions in memory and on disk ----------

  /** A question of task id is written and not yet known to ingest. */
  ghost predicate BeingParked(s: Sys, id: string) {
    s.phase.Parking? && !s.phase.inserted && s.phase.task.id == id
  }

  /** Memory and disk hold the same questions, but for one being parked and for those whose file is gone. */
  ghost predicate Mirrored(s: Sys) {
    && (forall id :: id in s.q.disk.parked ==>
                       s.q.disk.parked[id].asked !in s.h.unfiled
                       && if BeingParked(s, id) then s.q.disk.parked[id] == s.phase.question
                          else id in s.q.parked && s.q.parked[id] == s.q.disk.parked[id])
    && (forall id :: id in s.q.parked && !BeingParked(s, id) && id !in s.q.disk.parked ==>
                       s.q.parked[id].asked in s.h.unfiled)
    && (s.phase.Parking? && !s.phase.inserted && s.phase.task.id !in s.q.disk.parked ==>
          s.phase.question.asked in s.h.unfiled)
    && s.h.unfiled <= s.h.parks.Keys
  }

  /** Asks name their record, so what settling ids unfiles was filed under ids. */
  lemma {:induction false} UnfiledIsThere(s: Sys, ids: set<string>, id: string)
    requires Questioned(s) && id !in ids
    ensures id in s.q.disk.parked ==> s.q.disk.parked[id].asked !in Unfiled(s.q, ids)
    ensures Unfiled(s.q, ids) <= s.h.parks.Keys
  {
    if id in s.q.disk.parked {
      assert Asked(s.h, s.q.disk.parked[id]);
    }
    forall a | a in Unfiled(s.q, ids)
      ensures a in s.h.parks && (id in s.q.disk.parked ==> a != s.q.disk.parked[id].asked)
    {
      var g :| g in ids && g in s.q.parked && g in s.q.disk.parked && s.q.disk.parked[g] != s.q.parked[g]
               && a == s.q.disk.parked[g].asked;
      assert Asked(s.h, s.q.disk.parked[g]);
    }
  }

  lemma {:induction false} MirroredEnqueue(cfg: Config, s: Sys, step: Step, s': Sys)
    requires Questioned(s) && Mirrored(s) && Moves(cfg, s, step, s') && step.Enqueue?
    ensures Mirrored(s')
  {
    if step.m.Some? {
      AnswerIsLive(s.q.parked, ResumeKeys(step.ev), step.now, step.m);
    }
    SettlingMirrors(s, Expired(s.q.parked, step.ev, step.now) + Consumed(step.m), s');
  }

  /** Settling what memory holds under some ids, and the files beside it, keeps memory and disk alike. */
  lemma {:induction false} SettlingMirrors(s: Sys, gone: set<string>, s': Sys)
    requires Questioned(s) && Mirrored(s) && gone <= s.q.parked.Keys && s'.phase == s.phase
    requires s'.q.parked == s.q.parked - gone && s'.q.disk.parked == s.q.disk.parked - gone
    requires s'.h.parks == s.h.parks && s'.h.unfiled == s.h.unfiled + Unfiled(s.q, gone)
    ensures Mirrored(s')
  {
    forall id | id !in gone && id in s.q.disk.parked ensures s.q.disk.parked[id].asked !in Unfiled(s.q, gone) {
      UnfiledIsThere(s, gone, id);
    }
    if s.phase.Parking? && !s.phase.inserted && s.phase.task.id !in s'.q.disk.parked {
      ParkedIsUnfiled(s, gone);
    }
    UnfiledIsAsked(s, gone);
  }

  lemma {:induction false} UnfiledIsAsked(s: Sys, ids: set<string>)
    requires Questioned(s)
    ensures Unfiled(s.q, ids) <= s.h.parks.Keys
  {
    forall a | a in Unfiled(s.q, ids) ensures a in s.h.parks {
      var g :| g in ids && g in s.q.parked && g in s.q.disk.parked && s.q.disk.parked[g] != s.q.parked[g]
               && a == s.q.disk.parked[g].asked;
      assert Asked(s.h, s.q.disk.parked[g]);
    }
  }

  /** The question being parked loses its file only by being unfiled. */
  lemma {:induction false} ParkedIsUnfiled(s: Sys, gone: set<string>)
    requires Questioned(s) && Mirrored(s) && gone <= s.q.parked.Keys
    requires s.phase.Parking? && !s.phase.inserted && s.phase.task.id !in s.q.disk.parked - gone
    ensures s.phase.question.asked in s.h.unfiled + Unfiled(s.q, gone)
  {
    var id := s.phase.task.id;
    if id in s.q.disk.parked {
      assert BeingParked(s, id) && s.q.disk.parked[id] == s.phase.question;
      assert s.q.parked[id].asked != s.phase.question.asked;
    }
  }

  lemma {:induction false} MirroredCrash(cfg: Config, s: Sys, step: Step, s': Sys)
    requires Questioned(s) && Mirrored(s) && Moves(cfg, s, step, s') && IsCrash(step)
    ensures Mirrored(s')
  {
    var gone := CutFiles(s, step);
    UnfiledIsAsked(s, gone);
    forall id | id in s'.q.disk.parked ensures s'.q.disk.parked[id].asked !in s'.h.unfiled {
      UnfiledIsThere(s, gone, id);
    }
  }

  /** The questions' files that a crash inside Enqueue had removed. */
  function CutFiles(s: Sys, step: Step): set<string>
    requires IsCrash(step)
  {
    match step
    case CrashInSweep(_, _, gone, _) => gone
    case CrashInEnqueue(ev, at, m, _) => Expired(s.q.parked, ev, at) + Consumed(m)
    case _ => {}
  }

  lemma {:induction false} MirroredPreserved(cfg: Config, s: Sys, step: Step, s': Sys)
    requires Questioned(s) && Mirrored(s) && Moves(cfg, s, step, s')
    ensures Mirrored(s')
  {
    if step.Enqueue? {
      MirroredEnqueue(cfg, s, step, s');
    } else if IsCrash(step) {
      MirroredCrash(cfg, s, step, s');
    }
  }

  // ---------- Each question has one fate ----------

  /** Questions that ran out, or went with a crashed answer. */
  function Gone(h: History): set<int> {
    h.expired + h.lost
  }

  ghost predicate Absent(parked: map<string, Parked>, asks: set<int>) {
    forall id :: id in parked ==> parked[id].asked !in asks
  }

  /** Taken up, run out and lost exclude each other, and such questions are held nowhere. */
  ghost predicate Apart(s: Sys) {
    && s.h.taken.Keys !! Gone(s.h) && s.h.expired !! s.h.lost && Gone(s.h) <= s.h.parks.Keys
    && Absent(s.q.parked, Gone(s.h)) && Absent(s.q.disk.parked, Gone(s.h))
    && (s.phase.Parking? && !s.phase.inserted ==> s.phase.question.asked !in Gone(s.h))
  }

  /** What memory holds under ids is not what it, the files or the worker hold elsewhere. */
  lemma {:induction false} AsksAreTheirs(s: Sys, ids: set<string>)
    requires Questioned(s) && ids <= s.q.parked.Keys
    ensures Asks(s.q.parked, ids) <= s.h.parks.Keys && Asks(s.q.parked, ids) !! s.h.taken.Keys
    ensures Absent(s.q.parked - ids, Asks(s.q.parked, ids)) && Absent(s.q.disk.parked - ids, Asks(s.q.parked, ids))
    ensures s.phase.Parking? && !s.phase.inserted ==> s.phase.question.asked !in Asks(s.q.parked, ids)
  {
    forall a | a in Asks(s.q.parked, ids)
      ensures a in s.h.parks && a !in s.h.taken && s.h.parks[a].taskId in ids
    {
      var id :| id in ids && id in s.q.parked && s.q.parked[id].asked == a;
      assert Asked(s.h, s.q.parked[id]);
    }
    forall id | id in s.q.parked - ids ensures s.q.parked[id].asked !in Asks(s.q.parked, ids) {
      assert Asked(s.h, s.q.parked[id]);
    }
    forall id | id in s.q.disk.parked - ids ensures s.q.disk.parked[id].asked !in Asks(s.q.parked, ids) {
      assert Asked(s.h, s.q.disk.parked[id]);
    }
  }

  lemma {:induction false} AsksOfOne(parked: map<string, Parked>, m: Parked)
    requires m.taskId in parked && parked[m.taskId] == m
    ensures Asks(parked, {m.taskId}) == {m.asked}
  {
  }

  /** The question an event answers is live, so it is not among those swept. */
  lemma {:induction false} AnswerIsNotSwept(s: Sys, ev: Event, now: int, m: Parked)
    requires Questioned(s) && Answers(s.q.parked, ResumeKeys(ev), now, Some(m))
    ensures Asks(s.q.parked, {m.taskId}) == {m.asked} && m.taskId in s.q.parked
    ensures m.asked !in Asks(s.q.parked, Expired(s.q.parked, ev, now))
  {
    AnswerIsLive(s.q.parked, ResumeKeys(ev), now, Some(m));
    AsksOfOne(s.q.parked, m);
    var swept := Expired(s.q.parked, ev, now);
    AsksAreTheirs(s, swept);
    assert m.taskId in s.q.parked - swept;
  }

  /** Settling ids in one way or two leaves what is left apart from what is gone. */
  lemma {:induction false} ApartAfter(s: Sys, ids: set<string>, settled: set<int>)
    requires Questioned(s) && Apart(s) && ids <= s.q.parked.Keys && settled <= Asks(s.q.parked, ids)
    ensures Absent(s.q.parked - ids, Gone(s.h) + settled) && Absent(s.q.disk.parked - ids, Gone(s.h) + settled)
    ensures s.phase.Parking? && !s.phase.inserted ==> s.phase.question.asked !in Gone(s.h) + settled
    ensures settled !! s.h.taken.Keys && settled !! Gone(s.h) && settled <= s.h.parks.Keys
  {
    AsksAreTheirs(s, ids);
    forall a | a in settled ensures a !in Gone(s.h) {
      var id :| id in ids && id in s.q.parked && s.q.parked[id].asked == a;
    }
  }

  lemma {:induction false} AsksGrow(parked: map<string, Parked>, ids: set<string>, more: set<string>)
    ensures Asks(parked, ids) <= Asks(parked, ids + more) && Asks(parked, more) <= Asks(parked, ids + more)
  {
  }

  lemma {:induction false} ApartEnqueue(cfg: Config, s: Sys, step: Step, s': Sys)
    requires Questioned(s) && Apart(s) && Moves(cfg, s, step, s') && step.Enqueue?
    ensures Apart(s')
  {
    var swept, all := Expired(s.q.parked, step.ev, step.now), Expired(s.q.parked, step.ev, step.now) + Consumed(step.m);
    if step.m.Some? {
      AnswerIsNotSwept(s, step.ev, step.now, step.m.value);
    }
    AsksGrow(s.q.parked, swept, Consumed(step.m));
    ApartAfter(s, all, Asks(s.q.parked, swept));
    ApartAfter(s, all, Asks(s.q.parked, Consumed(step.m)));
    assert Gone(s'.h) == Gone(s.h) + Asks(s.q.parked, swept);
  }

  /** What a crash leaves on disk, and how it settles what it takes. */
  lemma {:induction false} ApartCut(s: Sys, step: Step)
    requires Questioned(s) && Apart(s) && IsCrash(step) && CrashEnabled(s, step)
    ensures var h, d := CrashHistory(s, step), CrashDisk(s, step);
            && h.taken == s.h.taken && h.parks == s.h.parks
            && h.taken.Keys !! Gone(h) && h.expired !! h.lost && Gone(h) <= h.parks.Keys && Absent(d.parked, Gone(h))
  {
    match step {
      case CrashInSweep(_, _, gone, _) =>
        ApartAfter(s, gone, Asks(s.q.parked, gone));
      case CrashInEnqueue(ev, at, m, _) =>
        var swept := Expired(s.q.parked, ev, at);
        if m.Some? {
          AnswerIsNotSwept(s, ev, at, m.value);
        }
        AsksGrow(s.q.parked, swept, Consumed(m));
        ApartAfter(s, swept + Consumed(m), Asks(s.q.parked, swept));
        ApartAfter(s, swept + Consumed(m), Asks(s.q.parked, Consumed(m)));
        assert Gone(CrashHistory(s, step)) == Gone(s.h) + Asks(s.q.parked, swept) + Asks(s.q.parked, Consumed(m));
      case _ =>
    }
  }

  lemma {:induction false} ApartCrash(cfg: Config, s: Sys, step: Step, s': Sys)
    requires Questioned(s) && Apart(s) && Moves(cfg, s, step, s') && IsCrash(step)
    ensures Apart(s')
  {
    var h, d := CrashHistory(s, step), CrashDisk(s, step);
    ApartCut(s, step);
    var stale := Stale(d, step.now);
    assert s'.h == Reopened(h, d, step.now) && s'.q.parked == s'.q.disk.parked == d.parked - stale;
    StaleAreTheirs(s, step, stale);
    assert Gone(s'.h) == Gone(h) + Asks(d.parked, stale);
  }

  lemma {:induction false} StaleAreTheirs(s: Sys, step: Step, stale: set<string>)
    requires Questioned(s) && Apart(s) && IsCrash(step) && CrashEnabled(s, step)
    requires stale <= CrashDisk(s, step).parked.Keys && Absent(CrashDisk(s, step).parked, Gone(CrashHistory(s, step)))
    ensures var d := CrashDisk(s, step);
            && Asks(d.parked, stale) <= s.h.parks.Keys && Asks(d.parked, stale) !! s.h.taken.Keys
            && Asks(d.parked, stale) !! Gone(CrashHistory(s, step)) && Absent(d.parked - stale, Asks(d.parked, stale))
  {
    var d := CrashDisk(s, step);
    forall a | a in Asks(d.parked, stale)
      ensures a in s.h.parks && a !in s.h.taken && s.h.parks[a].taskId in stale && a !in Gone(CrashHistory(s, step))
    {
      var id :| id in stale && id in d.parked && d.parked[id].asked == a;
      assert d.parked[id] == s.q.disk.parked[id] && Asked(s.h, s.q.disk.parked[id]);
    }
    forall id | id in d.parked - stale ensures d.parked[id].asked !in Asks(d.parked, stale) {
      assert d.parked[id] == s.q.disk.parked[id] && Asked(s.h, s.q.disk.parked[id]);
    }
  }

  lemma {:induction false} ApartPreserved(cfg: Config, s: Sys, step: Step, s': Sys)
    requires Questioned(s) && Apart(s) && Moves(cfg, s, step, s')
    ensures Apart(s')
  {
    if step.Enqueue? {
      ApartEnqueue(cfg, s, step, s');
    } else if IsCrash(step) {
      ApartCrash(cfg, s, step, s');
    } else if step.ParkWrite? {
      assert step.now !in s.h.parks;
    }
  }

  // ---------- Guarded calls ----------

  function GuardedRuns(guarded: set<string>, runs: seq<Execution>, id: string): nat {
    if runs == [] then 0
    else GuardedRuns(guarded, runs[..|runs| - 1], id)
         + (if runs[|runs| - 1].taskId == id && runs[|runs| - 1].call.tool in guarded then 1 else 0)
  }

  /** A question proposes only a call that needs one, so a resumed task can only be waiting on such a call. */
  ghost predicate Proposed(guarded: set<string>, h: History) {
    forall a :: a in h.parks && h.parks[a].pending.Some? ==> h.parks[a].pending.value.tool in guarded
  }

  /** Every guarded call that ran was granted to its task, and ran at most once per delivery. */
  ghost predicate Authorized(guarded: set<string>, s: Sys) {
    && (forall i :: 0 <= i < |s.h.executions| && s.h.executions[i].call.tool in guarded ==>
                      && s.h.executions[i].taskId in s.h.tasks
                      && Granted(s.h.tasks[s.h.executions[i].taskId], s.h.executions[i].call))
    && (forall id :: GuardedRuns(guarded, s.h.executions, id) <= Count(s.h.handed, id))
    && (s.phase.Running? && s.phase.ran == [] ==>
          GuardedRuns(guarded, s.h.executions, s.phase.task.id) < Count(s.h.handed, s.phase.task.id))
  }

  lemma {:induction false} AuthorizedRun(cfg: Config, s: Sys, step: Step, s': Sys)
    requires Filed(cfg, s) && Counted(s) && Authorized(cfg.guarded, s) && Moves(cfg, s, step, s') && step.Run?
    ensures Authorized(cfg.guarded, s')
  {
    var t, ran, call := s.phase.task, s.phase.ran, step.call;
    assert t in Backlog(s) && Traced(s.h, t);
    var runs' := s'.h.executions;
    assert runs'[..|runs'| - 1] == s.h.executions;
    if call.tool in cfg.guarded {
      assert (ran + [call])[|ran|] == call;
      assert ran == [] && Granted(t, call);
    }
  }

  lemma {:induction false} AuthorizedPreserved(cfg: Config, s: Sys, step: Step, s': Sys)
    requires Filed(cfg, s) && Counted(s) && Authorized(cfg.guarded, s) && Moves(cfg, s, step, s')
    ensures Authorized(cfg.guarded, s')
  {
    if step.Run? {
      AuthorizedRun(cfg, s, step, s');
    } else {
      AuthorizedSame(cfg, s, step, s');
    }
  }

  lemma {:induction false} AuthorizedSame(cfg: Config, s: Sys, step: Step, s': Sys)
    requires Filed(cfg, s) && Counted(s) && Authorized(cfg.guarded, s) && Acts(cfg, s, step, s') && !step.Run?
    ensures Authorized(cfg.guarded, s')
  {
    assert s'.h.executions == s.h.executions;
    forall id ensures GuardedRuns(cfg.guarded, s'.h.executions, id) <= Count(s'.h.handed, id) {
      assert Count(s.h.handed, id) <= Count(s'.h.handed, id);
    }
  }

  // ---------- Every run ----------

  ghost predicate Inv(cfg: Config, s: Sys) {
    Filed(cfg, s) && Counted(s) && Questioned(s) && Rooted(s.h) && Kept(s) && Mirrored(s)
    && Apart(s) && Proposed(cfg.guarded, s.h) && Authorized(cfg.guarded, s)
  }

  lemma {:induction false} InvStep(cfg: Config, s: Sys, step: Step, s': Sys)
    requires Inv(cfg, s) && Moves(cfg, s, step, s')
    ensures Inv(cfg, s')
  {
    assert Filed(cfg, s') by { FiledPreserved(cfg, s, step, s'); }
    assert Counted(s') by { CountedPreserved(cfg, s, step, s'); }
    assert Questioned(s') by { QuestionedPreserved(cfg, s, step, s'); }
    assert Rooted(s'.h) by { RootedPreserved(cfg, s, step, s'); }
    assert Kept(s') by { KeptPreserved(cfg, s, step, s'); }
    assert Mirrored(s') by { MirroredPreserved(cfg, s, step, s'); }
    assert Apart(s') by { ApartPreserved(cfg, s, step, s'); }
    assert Authorized(cfg.guarded, s') by { AuthorizedPreserved(cfg, s, step, s'); }
  }

  lemma {:induction false} InvNext(cfg: Config, states: seq<Sys>, steps: seq<Step>, i: nat)
    requires IsRun(cfg, states, steps) && i < |steps| && Inv(cfg, states[i])
    ensures Inv(cfg, states[i + 1])
  {
    var s, step, s' := states[i], steps[i], states[i + 1];
    assert Moves(cfg, s, step, s');
    InvStep(cfg, s, step, s');
  }

  lemma {:induction false} InvHolds(cfg: Config, states: seq<Sys>, steps: seq<Step>, i: nat)
    requires IsRun(cfg, states, steps) && i < |states|
    ensures Inv(cfg, states[i])
  {
    if i > 0 {
      InvHolds(cfg, states, steps, i - 1);
      InvNext(cfg, states, steps, i - 1);
    } else {
      InvAtFirst(cfg, states[0]);
    }
  }

  lemma InvAtFirst(cfg: Config, s: Sys)
    requires Init(s)
    ensures Inv(cfg, s)
  {
    assert Filed(cfg, s) && Counted(s);
    assert Questioned(s) && Rooted(s.h);
    assert Kept(s) && Mirrored(s) && Apart(s);
  }

  /**
   Approvals run exactly what was proposed: a guarded call that ran was put to the user
   in a question, a later event that carries one of the question's keys and plainly says
   yes took that question up, and the call is the very one proposed.
   */
  lemma {:induction false} GuardedCallsWereApproved(cfg: Config, states: seq<Sys>, steps: seq<Step>, i: nat, k: nat)
    requires IsRun(cfg, states, steps) && i < |states|
    requires k < |states[i].h.executions| && states[i].h.executions[k].call.tool in cfg.guarded
    ensures var h, e := states[i].h, states[i].h.executions[k];
            exists a ::
              && a in h.parks && a in h.taken && h.taken[a] == e.taskId && e.taskId in h.tasks
              && h.parks[a].pending.Some?
              && e.call == ToolRun(h.parks[a].pending.value.tool, h.parks[a].pending.value.arguments)
              && TakesUp(h.tasks[e.taskId], h.parks[a])
              && Approved(h.tasks[e.taskId].event.content)
  {
    InvHolds(cfg, states, steps, i);
    var h, e := states[i].h, states[i].h.executions[k];
    var a := h.tasks[e.taskId].resume.value.asked;
    assert a in h.taken && h.taken[a] == e.taskId && TakesUp(h.tasks[h.taken[a]], h.parks[a]);
  }

  /**
   Each question is taken up by one task and each task takes up one question; the call
   it proposed runs at most twice, and at most once if nothing crashed.
   */
  lemma {:induction false} ApprovedCallsRunOnce(cfg: Config, states: seq<Sys>, steps: seq<Step>, i: nat, a: int, b: int)
    requires IsRun(cfg, states, steps) && i < |states|
    requires a in states[i].h.taken && b in states[i].h.taken
    ensures var h := states[i].h;
            && (h.taken[a] == h.taken[b] ==> a == b)
            && GuardedRuns(cfg.guarded, h.executions, h.taken[a]) <= 2
            && GuardedRuns(cfg.guarded, h.executions, h.taken[a]) <= h.crashes + 1
    ensures forall x, y :: TookUp(states[i].h, x, a) && TookUp(states[i].h, y, a) ==> x == y
  {
    InvHolds(cfg, states, steps, i);
    var h := states[i].h;
    assert TakesUp(h.tasks[h.taken[a]], h.parks[a]) && TakesUp(h.tasks[h.taken[b]], h.parks[b]);
    assert Tries(h, h.taken[a]) <= MAX_ATTEMPTS;
  }

  /** Task id was written as the answer to the question asked at a. */
  ghost predicate TookUp(h: History, id: string, a: int) {
    id in h.tasks && h.tasks[id].resume.Some? && h.tasks[id].resume.value.asked == a
  }

  /** What a task in the pipeline resumes, if it waits on a call, is a call that needed approval. */
  lemma {:induction false} ResumedCallsAreGuarded(cfg: Config, states: seq<Sys>, steps: seq<Step>, i: nat, t: Task)
    requires IsRun(cfg, states, steps) && i < |states| && t in Backlog(states[i])
    ensures t.resume.Some? && t.resume.value.pending.Some? ==> t.resume.value.pending.value.tool in cfg.guarded
  {
    InvHolds(cfg, states, steps, i);
    var h := states[i].h;
    assert Traced(h, t) && h.tasks[t.id].resume == t.resume;
    if t.resume.Some? {
      var a := t.resume.value.asked;
      assert a in h.taken && h.taken[a] == t.id && TakesUp(h.tasks[h.taken[a]], h.parks[a]);
    }
  }

  /** Recovery refines a plain queue: the files are the backlog, and each step moves it as one would. */
  lemma {:induction false} RecoveryRefinesQueue(cfg: Config, states: seq<Sys>, steps: seq<Step>, i: nat)
    requires IsRun(cfg, states, steps) && i < |steps|
    ensures FilesAre(states[i].q.disk.pending, Backlog(states[i])) && Ascending(Backlog(states[i]))
    ensures |Backlog(states[i])| <= cfg.capacity + 1
    ensures Simple(steps[i], Backlog(states[i]), Backlog(states[i + 1]))
  {
    InvHolds(cfg, states, steps, i);
    FiledPreserved(cfg, states[i], steps[i], states[i + 1]);
  }

  /** Redelivery is bounded, and every task written is still accounted for. */
  lemma {:induction false} BoundedRedeliveryWithoutLoss(cfg: Config, states: seq<Sys>, steps: seq<Step>, i: nat, id: string)
    requires IsRun(cfg, states, steps) && i < |states| && id in states[i].h.tasks
    ensures Count(states[i].h.handed, id) <= 2
    ensures Count(states[i].h.handed, id) <= states[i].h.crashes + 1
    ensures AccountedFor(states[i], id)
    ensures id in states[i].h.dropped ==>
              (Count(states[i].h.handed, id) == 2 <==> Count(states[i].h.cut, id) == 0)
  {
    InvHolds(cfg, states, steps, i);
    KeptAccounts(states[i], id);
    assert Tries(states[i].h, id) <= MAX_ATTEMPTS;
  }

  /** Every question ever put is on disk, taken up, out of time, lost in one of two ways, or asked again since. */
  lemma {:induction false} QuestionsAreAccountedFor(cfg: Config, states: seq<Sys>, steps: seq<Step>, i: nat, a: int)
    requires IsRun(cfg, states, steps) && i < |states| && a in states[i].h.parks
    ensures QuestionKept(states[i], a) || AskedAgain(states[i].h, a)
  {
    InvHolds(cfg, states, steps, i);
  }

  /**
   The fates are exact: no question is taken up, expired and lost in two ways at once, one
   that has met any of these is neither in memory nor on disk, and one in memory whose file
   is gone is not on disk.
   */
  lemma {:induction false} EachQuestionHasOneFate(cfg: Config, states: seq<Sys>, steps: seq<Step>, i: nat)
    requires IsRun(cfg, states, steps) && i < |states|
    ensures var h := states[i].h; h.taken.Keys !! h.expired && h.taken.Keys !! h.lost && h.expired !! h.lost
    ensures forall a :: a in states[i].h.taken.Keys + Gone(states[i].h) ==>
              !OnDisk(states[i], a) && forall id :: id in states[i].q.parked ==> states[i].q.parked[id].asked != a
    ensures forall a :: a in states[i].h.unfiled ==> !OnDisk(states[i], a)
  {
    InvHolds(cfg, states, steps, i);
    assert Apart(states[i]) && Questioned(states[i]) && Mirrored(states[i]);
  }

  /** A crash anywhere in Park, once the question is written, leaves that question so. */
  lemma {:induction false} CrashInParkKeepsRequest(cfg: Config, states: seq<Sys>, steps: seq<Step>, i: nat)
    requires IsRun(cfg, states, steps) && i < |steps| && states[i].phase.Parking? && IsCrash(steps[i])
    ensures QuestionKept(states[i + 1], states[i].phase.question.asked)
  {
    InvHolds(cfg, states, steps, i);
    QuestionStaysKept(cfg, states[i], steps[i], states[i + 1], states[i].phase.question.asked);
  }

  /** However long the chain of questions and answers, a resumed task still carries its first request. */
  lemma {:induction false} ResumeKeepsRootRequest(cfg: Config, states: seq<Sys>, steps: seq<Step>, i: nat, t: Task)
    requires IsRun(cfg, states, steps) && i < |states| && t in Backlog(states[i]) && t.resume.Some?
    ensures t.id in states[i].h.tasks && t.resume.value.request == Root(states[i].h.tasks, t.id)
    ensures HasParent(states[i].h.tasks, t)
  {
    InvHolds(cfg, states, steps, i);
    assert Traced(states[i].h, t);
  }

  /** What the model reads first in a resumed turn: that request, the question it took up, and the answer. */
  lemma {:induction false} ResumedTurnRetellsTheChain(cfg: Config, states: seq<Sys>, steps: seq<Step>, i: nat, t: Task)
    requires IsRun(cfg, states, steps) && i < |states| && t in Backlog(states[i]) && t.resume.Some?
    ensures var h, a := states[i].h, t.resume.value.asked;
            && t.id in h.tasks && a in h.parks && a in h.taken && h.taken[a] == t.id
            && Turns.RequestMessages(t)
               == [Chat.Say(Chat.User, Root(h.tasks, t.id)), Chat.Say(Chat.Assistant, h.parks[a].question),
                   Chat.Say(Chat.User, h.tasks[t.id].event.content)]
  {
    InvHolds(cfg, states, steps, i);
    var h, a := states[i].h, t.resume.value.asked;
    assert Traced(h, t);
    assert h.tasks[t.id].resume == t.resume && h.tasks[t.id].event == t.event;
    assert a in h.taken && TakesUp(h.tasks[h.taken[a]], h.parks[a]);
    ResumeKeepsRootRequest(cfg, states, steps, i, t);
  }

  /** The record a crash takes as the one its event answered. */
  function TakenAlong(step: Step): set<string> {
    if step.CrashInEnqueue? then Consumed(step.m) else {}
  }

  /**
   Which of the questions ingest knows a crash leaves known, exactly: the live ones whose
   file is there and theirs. Gone with it are one that an answer was just consuming, one
   whose task is just parking another, and one whose file went with an older question.
   */
  lemma {:induction false} QuestionsSurviveCrashes(cfg: Config, states: seq<Sys>, steps: seq<Step>, i: nat, id: string)
    requires IsRun(cfg, states, steps) && i < |steps| && IsCrash(steps[i]) && id in states[i].q.parked
    ensures var s, s', p := states[i], states[i + 1], states[i].q.parked[id];
            (id in s'.q.parked && s'.q.parked[id] == p)
            <==> steps[i].now - p.asked <= 86_400_000_000_000 && p.asked !in s.h.unfiled && !BeingParked(s, id) && id !in TakenAlong(steps[i])
  {
    InvHolds(cfg, states, steps, i);
    SurvivesIff(states[i], steps[i], states[i + 1], id);
  }

  lemma {:induction false} SurvivesIff(s: Sys, step: Step, s': Sys, id: string)
    requires Questioned(s) && Mirrored(s) && IsCrash(step) && CrashEnabled(s, step) && id in s.q.parked
    requires Restart(CrashDisk(s, step), CrashHistory(s, step), step.now, s')
    ensures (id in s'.q.parked && s'.q.parked[id] == s.q.parked[id])
            <==> Live(s.q.parked[id], step.now) && s.q.parked[id].asked !in s.h.unfiled && !BeingParked(s, id)
                 && id !in TakenAlong(step)
  {
    var p, d := s.q.parked[id], CrashDisk(s, step);
    assert s'.q.parked == d.parked - Stale(d, step.now);
    assert id in CutFiles(s, step) ==> id in TakenAlong(step) || !Live(p, step.now);
    assert d.parked == s.q.disk.parked - CutFiles(s, step);
  }
}
