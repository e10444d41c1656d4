/**
 The task queue, kept on disk, and the questions that wait for an answer
 (internal/taskqueue/queue.go). The first half says what each operation does to
 the queue's memory and to its two directories; the second half is the queue
 itself, over a drive that records every state its files pass through.
 */
module TaskQueue {
  import opened Wrappers
  import opened Events

  const MAX_ATTEMPTS: nat := 2
  const PARK_TTL: int := 24 * 60 * 60 * 1_000_000_000 // nanoseconds
  const DEFAULT_CAPACITY: nat := 256

  // ---------- Data ----------

  datatype PendingCall = PendingCall(id: string, tool: string, arguments: string)

  datatype Resume = Resume(
    taskId: string, request: string, question: string, pending: Option<PendingCall>, asked: int)

  datatype Task = Task(id: string, event: Event, resume: Option<Resume>, enqueued: int, attempts: nat)

  datatype Parked = Parked(
    taskId: string, request: string, question: string, pending: Option<PendingCall>, keys: seq<string>, asked: int)

  // The name of a pending file: enqueue time and task id.
  datatype Slot = Slot(enqueued: int, id: string)

  // The pending and parked directories.
  datatype Disk = Disk(pending: map<Slot, Task>, parked: map<string, Parked>)

  // The queue as a value: its files, its slice, its map and its wakeup token.
  datatype State = State(disk: Disk, pending: seq<Task>, parked: map<string, Parked>, token: bool)

  function SlotOf(t: Task): Slot {
    Slot(t.enqueued, t.id)
  }

  ghost predicate OwnNames(d: Disk) {
    forall f :: f in d.pending ==> SlotOf(d.pending[f]) == f
  }

  ghost predicate Keyed(parked: map<string, Parked>) {
    forall id :: id in parked ==> parked[id].taskId == id
  }

  // ---------- Matching an event to a parked question ----------

  predicate Live(p: Parked, now: int) {
    now - p.asked <= PARK_TTL
  }

  ghost predicate LiveMatch(parked: map<string, Parked>, key: string, now: int, p: Parked) {
    p.taskId in parked && parked[p.taskId] == p && Live(p, now) && key in p.keys
  }

  ghost predicate NewestMatch(parked: map<string, Parked>, key: string, now: int, p: Parked) {
    LiveMatch(parked, key, now, p) &&
    forall q :: LiveMatch(parked, key, now, q) ==> q.asked <= p.asked
  }

  ghost predicate NoMatch(parked: map<string, Parked>, keys: seq<string>, now: int) {
    forall key, p | key in keys :: !LiveMatch(parked, key, now, p)
  }

  ghost predicate Chosen(parked: map<string, Parked>, keys: seq<string>, i: nat, now: int, p: Parked)
    requires i < |keys|
  {
    NoMatch(parked, keys[..i], now) && NewestMatch(parked, keys[i], now, p)
  }

  /**
   r is what keys select: for the first key with any live match, its most recently
   asked match; nothing exactly when no key has one.
   */
  ghost predicate Answers(parked: map<string, Parked>, keys: seq<string>, now: int, r: Option<Parked>) {
    match r
    case None => NoMatch(parked, keys, now)
    case Some(p) =>
      exists i :: 0 <= i < |keys| && Chosen(parked, keys, i, now, p)
  }

  lemma {:induction false} FirstKeyWins(parked: map<string, Parked>, keys: seq<string>, i: nat, j: nat, now: int, p: Parked)
    requires i < |keys| && j < |keys| && Chosen(parked, keys, i, now, p) && NoMatch(parked, keys[..j], now)
    ensures j <= i
  {
  }

  /** With distinct ask times there is only one such record: the choice does not depend on map order. */
  lemma {:induction false} AnswerIsUnique(
      parked: map<string, Parked>, keys: seq<string>, now: int, r: Option<Parked>, r': Option<Parked>)
    requires forall a, b :: a in parked && b in parked && parked[a].asked == parked[b].asked ==> a == b
    requires Answers(parked, keys, now, r) && Answers(parked, keys, now, r')
    ensures r == r'
  {
    if r.Some? && r'.Some? {
      var i :| 0 <= i < |keys| && Chosen(parked, keys, i, now, r.value);
      var j :| 0 <= j < |keys| && Chosen(parked, keys, j, now, r'.value);
      FirstKeyWins(parked, keys, i, j, now, r.value);
      FirstKeyWins(parked, keys, j, i, now, r'.value);
    }
  }

  ghost predicate HasMatch(parked: map<string, Parked>, key: string, now: int) {
    exists q :: LiveMatch(parked, key, now, q)
  }

  /**
   A reply goes to the question it replies to; otherwise the account's own newest question
   where it wrote, then the person's newest anywhere. Only a person's message answers one.
   */
  lemma {:induction false} MostSpecificWins(parked: map<string, Parked>, ev: Event, now: int, p: Parked)
    requires Answers(parked, ResumeKeys(ev), now, Some(p))
    ensures ev.kind == Message && ev.actor.id != ""
    ensures var reply, actor := ReplyKey(ev.origin, ev.inReplyTo), ActorKey(ev.origin, ev.actor.id);
            if ev.inReplyTo != "" && HasMatch(parked, reply, now) then NewestMatch(parked, reply, now, p)
            else if HasMatch(parked, actor, now) then NewestMatch(parked, actor, now, p)
            else ev.actor.person != "" && NewestMatch(parked, PersonKey(ev.actor.person), now, p)
  {
    var keys := ResumeKeys(ev);
    var i :| 0 <= i < |keys| && Chosen(parked, keys, i, now, p);
    forall j | 0 <= j < i ensures !HasMatch(parked, keys[j], now) {
      assert keys[..i][j] == keys[j];
    }
    assert HasMatch(parked, keys[i], now);
    assert ev.inReplyTo != "" ==> keys[0] == ReplyKey(ev.origin, ev.inReplyTo);
    var a := if ev.inReplyTo != "" then 1 else 0;
    assert keys[a] == ActorKey(ev.origin, ev.actor.id);
    assert a + 1 < |keys| ==> keys[a + 1] == PersonKey(ev.actor.person) && a + 2 == |keys|;
  }

  // ---------- What each operation does ----------

  /** Matching drops every expired record, but only for an event that can answer at all. */
  function Expired(parked: map<string, Parked>, ev: Event, now: int): set<string> {
    if ResumeKeys(ev) == [] then {} else Dead(parked, now)
  }

  function Dead(parked: map<string, Parked>, now: int): set<string> {
    set id | id in parked && !Live(parked[id], now)
  }

  lemma {:induction false} SweepingKeepsMatches(parked: map<string, Parked>, now: int)
    ensures Dead(parked - Dead(parked, now), now) == {}
    ensures forall key, q ::
              LiveMatch(parked - Dead(parked, now), key, now, q) <==> LiveMatch(parked, key, now, q)
  {
  }

  function Consumed(m: Option<Parked>): set<string> {
    if m.Some? then {m.value.taskId} else {}
  }

  function NewTask(ev: Event, id: string, now: int, m: Option<Parked>): Task {
    var resume := match m
                  case None => None
                  case Some(p) => Some(Resume(p.taskId, p.request, p.question, p.pending, p.asked));
    Task(id, ev, resume, now, 0)
  }

  /** t takes up p within a day: it carries one of its keys and everything it was parked with. */
  ghost predicate Resumes(t: Task, p: Parked) {
    && t.resume == Some(Resume(p.taskId, p.request, p.question, p.pending, p.asked))
    && SharesKey(t.event, p.keys)
    && t.enqueued - p.asked <= 86_400_000_000_000
  }

  /** The slice has grown by one untried task, which carries the event. */
  ghost predicate Accepted(was: seq<Task>, pending: seq<Task>, ev: Event, id: string, now: int) {
    |pending| == |was| + 1 && pending[..|was|] == was
    && var t := pending[|was|]; t.event == ev && t.id == id && t.enqueued == now && t.attempts == 0
  }

  /**
   Any question of the last day that shares a key with t's event makes t take one up, and
   that one is gone. No other question of the last day goes with it.
   */
  ghost predicate Answered(was: map<string, Parked>, parked: map<string, Parked>, t: Task) {
    && (t.resume.Some? ==> t.resume.value.taskId in was && t.resume.value.taskId !in parked
                           && Resumes(t, was[t.resume.value.taskId]))
    && (forall id :: id in was && t.enqueued - was[id].asked <= 86_400_000_000_000 ==>
                       && (SharesKey(t.event, was[id].keys) ==> t.resume.Some?)
                       && (id in parked || (t.resume.Some? && t.resume.value.taskId == id)))
    && (forall id :: id in parked ==> id in was && parked[id] == was[id])
    && (ResumeKeys(t.event) == [] ==> parked == was)
  }

  /** What a caller can count on once its event is accepted: it is queued, and the consumer is woken. */
  ghost predicate TookIn(s: State, s': State, ev: Event, id: string, now: int) {
    && Accepted(s.pending, s'.pending, ev, id, now)
    && Answered(s.parked, s'.parked, s'.pending[|s.pending|])
    && s'.disk.pending == s.disk.pending[Slot(now, id) := s'.pending[|s.pending|]]
    && s'.token
  }

  /** Enqueueing takes the event in, whichever record is found for it. */
  lemma {:induction false} EnqueueTakesIn(s: State, ev: Event, id: string, now: int, m: Option<Parked>)
    requires Answers(s.parked, ResumeKeys(ev), now, m) && Keyed(s.parked)
    ensures TookIn(s, EnqueueTo(s, ev, id, now, m), ev, id, now)
  {
    var s', keys := EnqueueTo(s, ev, id, now, m), ResumeKeys(ev);
    var t := s'.pending[|s.pending|];
    if m.Some? {
      var i :| 0 <= i < |keys| && Chosen(s.parked, keys, i, now, m.value);
      assert keys[i] in keys;
    }
    forall i | i in s.parked && Live(s.parked[i], now) && SharesKey(ev, s.parked[i].keys) ensures m.Some? {
      var key :| key in keys && key in s.parked[i].keys;
      assert LiveMatch(s.parked, key, now, s.parked[i]);
    }
  }

  function EnqueueTo(s: State, ev: Event, id: string, now: int, m: Option<Parked>): State {
    var gone := Expired(s.parked, ev, now) + Consumed(m);
    var t := NewTask(ev, id, now, m);
    State(Disk(s.disk.pending[SlotOf(t) := t], s.disk.parked - gone), s.pending + [t], s.parked - gone, true)
  }

  /** The files while Enqueue sweeps expired questions: some are gone already. */
  ghost predicate SweepPoint(d0: Disk, expired: set<string>, d: Disk) {
    d.pending == d0.pending && exists gone :: gone <= expired && d.parked == d0.parked - gone
  }

  /** Every state the trace grew by was such a point. */
  ghost predicate Sweeps(d0: Disk, expired: set<string>, was: seq<Disk>, trace: seq<Disk>) {
    was <= trace && forall i :: |was| <= i < |trace| ==> SweepPoint(d0, expired, trace[i])
  }

  /** The first pass drops what it finds, and later ones find nothing. */
  lemma {:induction false} SweepsOn(
      d0: Disk, dead: set<string>, was: seq<Disk>, d: Disk, mid: seq<Disk>, trace: seq<Disk>)
    requires Sweeps(d0, dead, was, mid)
    requires (d == d0 && Sweeps(d, dead, mid, trace)) || (d == d0.(parked := d0.parked - dead) && Sweeps(d, {}, mid, trace))
    ensures Sweeps(d0, dead, was, trace)
  {
    forall i | |was| <= i < |trace| ensures SweepPoint(d0, dead, trace[i]) {
      if i < |mid| {
        assert trace[i] == mid[i];
      } else if d != d0 {
        assert SweepPoint(d, {}, trace[i]) && d.parked - {} == d.parked;
      }
    }
  }

  /** The files when the answered question is gone and the answer is not yet written. */
  function ConsumePoint(s: State, ev: Event, now: int, m: Option<Parked>): Disk {
    s.disk.(parked := s.disk.parked - (Expired(s.parked, ev, now) + Consumed(m)))
  }

  ghost predicate EnqueuePoint(s: State, ev: Event, id: string, now: int, m: Option<Parked>, d: Disk) {
    SweepPoint(s.disk, Expired(s.parked, ev, now), d)
    || d == ConsumePoint(s, ev, now, m)
    || d == EnqueueTo(s, ev, id, now, m).disk
  }

  function Attempt(t: Task): Task {
    t.(attempts := t.attempts + 1)
  }

  /** t as it is handed over: the same but for one attempt more. */
  ghost predicate Handed(t: Task, t': Task) {
    t'.attempts == t.attempts + 1 && t' == t.(attempts := t'.attempts)
  }

  /** The head leaves the slice with its attempt counted; its file stays, rewritten. */
  function TakeTo(s: State): State
    requires s.pending != []
  {
    var t := Attempt(s.pending[0]);
    s.(disk := s.disk.(pending := s.disk.pending[SlotOf(t) := t]), pending := s.pending[1..])
  }

  function DoneTo(s: State, t: Task): State {
    s.(disk := s.disk.(pending := s.disk.pending - {SlotOf(t)}))
  }

  /** The request at the root of a task: its own, or the one its resume carries. */
  function RequestOf(t: Task): string {
    if t.resume.Some? then t.resume.value.request else t.event.content
  }

  function NewParked(t: Task, question: string, keys: seq<string>, pending: Option<PendingCall>, now: int): Parked {
    Parked(t.id, RequestOf(t), question, pending, keys, now)
  }

  function ParkWriteTo(s: State, p: Parked): State {
    s.(disk := s.disk.(parked := s.disk.parked[p.taskId := p]))
  }

  function ParkInsertTo(s: State, p: Parked): State {
    s.(parked := s.parked[p.taskId := p])
  }

  // ---------- Opening after a crash ----------

  function Survives(t: Task): bool {
    t.attempts < MAX_ATTEMPTS
  }

  function OverLimit(d: Disk): set<Slot> {
    set f | f in d.pending && !Survives(d.pending[f])
  }

  function Stale(d: Disk, now: int): set<string> {
    set id | id in d.parked && !Live(d.parked[id], now)
  }

  function CleanedDisk(d: Disk, now: int): Disk {
    Disk(d.pending - OverLimit(d), d.parked - Stale(d, now))
  }

  /** The files part-way through loading: some of what loading removes is gone. */
  ghost predicate LoadPoint(d0: Disk, now: int, d: Disk) {
    exists over, stale :: PartlyCleaned(d0, now, d, over, stale)
  }

  ghost predicate PartlyCleaned(d0: Disk, now: int, d: Disk, over: set<Slot>, stale: set<string>) {
    over <= OverLimit(d0) && stale <= Stale(d0, now) && d == Disk(d0.pending - over, d0.parked - stale)
  }

  ghost predicate InOrder(ts: seq<Task>) {
    forall i, j :: 0 <= i < j < |ts| ==> ts[i].enqueued <= ts[j].enqueued
  }

  ghost predicate NoRepeats<T>(ts: seq<T>) {
    forall i, j :: 0 <= i < j < |ts| ==> ts[i] != ts[j]
  }

  /** ts holds each surviving pending file once, oldest first. */
  ghost predicate Loaded(d: Disk, ts: seq<Task>) {
    InOrder(ts) && NoRepeats(ts) &&
    (forall t :: t in ts <==> SlotOf(t) in d.pending && d.pending[SlotOf(t)] == t && Survives(t))
  }

  ghost predicate OpenTo(d: Disk, now: int, s: State) {
    s.disk == CleanedDisk(d, now) &&
    Loaded(d, s.pending) &&
    s.parked == s.disk.parked &&
    s.token == (s.pending != [])
  }

  /**
   Recovery is restartable: a second crash anywhere inside loading leaves files from
   which a later load reads the same queue as if the first had finished.
   */
  lemma {:induction false} RecoveryIsRestartable(d: Disk, now: int, d': Disk, later: int, s: State)
    requires OwnNames(d) && LoadPoint(d, now, d') && now <= later
    ensures OwnNames(d') && (OpenTo(d', later, s) <==> OpenTo(d, later, s))
  {
    var over, stale :| PartlyCleaned(d, now, d', over, stale);
    assert stale <= Stale(d, later);
    assert d'.parked - Stale(d', later) == d.parked - Stale(d, later);
    assert d'.pending - OverLimit(d') == d.pending - OverLimit(d);
    forall t: Task
      ensures (SlotOf(t) in d.pending && d.pending[SlotOf(t)] == t && Survives(t))
         <==> (SlotOf(t) in d'.pending && d'.pending[SlotOf(t)] == t && Survives(t))
    {
    }
  }

  // ---------- The queue and its drive ----------

  /** The task directory. Every method is one atomic effect, and trace keeps what it left. */
  class Drive {
    var files: Disk
    ghost var trace: seq<Disk>

    constructor ()
      ensures files == Disk(map[], map[]) && trace == []
    {
      files := Disk(map[], map[]);
      trace := [];
    }

    method WritePending(t: Task)
      modifies this
      ensures files == old(files).(pending := old(files).pending[SlotOf(t) := t])
      ensures trace == old(trace) + [files]
    {
      files := files.(pending := files.pending[SlotOf(t) := t]);
      trace := trace + [files];
    }

    method RemovePending(f: Slot)
      modifies this
      ensures files == old(files).(pending := old(files).pending - {f})
      ensures trace == old(trace) + [files]
    {
      files := files.(pending := files.pending - {f});
      trace := trace + [files];
    }

    method WriteParked(p: Parked)
      modifies this
      ensures files == old(files).(parked := old(files).parked[p.taskId := p])
      ensures trace == old(trace) + [files]
    {
      files := files.(parked := files.parked[p.taskId := p]);
      trace := trace + [files];
    }

    method RemoveParked(id: string)
      modifies this
      ensures files == old(files).(parked := old(files).parked - {id})
      ensures trace == old(trace) + [files]
    {
      files := files.(parked := files.parked - {id});
      trace := trace + [files];
    }
  }

  /** Stands for sort.Slice by enqueue time: an ordered permutation. */
  method SortByEnqueued(s: seq<Task>) returns (r: seq<Task>)
    ensures InOrder(r) && multiset(r) == multiset(s)
  {
    var rest := s;
    r := [];
    while rest != []
      invariant InOrder(r)
      invariant forall i, j :: 0 <= i < |r| && 0 <= j < |rest| ==> r[i].enqueued <= rest[j].enqueued
      invariant multiset(r) + multiset(rest) == multiset(s)
      decreases |rest|
    {
      var k := Earliest(rest);
      TakenOut(rest, k);
      r, rest := r + [rest[k]], rest[..k] + rest[k + 1..];
    }
  }

  lemma {:induction false} TakenOut<T>(s: seq<T>, k: nat)
    requires k < |s|
    ensures multiset(s) == multiset([s[k]]) + multiset(s[..k] + s[k + 1..])
  {
    assert s == s[..k] + [s[k]] + s[k + 1..];
  }

  method Earliest(s: seq<Task>) returns (k: nat)
    requires s != []
    ensures k < |s| && forall j :: 0 <= j < |s| ==> s[k].enqueued <= s[j].enqueued
  {
    k := 0;
    for i := 1 to |s|
      invariant k < |s| && forall j :: 0 <= j < i ==> s[k].enqueued <= s[j].enqueued
    {
      if s[i].enqueued < s[k].enqueued {
        k := i;
      }
    }
  }

  lemma {:induction false} SameBagSameMembers<T>(r: seq<T>, s: seq<T>)
    requires multiset(r) == multiset(s)
    ensures forall t :: t in r <==> t in s
    ensures NoRepeats(s) ==> NoRepeats(r)
  {
    forall t ensures t in r <==> t in s {
      assert t in r <==> t in multiset(r);
      assert t in s <==> t in multiset(s);
    }
    if NoRepeats(s) {
      forall i, j | 0 <= i < j < |r| ensures r[i] != r[j] {
        if r[i] == r[j] {
          TwiceInBag(r, i, j);
          OnceInBag(s, r[i]);
        }
      }
    }
  }

  lemma {:induction false} TwiceInBag<T>(r: seq<T>, i: nat, j: nat)
    requires i < j < |r| && r[i] == r[j]
    ensures multiset(r)[r[i]] >= 2
  {
    var a, b := r[..j], r[j..];
    assert r == a + b && a[i] in multiset(a) && b[0] in multiset(b);
    assert multiset(r) == multiset(a) + multiset(b);
  }

  lemma {:induction false} OnceInBag<T>(s: seq<T>, t: T)
    requires NoRepeats(s)
    ensures multiset(s)[t] <= 1
  {
    if s != [] {
      var front, last := s[..|s| - 1], s[|s| - 1];
      assert s == front + [last];
      OnceInBag(front, t);
      if t == last {
        assert t !in front;
      }
    }
  }

  class Queue {
    const drive: Drive
    const capacity: nat
    var pending: seq<Task>
    var parked: map<string, Parked>
    var notify: bool // a token is in the capacity-1 wakeup channel

    ghost function View(): State
      reads this, drive
    {
      State(drive.files, pending, parked, notify)
    }

    constructor Open(drive: Drive, capacity: int, now: int)
      requires OwnNames(drive.files)
      modifies drive
      ensures this.drive == drive
      ensures this.capacity == if capacity <= 0 then DEFAULT_CAPACITY else capacity
      ensures OpenTo(old(drive.files), now, View())
      ensures old(drive.trace) <= drive.trace
      ensures forall i :: |old(drive.trace)| <= i < |drive.trace| ==> LoadPoint(old(drive.files), now, drive.trace[i])
    {
      this.drive := drive;
      this.capacity := if capacity <= 0 then DEFAULT_CAPACITY else capacity;
      pending := [];
      parked := map[];
      notify := false;
      new;
      LoadPending(now);
      LoadParked(old(drive.files), now);
      if |pending| > 0 {
        Signal();
      }
    }

    method LoadPending(now: int)
      requires pending == [] && OwnNames(drive.files)
      modifies this`pending, drive
      ensures Loaded(old(drive.files), pending)
      ensures drive.files == old(drive.files).(pending := old(drive.files).pending - OverLimit(old(drive.files)))
      ensures old(drive.trace) <= drive.trace
      ensures forall i :: |old(drive.trace)| <= i < |drive.trace| ==> LoadPoint(old(drive.files), now, drive.trace[i])
    {
      ghost var d0 := drive.files;
      var rest := drive.files.pending.Keys;
      ghost var over: set<Slot> := {};
      while rest != {}
        invariant rest <= d0.pending.Keys
        invariant over == OverLimit(d0) - rest
        invariant drive.files == d0.(pending := d0.pending - over)
        invariant NoRepeats(pending)
        invariant forall t :: t in pending <==>
                                SlotOf(t) in d0.pending && SlotOf(t) !in rest && d0.pending[SlotOf(t)] == t && Survives(t)
        invariant old(drive.trace) <= drive.trace
        invariant forall i :: |old(drive.trace)| <= i < |drive.trace| ==> LoadPoint(d0, now, drive.trace[i])
      {
        var f :| f in rest;
        var t := drive.files.pending[f];
        assert t == d0.pending[f] && SlotOf(t) == f;
        rest := rest - {f};
        if t.attempts >= MAX_ATTEMPTS {
          drive.RemovePending(f);
          over := over + {f};
          assert drive.files.pending == d0.pending - over && drive.files.parked == d0.parked - {};
          assert PartlyCleaned(d0, now, drive.files, over, {});
        } else {
          pending := pending + [t];
        }
      }
      var sorted := SortByEnqueued(pending);
      SameBagSameMembers(sorted, pending);
      pending := sorted;
    }

    method LoadParked(ghost d0: Disk, now: int)
      requires parked == map[]
      requires drive.files == d0.(pending := d0.pending - OverLimit(d0))
      modifies this`parked, drive
      ensures drive.files == CleanedDisk(d0, now) && parked == drive.files.parked
      ensures old(drive.trace) <= drive.trace
      ensures forall i :: |old(drive.trace)| <= i < |drive.trace| ==> LoadPoint(d0, now, drive.trace[i])
    {
      var rest := drive.files.parked.Keys;
      ghost var stale: set<string> := {};
      while rest != {}
        invariant rest <= d0.parked.Keys
        invariant stale == Stale(d0, now) - rest
        invariant drive.files == Disk(d0.pending - OverLimit(d0), d0.parked - stale)
        invariant parked == d0.parked - (Stale(d0, now) + rest)
        invariant old(drive.trace) <= drive.trace
        invariant forall i :: |old(drive.trace)| <= i < |drive.trace| ==> LoadPoint(d0, now, drive.trace[i])
      {
        var f :| f in rest;
        var p := drive.files.parked[f];
        rest := rest - {f};
        if now - p.asked > PARK_TTL {
          drive.RemoveParked(f);
          stale := stale + {f};
          assert drive.files.parked == d0.parked - stale;
          assert PartlyCleaned(d0, now, drive.files, OverLimit(d0), stale);
        } else {
          parked := parked[f := p];
        }
      }
    }

    /** Full changes nothing; otherwise the event is a new task, which takes up the question it answers. */
    method Enqueue(ev: Event, id: string, now: int) returns (full: bool, ghost m: Option<Parked>)
      requires Keyed(parked)
      modifies this, drive
      ensures full == (|old(pending)| >= capacity)
      ensures full ==> View() == old(View()) && drive.trace == old(drive.trace)
      ensures !full ==>
                && Answers(old(parked), ResumeKeys(ev), now, m)
                && View() == EnqueueTo(old(View()), ev, id, now, m)
                && (forall i :: |old(drive.trace)| <= i < |drive.trace| ==>
                                  EnqueuePoint(old(View()), ev, id, now, m, drive.trace[i]))
      ensures old(drive.trace) <= drive.trace
      ensures !full ==> notify && TookIn(old(View()), View(), ev, id, now)
    {
      if |pending| >= capacity {
        return true, None;
      }
      var best := MatchParked(ev, now);
      m := best;
      var t := NewTask(ev, id, now, best);
      ghost var gone := Expired(old(parked), ev, now) + Consumed(m);
      if best.Some? {
        parked := parked - {best.value.taskId};
        drive.RemoveParked(best.value.taskId);
      }
      assert parked == old(parked) - gone && drive.files == ConsumePoint(old(View()), ev, now, m);
      drive.WritePending(t);
      pending := pending + [t];
      Signal();
      full := false;
      assert View() == EnqueueTo(old(View()), ev, id, now, m);
      EnqueueTakesIn(old(View()), ev, id, now, m);
    }

    method MatchParked(ev: Event, now: int) returns (best: Option<Parked>)
      requires Keyed(parked)
      modifies this`parked, drive
      ensures Answers(old(parked), ResumeKeys(ev), now, best)
      ensures parked == old(parked) - Expired(old(parked), ev, now)
      ensures drive.files == old(drive.files).(parked := old(drive.files).parked - Expired(old(parked), ev, now))
      ensures Sweeps(old(drive.files), Expired(old(parked), ev, now), old(drive.trace), drive.trace)
    {
      var keys := ResumeKeys(ev);
      ghost var p0, d0, dead := parked, drive.files, Dead(parked, now);
      best := None;
      var i := 0;
      while i < |keys|
        invariant 0 <= i <= |keys| && best == None && NoMatch(p0, keys[..i], now)
        invariant parked == p0 - (if i == 0 then {} else dead)
        invariant drive.files == d0.(parked := d0.parked - (if i == 0 then {} else dead))
        invariant Sweeps(d0, dead, old(drive.trace), drive.trace) && (i == 0 ==> drive.trace == old(drive.trace))
      {
        SweepingKeepsMatches(p0, now);
        ghost var d, mid := drive.files, drive.trace;
        best := Scan(keys[i], now);
        SweepsOn(d0, dead, old(drive.trace), d, mid, drive.trace);
        if best.Some? {
          assert Chosen(p0, keys, i, now, best.value);
          return;
        }
        i := i + 1;
      }
      assert keys[..|keys|] == keys;
    }

    /** One pass over the questions: drops those that ran out, and finds the newest with the key. */
    method Scan(key: string, now: int) returns (best: Option<Parked>)
      requires Keyed(parked)
      modifies this`parked, drive
      ensures best.Some? ==> NewestMatch(old(parked), key, now, best.value)
      ensures best.None? ==> forall q :: !LiveMatch(old(parked), key, now, q)
      ensures parked == old(parked) - Dead(old(parked), now)
      ensures drive.files == old(drive.files).(parked := old(drive.files).parked - Dead(old(parked), now))
      ensures Sweeps(old(drive.files), Dead(old(parked), now), old(drive.trace), drive.trace)
    {
      ghost var p0, d0, dead := parked, drive.files, Dead(parked, now);
      best := None;
      var rest := parked.Keys;
      while rest != {}
        invariant rest <= p0.Keys && parked == p0 - (dead - rest)
        invariant drive.files == d0.(parked := d0.parked - (dead - rest))
        invariant best.Some? ==> best.value.taskId !in rest && LiveMatch(p0, key, now, best.value)
        invariant forall q :: LiveMatch(p0, key, now, q) && q.taskId !in rest ==> best.Some? && q.asked <= best.value.asked
        invariant Sweeps(d0, dead, old(drive.trace), drive.trace)
      {
        var id :| id in rest;
        var p := parked[id];
        ghost var gone := dead - rest;
        rest := rest - {id};
        if now - p.asked > PARK_TTL {
          parked := parked - {id};
          drive.RemoveParked(id);
          assert dead - rest == gone + {id};
          assert drive.files.parked == d0.parked - (dead - rest);
          assert SweepPoint(d0, dead, drive.files);
        } else {
          assert dead - rest == gone;
          if key in p.keys && (best.None? || p.asked > best.value.asked) {
            best := Some(p);
          }
        }
      }
    }

    /** What Next does under the lock: the head's file is rewritten, not removed. */
    method Take() returns (t: Option<Task>)
      modifies this, drive
      ensures old(pending) == [] ==> t == None && View() == old(View()) && drive.trace == old(drive.trace)
      ensures old(pending) != [] ==>
                && t == Some(Attempt(old(pending)[0]))
                && View() == TakeTo(old(View()))
                && drive.trace == old(drive.trace) + [drive.files]
                && Handed(old(pending)[0], t.value) && pending == old(pending)[1..] && notify == old(notify)
                && SlotOf(old(pending)[0]) in drive.files.pending
                && drive.files.pending[SlotOf(old(pending)[0])] == t.value
    {
      if |pending| == 0 {
        return None;
      }
      var head := Attempt(pending[0]);
      pending := pending[1..];
      drive.WritePending(head);
      t := Some(head);
    }

    method Done(t: Task)
      modifies drive
      ensures View() == DoneTo(old(View()), t)
      ensures drive.trace == old(drive.trace) + [drive.files]
    {
      drive.RemovePending(SlotOf(t));
    }

    /**
     Parks t behind a question. The files pass through exactly two states: with the
     question written, and then also without the pending file.
     */
    method Park(t: Task, question: string, keys: seq<string>, call: Option<PendingCall>, now: int)
      modifies this, drive
      ensures var p := NewParked(t, question, keys, call, now);
              && View() == DoneTo(ParkInsertTo(ParkWriteTo(old(View()), p), p), t)
              && drive.trace == old(drive.trace) + [ParkWriteTo(old(View()), p).disk, drive.files]
      ensures var request := if t.resume.Some? then t.resume.value.request else t.event.content;
              && parked == old(parked)[t.id := Parked(t.id, request, question, call, keys, now)]
              && drive.files.parked == old(drive.files.parked)[t.id := parked[t.id]]
              && drive.files.pending == old(drive.files.pending) - {SlotOf(t)}
              && pending == old(pending) && notify == old(notify)
    {
      var request := t.event.content;
      if t.resume.Some? {
        request := t.resume.value.request;
      }
      var p := Parked(t.id, request, question, call, keys, now);
      drive.WriteParked(p);
      parked := parked[t.id := p];
      Done(t);
    }

    method Signal()
      modifies this`notify
      ensures notify
    {
      notify := true;
    }

    /** The consumer's receive, which takes the token. */
    method Receive() returns (woken: bool)
      modifies this`notify
      ensures woken == old(notify) && !notify
    {
      woken := notify;
      notify := false;
    }
  }
}
