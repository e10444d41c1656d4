/**
 Each person's recent conversation until it goes idle (internal/session/session.go):
 history within a byte budget, and sessions that are live or archived, never both and
 never neither.
 */
module Sessions {
  import opened Wrappers
  import opened Text
  import opened Chat

  const MAX_TOOL_RESULT: nat := 1000
  const MAX_HISTORY: nat := 16 * 1024

  datatype Status = Replied | NoReply | ParkedStatus

  datatype Ending = Ending(status: Status, steps: nat, acted: seq<string>, problems: seq<string>)

  datatype Exchange = Exchange(
    at: int, connector: string, channel: string, userName: string, messages: seq<Message>, outcome: Option<Ending>)

  datatype Session = Session(person: string, started: int, lastActive: int, exchanges: seq<Exchange>)

  predicate Notable(o: Option<Ending>) {
    o.Some? && (o.value.acted != [] || o.value.problems != [] || o.value.status != Replied)
  }

  // ---------- History ----------

  function ArgumentBytes(calls: seq<ToolCall>): nat {
    if calls == [] then 0 else ByteLen(calls[0].arguments) + ArgumentBytes(calls[1..])
  }

  function ListBytes(ms: seq<Message>): nat {
    if ms == [] then 0 else ByteLen(ms[0].content) + ArgumentBytes(ms[0].toolCalls) + ListBytes(ms[1..])
  }

  function NameBytes(calls: seq<ToolCall>): nat {
    if calls == [] then 0 else ByteLen(calls[0].name) + NameBytes(calls[1..])
  }

  function NamesIn(ms: seq<Message>): nat {
    if ms == [] then 0 else NameBytes(ms[0].toolCalls) + NamesIn(ms[1..])
  }

  lemma {:induction false} CallsCountNames(calls: seq<ToolCall>)
    ensures CallBytes(calls) == ArgumentBytes(calls) + NameBytes(calls)
  {
    if calls != [] {
      CallsCountNames(calls[1..]);
    }
  }

  /** The store and the conversation measure alike, but that a conversation counts the names of calls too. */
  lemma {:induction false} ConversationsCountNames(ms: seq<Message>)
    ensures Bytes(ms) == ListBytes(ms) + NamesIn(ms)
  {
    if ms != [] {
      CallsCountNames(ms[0].toolCalls);
      ConversationsCountNames(ms[1..]);
    }
  }

  function TotalBytes(exs: seq<Exchange>): nat {
    if exs == [] then 0 else ListBytes(exs[0].messages) + TotalBytes(exs[1..])
  }

  /** The messages of an exchange, and its ending if that says more than they do. */
  function Retold(line: Ending -> string, ex: Exchange): seq<Message> {
    ex.messages + if Notable(ex.outcome) then [Say(User, line(ex.outcome.value))] else []
  }

  function RetoldAll(line: Ending -> string, exs: seq<Exchange>): seq<Message> {
    if exs == [] then [] else Retold(line, exs[0]) + RetoldAll(line, exs[1..])
  }

  lemma {:induction false} RetoldNext(line: Ending -> string, exs: seq<Exchange>, k: nat)
    requires k < |exs|
    ensures RetoldAll(line, exs[k..]) == Retold(line, exs[k]) + RetoldAll(line, exs[k + 1..])
  {
    assert exs[k..][1..] == exs[k + 1..];
  }

  /** out ends with everything said in ex, and how it ended if that is worth telling. */
  ghost predicate EndsWith(line: Ending -> string, ex: Exchange, out: seq<Message>) {
    var worthTelling := ex.outcome.Some? && (ex.outcome.value.acted != [] || ex.outcome.value.problems != []
                                             || ex.outcome.value.status != Replied);
    var ending := if worthTelling then [Say(User, line(ex.outcome.value))] else [];
    |ex.messages + ending| <= |out| && out[|out| - |ex.messages + ending|..] == ex.messages + ending
  }

  lemma {:induction false} RetoldEnds(line: Ending -> string, exs: seq<Exchange>)
    requires exs != []
    ensures EndsWith(line, exs[|exs| - 1], RetoldAll(line, exs))
  {
    if |exs| > 1 {
      RetoldEnds(line, exs[1..]);
    } else {
      assert exs[1..] == [] && RetoldAll(line, exs) == Retold(line, exs[0]) + [];
    }
  }

  lemma {:induction false} RetoldEndsAt(line: Ending -> string, exs: seq<Exchange>, k: nat)
    requires k < |exs|
    ensures EndsWith(line, exs[|exs| - 1], RetoldAll(line, exs[k..]))
  {
    RetoldEnds(line, exs[k..]);
    assert exs[k..][|exs[k..]| - 1] == exs[|exs| - 1];
  }

  /** exs[k..] is the longest run of newest exchanges within the budget, or just the newest. */
  ghost predicate Fits(exs: seq<Exchange>, k: nat) {
    && k < |exs|
    && (TotalBytes(exs[k..]) <= 16 * 1024 || k == |exs| - 1)
    && forall j :: 0 <= j < k ==> TotalBytes(exs[j..]) > 16 * 1024
  }

  lemma {:induction false} TotalShrinks(exs: seq<Exchange>, j: nat, k: nat)
    requires j <= k <= |exs|
    ensures TotalBytes(exs[k..]) <= TotalBytes(exs[j..])
    decreases k - j
  {
    if j < k {
      TotalShrinks(exs, j + 1, k);
      assert exs[j..][1..] == exs[j + 1..];
    }
  }

  /** There is one such run, and it is the one whose extension would not fit. */
  lemma {:induction false} FitsIff(exs: seq<Exchange>, k: nat)
    requires k < |exs|
    ensures Fits(exs, k) <==>
            && (TotalBytes(exs[k..]) <= 16 * 1024 || k == |exs| - 1)
            && (k > 0 ==> TotalBytes(exs[k - 1..]) > 16 * 1024)
    ensures Fits(exs, k) ==> forall j: nat :: Fits(exs, j) ==> j == k
  {
    if k > 0 && TotalBytes(exs[k - 1..]) > MAX_HISTORY {
      forall j | 0 <= j < k ensures TotalBytes(exs[j..]) > MAX_HISTORY {
        TotalShrinks(exs, j, k - 1);
      }
    }
  }

  /** Whole exchanges that are each well paired make a well-paired history. */
  lemma {:induction false} RetoldIsPaired(line: Ending -> string, exs: seq<Exchange>)
    requires forall i :: 0 <= i < |exs| ==> Paired(exs[i].messages)
    ensures Paired(RetoldAll(line, exs))
  {
    if exs != [] {
      var ex := exs[0];
      var tail := if Notable(ex.outcome) then [Say(User, line(ex.outcome.value))] else [];
      PairedPlain(tail);
      PairedJoin(ex.messages, tail);
      RetoldIsPaired(line, exs[1..]);
      PairedJoin(Retold(line, ex), RetoldAll(line, exs[1..]));
    }
  }

  // ---------- Recording ----------

  /** The longest prefix of at most n bytes. */
  function Prefix(s: string, n: nat): (r: string)
    ensures ByteLen(r) <= n && r <= s
  {
    if s == "" || CharBytes(s[0]) > n then ""
    else
      var rest := Prefix(s[1..], n - CharBytes(s[0]));
      assert ([s[0]] + rest)[1..] == rest;
      [s[0]] + rest
  }

  lemma {:induction false} PrefixIsLongest(s: string, n: nat)
    ensures Prefix(s, n) != s ==> ByteLen(Prefix(s, n)) + CharBytes(s[|Prefix(s, n)|]) > n
  {
    if s != "" && CharBytes(s[0]) <= n {
      var rest := Prefix(s[1..], n - CharBytes(s[0]));
      PrefixIsLongest(s[1..], n - CharBytes(s[0]));
      assert ([s[0]] + rest)[1..] == rest && [s[0]] + s[1..] == s;
    }
  }

  function Shortened(m: Message): Message {
    if m.role == Tool && ByteLen(m.content) > MAX_TOOL_RESULT
    then m.(content := Prefix(m.content, MAX_TOOL_RESULT) + "\U{2026}[truncated]") else m
  }

  function ShortenedAll(ms: seq<Message>): (r: seq<Message>)
    ensures |r| == |ms| && forall i :: 0 <= i < |ms| ==> r[i] == Shortened(ms[i])
  {
    seq(|ms|, i requires 0 <= i < |ms| => Shortened(ms[i]))
  }

  /**
   Only a tool's result of more than 1000 bytes is cut: to the longest whole-character prefix
   within them, and marked. Nothing else of a message changes.
   */
  lemma {:induction false} ShortenedIs(m: Message) returns (k: nat)
    ensures Shortened(m) == m.(content := Shortened(m).content)
    ensures m.role != Tool || ByteLen(m.content) <= 1000 ==> Shortened(m) == m
    ensures m.role == Tool && ByteLen(m.content) > 1000 ==>
              && k < |m.content| && Shortened(m).content == m.content[..k] + "\U{2026}[truncated]"
              && ByteLen(m.content[..k]) <= 1000 < ByteLen(m.content[..k]) + CharBytes(m.content[k])
  {
    var cut := Prefix(m.content, MAX_TOOL_RESULT);
    PrefixIsLongest(m.content, MAX_TOOL_RESULT);
    k := |cut|;
    assert cut == m.content[..k];
  }

  lemma {:induction false} ShortenedIsPaired(ms: seq<Message>)
    requires Paired(ms)
    ensures Paired(ShortenedAll(ms))
  {
    if ms != [] {
      var r := ShortenedAll(ms);
      if IsCall(ms[0]) {
        ShortenedIsPaired(ms[2..]);
        assert r[2..] == ShortenedAll(ms[2..]);
      } else {
        ShortenedIsPaired(ms[1..]);
        assert r[1..] == ShortenedAll(ms[1..]);
      }
    }
  }

  function Recorded(sessions: map<string, Session>, person: string, ex: Exchange): map<string, Session> {
    var kept := ex.(messages := ShortenedAll(ex.messages));
    var s := if person in sessions then sessions[person] else Session(person, ex.at, ex.at, []);
    sessions[person := s.(lastActive := ex.at, exchanges := s.exchanges + [kept])]
  }

  // ---------- Live or archived ----------

  function ArchivedOf(p: string, archived: seq<Session>): seq<Exchange> {
    if archived == [] then []
    else ArchivedOf(p, archived[..|archived| - 1])
         + if archived[|archived| - 1].person == p then archived[|archived| - 1].exchanges else []
  }

  function LiveOf(p: string, sessions: map<string, Session>): seq<Exchange> {
    if p in sessions then sessions[p].exchanges else []
  }

  /** Everything kept of p, oldest first: what was archived, then what is live. */
  function Story(p: string, archived: seq<Session>, sessions: map<string, Session>): seq<Exchange> {
    ArchivedOf(p, archived) + LiveOf(p, sessions)
  }

  function StoryIn(recorded: map<string, seq<Exchange>>, p: string): seq<Exchange> {
    if p in recorded then recorded[p] else []
  }

  ghost predicate AllKept(archived: seq<Session>, sessions: map<string, Session>, recorded: map<string, seq<Exchange>>) {
    forall p :: Story(p, archived, sessions) == StoryIn(recorded, p)
  }

  lemma {:induction false} ArchivingMoves(archived: seq<Session>, sessions: map<string, Session>, p: string, q: string)
    requires p in sessions && sessions[p].person == p
    ensures Story(q, archived + [sessions[p]], sessions - {p}) == Story(q, archived, sessions)
  {
    ArchivedSnoc(q, archived, sessions[p]);
    var past := ArchivedOf(q, archived);
    if q == p {
      assert LiveOf(q, sessions - {p}) == [] && past + sessions[p].exchanges + [] == past + sessions[p].exchanges;
    } else {
      assert LiveOf(q, sessions - {p}) == LiveOf(q, sessions) && past + [] == past;
    }
  }

  /** Moving a session from live to archived loses nothing and repeats nothing. */
  lemma {:induction false} ArchivingKeeps(
      archived: seq<Session>, sessions: map<string, Session>, recorded: map<string, seq<Exchange>>, p: string)
    requires AllKept(archived, sessions, recorded) && p in sessions && sessions[p].person == p
    ensures AllKept(archived + [sessions[p]], sessions - {p}, recorded)
  {
    var archived', sessions' := archived + [sessions[p]], sessions - {p};
    forall q ensures Story(q, archived', sessions') == StoryIn(recorded, q) {
      ArchivingMoves(archived, sessions, p, q);
    }
  }

  lemma {:induction false} RecordingKeeps(
      archived: seq<Session>, sessions: map<string, Session>, recorded: map<string, seq<Exchange>>,
      p: string, s: Session, ex: Exchange)
    requires AllKept(archived, sessions, recorded) && s.exchanges == LiveOf(p, sessions) + [ex]
    ensures AllKept(archived, sessions[p := s], recorded[p := StoryIn(recorded, p) + [ex]])
  {
    var sessions', recorded' := sessions[p := s], recorded[p := StoryIn(recorded, p) + [ex]];
    forall q ensures Story(q, archived, sessions') == StoryIn(recorded', q) {
      assert Story(q, archived, sessions) == StoryIn(recorded, q);
      Regrouped(ArchivedOf(q, archived), LiveOf(q, sessions), [ex]);
    }
  }

  function LastOf(exs: seq<Exchange>): Exchange
    requires exs != []
  {
    exs[|exs| - 1]
  }

  /** A live session started with its first exchange and was last active at its last. */
  ghost predicate Timed(s: Session) {
    s.exchanges != [] && s.started == s.exchanges[0].at && s.lastActive == LastOf(s.exchanges).at
  }

  ghost predicate AllTimed(sessions: map<string, Session>) {
    forall p :: p in sessions ==> Timed(sessions[p])
  }

  /** Of the sessions there were, only those left whose last exchange is at least idle old, and person's alone if one is given. */
  ghost predicate OnlyIdleLeft(was: map<string, Session>, sessions: map<string, Session>, idle: int, now: int, person: string) {
    forall p :: p in was && p !in sessions ==>
      (person == "" || p == person) && was[p].exchanges != [] && now - LastOf(was[p].exchanges).at >= idle
  }

  function IdleIn(sessions: map<string, Session>, idle: int, now: int, person: string): set<string> {
    set p | p in sessions && (person == "" || p == person) && now - sessions[p].lastActive >= idle
  }

  /** Taking idle sessions out and putting some back leaves what is left as it was. */
  lemma {:induction false} WhatExpires(
      was: map<string, Session>, held: map<string, Session>, back: map<string, Session>,
      idle: int, now: int, person: string, sessions: map<string, Session>)
    requires AllTimed(was) && held.Keys == IdleIn(was, idle, now, person)
    requires PutBack(was, held) && PutBack(held, back) && sessions == (was - held.Keys) + back
    ensures AllTimed(sessions) && OnlyIdleLeft(was, sessions, idle, now, person) && PutBack(was, sessions)
  {
    forall p | p in was && p !in sessions
      ensures (person == "" || p == person) && was[p].exchanges != [] && now - LastOf(was[p].exchanges).at >= idle
    {
      assert p in held && Timed(was[p]);
    }
  }

  /** The last exchange of a live session is the last one recorded of its person. */
  lemma {:induction false} LiveEndsTheStory(
      p: string, archived: seq<Session>, sessions: map<string, Session>, recorded: seq<Exchange>)
    requires Story(p, archived, sessions) == recorded && p in sessions && Timed(sessions[p])
    ensures recorded != [] && LastOf(recorded) == LastOf(sessions[p].exchanges)
  {
    assert recorded == ArchivedOf(p, archived) + sessions[p].exchanges;
  }

  ghost predicate Keyed(sessions: map<string, Session>) {
    forall p :: p in sessions ==> sessions[p].person == p
  }

  ghost predicate AllPaired(sessions: map<string, Session>) {
    forall p, i :: p in sessions && 0 <= i < |sessions[p].exchanges| ==> Paired(sessions[p].exchanges[i].messages)
  }

  lemma {:induction false} RecordedIsPaired(sessions: map<string, Session>, person: string, ex: Exchange)
    requires AllPaired(sessions) && Paired(ex.messages)
    ensures AllPaired(Recorded(sessions, person, ex))
  {
    ShortenedIsPaired(ex.messages);
  }

  lemma {:induction false} ArchivedSnoc(p: string, archived: seq<Session>, s: Session)
    ensures ArchivedOf(p, archived + [s]) == ArchivedOf(p, archived) + if s.person == p then s.exchanges else []
  {
    assert (archived + [s])[..|archived|] == archived;
  }

  lemma {:induction false} ArchivedMember(p: string, archived: seq<Session>, e: Exchange)
    ensures e in ArchivedOf(p, archived) <==>
            exists i :: 0 <= i < |archived| && archived[i].person == p && e in archived[i].exchanges
  {
    if archived != [] {
      var front, last := archived[..|archived| - 1], archived[|archived| - 1];
      ArchivedMember(p, front, e);
      if i :| 0 <= i < |archived| && archived[i].person == p && e in archived[i].exchanges {
        assert i < |front| ==> front[i] == archived[i];
      }
      if i :| 0 <= i < |front| && front[i].person == p && e in front[i].exchanges {
        assert archived[i] == front[i];
      }
      if last.person == p && e in last.exchanges {
        assert archived[|archived| - 1] == last;
      }
    }
  }

  ghost predicate Distinct(es: seq<Exchange>) {
    forall i, j :: 0 <= i < j < |es| ==> es[i] != es[j]
  }

  lemma {:induction false} ArchivedOnce(p: string, archived: seq<Session>, e: Exchange, i: nat, j: nat)
    requires Distinct(ArchivedOf(p, archived)) && i < j < |archived|
    requires archived[i].person == p && e in archived[i].exchanges && archived[j].person == p
    ensures e !in archived[j].exchanges
  {
    var front, last := archived[..|archived| - 1], archived[|archived| - 1];
    assert front[i] == archived[i];
    var before, after := ArchivedOf(p, front), if last.person == p then last.exchanges else [];
    assert ArchivedOf(p, archived) == before + after;
    if j < |front| {
      assert front[j] == archived[j];
      assert forall a, b :: 0 <= a < b < |before| ==> (before + after)[a] == before[a] && (before + after)[b] == before[b];
      ArchivedOnce(p, front, e, i, j);
    } else {
      ArchivedMember(p, front, e);
      DistinctParts(before, after, e);
    }
  }

  lemma {:induction false} DistinctParts(a: seq<Exchange>, b: seq<Exchange>, e: Exchange)
    requires Distinct(a + b) && e in a
    ensures e !in b
  {
    var i :| 0 <= i < |a| && a[i] == e;
    forall j | 0 <= j < |b| ensures b[j] != e {
      assert (a + b)[i] == e && (a + b)[|a| + j] == b[j];
    }
  }

  /**
   What the conserved story says of one exchange: it is live or in exactly one archived
   session, never both and never neither.
   */
  lemma {:induction false} ExactlyOnePlace(
      p: string, archived: seq<Session>, sessions: map<string, Session>, recorded: seq<Exchange>, e: Exchange)
    requires Story(p, archived, sessions) == recorded && Distinct(recorded) && e in recorded
    ensures e in LiveOf(p, sessions) <==>
            !exists i :: 0 <= i < |archived| && archived[i].person == p && e in archived[i].exchanges
    ensures forall i, j :: 0 <= i < j < |archived| && archived[i].person == p && archived[j].person == p ==>
                             !(e in archived[i].exchanges && e in archived[j].exchanges)
  {
    var a, live := ArchivedOf(p, archived), LiveOf(p, sessions);
    ArchivedMember(p, archived, e);
    if e in a {
      DistinctParts(a, live, e);
    }
    assert Distinct(a) by {
      assert forall i :: 0 <= i < |a| ==> (a + live)[i] == a[i];
    }
    forall i, j | 0 <= i < j < |archived| && archived[i].person == p && archived[j].person == p && e in archived[i].exchanges
      ensures e !in archived[j].exchanges
    {
      ArchivedOnce(p, archived, e, i, j);
    }
  }

  // ---------- The store ----------

  class Store {
    const idle: int
    const line: Ending -> string
    const archive: Option<nat -> bool> // whether the nth archive call succeeds; None: no archive is set
    var tries: nat
    var sessions: map<string, Session>
    var archived: seq<Session>                       // sessions the archive took
    ghost var recorded: map<string, seq<Exchange>>   // every exchange ever recorded

    ghost predicate Valid()
      reads this
    {
      Whole() && AllTimed(sessions)
    }

    /** Every recorded exchange is kept, in order, as archived or live, if there is an archive. */
    ghost predicate Whole()
      reads this
    {
      Keyed(sessions) && (archive.Some? ==> AllKept(archived, sessions, recorded))
    }

    constructor (idle: int, line: Ending -> string, archive: Option<nat -> bool>)
      ensures this.idle == idle && this.line == line && this.archive == archive
      ensures Valid() && sessions == map[] && archived == []
    {
      this.idle, this.line, this.archive := idle, line, archive;
      tries, sessions, archived, recorded := 0, map[], [], map[];
    }

    method Record(person: string, ex: Exchange)
      requires Valid()
      modifies this
      ensures Valid() && archived == old(archived)
      ensures person == "" || ex.messages == [] ==> sessions == old(sessions) && recorded == old(recorded)
      ensures person != "" && ex.messages != [] ==>
                && sessions == Recorded(old(sessions), person, ex)
                && recorded == old(recorded)[person := StoryIn(old(recorded), person)
                                                       + [ex.(messages := ShortenedAll(ex.messages))]]
    {
      if person == "" || |ex.messages| == 0 {
        return;
      }
      var ms := ShortenResults(ex.messages);
      var s := Session(person, ex.at, ex.at, []);
      if person in sessions {
        s := sessions[person];
      }
      var kept := ex.(messages := ms);
      s := s.(lastActive := ex.at, exchanges := s.exchanges + [kept]);
      if archive.Some? {
        RecordingKeeps(archived, sessions, recorded, person, s, kept);
      }
      sessions := sessions[person := s];
      recorded := recorded[person := StoryIn(recorded, person) + [kept]];
    }

    ghost function IdleSet(now: int, person: string): set<string>
      reads this
    {
      IdleIn(sessions, idle, now, person)
    }

    /** person's session is idle, and the archive, if there is one, takes what it is handed next. */
    ghost predicate Leaves(now: int, person: string)
      reads this
    {
      person in IdleSet(now, person) && (archive.Some? ==> archive.value(tries))
    }

    /**
     Every session that is due, or person's alone if one is given, goes to the archive. A
     refused one is live again; without an archive they are just gone.
     */
    method Expire(now: int, person: string)
      requires Valid()
      modifies this
      ensures Valid() && recorded == old(recorded)
      ensures PutBack(old(sessions), sessions)
      ensures forall p :: p in old(sessions) && p !in old(IdleSet(now, person)) ==> p in sessions
      ensures OnlyIdleLeft(old(sessions), sessions, idle, now, person)
      ensures old(archived) <= archived
      ensures (archive.Some? ==> forall n :: n >= old(tries) ==> archive.value(n)) ==>
                sessions == old(sessions) - old(IdleSet(now, person))
      ensures person != "" ==> (person in sessions <==> person in old(sessions) && !old(Leaves(now, person)))
    {
      var gone := FindIdle(now, person);
      var held := map p | p in gone :: sessions[p];
      assert held.Keys == gone && PutBack(sessions, held);
      sessions := sessions - gone;
      if archive.None? {
        assert sessions == (old(sessions) - gone) + map[];
        WhatExpires(old(sessions), held, map[], idle, now, person, sessions);
        return;
      }
      assert sessions + held == old(sessions);
      assert person != "" && person in gone ==> held.Keys == {person};
      ghost var back := ArchiveHeld(held, person);
      assert sessions == (old(sessions) - gone) + back;
      WhatExpires(old(sessions), held, back, idle, now, person, sessions);
    }

    method FindIdle(now: int, person: string) returns (gone: set<string>)
      ensures gone == IdleSet(now, person)
    {
      gone := {};
      var rest := sessions.Keys;
      while rest != {}
        invariant rest <= sessions.Keys
        invariant gone == IdleSet(now, person) - rest
      {
        var p :| p in rest;
        rest := rest - {p};
        if (person == "" || p == person) && now - sessions[p].lastActive >= idle {
          gone := gone + {p};
        }
      }
    }

    /** The sessions in held are out of the store but not out of the story. */
    ghost predicate StillHeld(held: map<string, Session>)
      reads this
    {
      held.Keys !! sessions.Keys && Keyed(sessions + held) && AllKept(archived, sessions + held, recorded)
    }

    /** Hands each held session to the archive, or puts it back. */
    method ArchiveHeld(held: map<string, Session>, ghost only: string) returns (ghost back: map<string, Session>)
      requires archive.Some? && StillHeld(held)
      modifies this`sessions, this`archived, this`tries
      ensures Whole()
      ensures PutBack(held, back) && sessions == old(sessions) + back
      ensures (forall n :: n >= old(tries) ==> archive.value(n)) ==> back == map[]
      ensures held.Keys == {only} ==> (only !in back <==> archive.value(old(tries)))
      ensures old(archived) <= archived
    {
      var rest := held;
      back := map[];
      while rest != map[]
        invariant PutBack(held, rest) && StillHeld(rest)
        invariant PutBack(held, back) && sessions == old(sessions) + back
        invariant tries >= old(tries) && old(archived) <= archived
        invariant (forall n :: n >= old(tries) ==> archive.value(n)) ==> back == map[]
        invariant held.Keys == {only} && only in rest ==> tries == old(tries) && only !in back
        invariant held.Keys == {only} && only !in rest ==> (only !in back <==> archive.value(old(tries)))
        decreases rest.Keys
      {
        var p :| p in rest;
        var taken := ArchiveOne(p, rest);
        if !taken {
          back := back[p := rest[p]];
        }
        rest := rest - {p};
      }
      assert sessions + rest == sessions;
    }

    /** Archives one held session, or puts it back unless a newer one has started. */
    method ArchiveOne(p: string, held: map<string, Session>) returns (taken: bool)
      requires archive.Some? && StillHeld(held) && p in held
      modifies this`sessions, this`archived, this`tries
      ensures taken == archive.value(old(tries)) && tries == old(tries) + 1
      ensures sessions == if taken then old(sessions) else old(sessions)[p := held[p]]
      ensures archived == if taken then old(archived) + [held[p]] else old(archived)
      ensures StillHeld(held - {p})
    {
      ghost var was := sessions + held;
      taken := archive.value(tries);
      tries := tries + 1;
      if taken {
        ArchivingKeeps(archived, was, recorded, p);
        archived := archived + [held[p]];
        assert was - {p} == sessions + (held - {p});
      } else if p !in sessions {
        sessions := sessions[p := held[p]];
        assert was == sessions + (held - {p});
      }
    }

    /** Expires person's session if it is due, and retells what is then live. */
    method History(person: string, now: int) returns (out: seq<Message>)
      requires Valid()
      modifies this
      ensures Valid() && recorded == old(recorded)
      ensures forall p :: p in sessions ==> p in old(sessions) && sessions[p] == old(sessions)[p]
      ensures person == "" || person !in sessions ==> out == []
      ensures person != "" ==> (person in sessions <==> person in old(sessions) && !old(Leaves(now, person)))
      ensures person != "" && person in sessions ==>
                && (sessions[person].exchanges == [] ==> out == [])
                && (sessions[person].exchanges != [] ==>
                      exists k: nat :: Fits(sessions[person].exchanges, k)
                                  && out == RetoldAll(line, sessions[person].exchanges[k..]))
      ensures person != "" && person in old(sessions) && now - LastOf(old(sessions)[person].exchanges).at < idle ==>
                EndsWith(line, LastOf(old(sessions)[person].exchanges), out)
    {
      if person == "" {
        return [];
      }
      Expire(now, person);
      if person !in sessions {
        return [];
      }
      out := Recall(sessions[person].exchanges);
    }

    method Recall(exs: seq<Exchange>) returns (out: seq<Message>)
      ensures exs == [] ==> out == []
      ensures exs != [] ==> exists k: nat :: Fits(exs, k) && out == RetoldAll(line, exs[k..])
      ensures exs != [] ==> EndsWith(line, LastOf(exs), out)
    {
      var keep, i := Newest(exs);
      ghost var whole := RetoldAll(line, exs[i..]);
      out := [];
      var j := |keep|;
      while j > 0
        invariant 0 <= j <= |keep| && out + RetoldAll(line, exs[|exs| - j..]) == whole
      {
        RetoldNext(line, exs, |exs| - j);
        Regrouped(out, keep[j - 1], RetoldAll(line, exs[|exs| - j + 1..]));
        j := j - 1;
        out := out + keep[j];
      }
      assert exs[|exs|..] == [];
      assert out == whole;
      if exs != [] {
        RetoldEndsAt(line, exs, i);
      }
    }

    /** The newest exchanges that fit, newest first, and where they start. */
    method Newest(exs: seq<Exchange>) returns (keep: seq<seq<Message>>, i: nat)
      ensures i <= |exs| && |keep| == |exs| - i
      ensures forall j :: 0 <= j < |keep| ==> keep[j] == Retold(line, exs[|exs| - 1 - j])
      ensures exs != [] ==> Fits(exs, i)
    {
      keep, i := [], |exs|;
      var size := 0;
      while i > 0
        invariant 0 <= i <= |exs| && |keep| == |exs| - i
        invariant size == TotalBytes(exs[i..])
        invariant forall j :: 0 <= j < |keep| ==> keep[j] == Retold(line, exs[|exs| - 1 - j])
        invariant i == |exs| || size <= MAX_HISTORY || i == |exs| - 1
      {
        var ex := exs[i - 1];
        var n := CountBytes(ex.messages);
        assert exs[i - 1..][1..] == exs[i..];
        if size + n > MAX_HISTORY && |keep| > 0 {
          FitsIff(exs, i);
          return;
        }
        size := size + n;
        var msgs := ex.messages;
        if Notable(ex.outcome) {
          msgs := msgs + [Say(User, line(ex.outcome.value))];
        }
        assert msgs == Retold(line, ex);
        keep := keep + [msgs];
        i := i - 1;
      }
      if exs != [] {
        FitsIff(exs, 0);
      }
    }
  }

  ghost predicate PutBack(held: map<string, Session>, back: map<string, Session>) {
    forall p :: p in back ==> p in held && back[p] == held[p]
  }

  method ShortenResults(messages: seq<Message>) returns (ms: seq<Message>)
    ensures ms == ShortenedAll(messages)
  {
    ms := messages;
    for i := 0 to |ms|
      invariant |ms| == |messages|
      invariant forall j :: 0 <= j < |ms| ==> ms[j] == if j < i then Shortened(messages[j]) else messages[j]
    {
      if ms[i].role == Tool && ByteLen(ms[i].content) > MAX_TOOL_RESULT {
        ms := ms[i := ms[i].(content := Prefix(ms[i].content, MAX_TOOL_RESULT) + "\U{2026}[truncated]")];
      }
    }
  }

  method CountBytes(ms: seq<Message>) returns (n: nat)
    ensures n == ListBytes(ms)
  {
    n := 0;
    for i := 0 to |ms|
      invariant n + ListBytes(ms[i..]) == ListBytes(ms)
    {
      n := n + ByteLen(ms[i].content);
      for j := 0 to |ms[i].toolCalls|
        invariant n + ArgumentBytes(ms[i].toolCalls[j..]) + ListBytes(ms[i + 1..]) == ListBytes(ms)
      {
        n := n + ByteLen(ms[i].toolCalls[j].arguments);
        assert ms[i].toolCalls[j..][1..] == ms[i].toolCalls[j + 1..];
      }
      assert ms[i..][1..] == ms[i + 1..];
    }
  }
}
