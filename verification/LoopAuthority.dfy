/**
 Which calls one turn runs (internal/agent/loop.go): a guarded tool only as the first
 call of a resumed turn, and only when the user granted exactly that call.
 */
module LoopAuthority {
  import opened Wrappers
  import opened Events
  import opened TaskQueue
  import opened Approval
  import opened Chat
  import opened Host
  import opened Turns
  import opened LoopBounds
  import opened LoopSpec

  /** The calls made after the first n. */
  function Since(ran: seq<ToolRun>, n: nat): seq<ToolRun> {
    if n <= |ran| then ran[n..] else []
  }

  /** A turn parks only a call that needs approval. */
  ghost predicate ParksGuardedCall(env: Env, turn: TurnView) {
    turn.pending.Some? ==> turn.pending.value.tool in Guarded(env.catalog) && turn.await.Some?
  }

  lemma {:induction false} UseRuns(env: Env, p: Progress, call: ToolCall)
    ensures var q := UseTo(env, p, call);
            && (q.ran == p.ran || q.ran == p.ran + [ToolRun(call.name, call.arguments)])
            && q.turn.pending == p.turn.pending && (p.turn.await.Some? ==> q.turn.await.Some?)
  {
  }

  lemma {:induction false} DecisionRuns(env: Env, ev: Event, p: Progress, d: Proposal)
    requires ParksGuardedCall(env, p.turn)
    ensures var q := OnDecision(env, ev, p, d).p;
            && ParksGuardedCall(env, q.turn)
            && (q.ran == p.ran || exists run :: q.ran == p.ran + [run] && run.tool !in Guarded(env.catalog))
  {
    if d.Proposed? {
      var q := p.(turn := Append(p.turn, CallMessage(d.call)));
      UseRuns(env, q, d.call);
      var run := ToolRun(d.call.name, d.call.arguments);
      if OnDecision(env, ev, p, d).p.ran == p.ran + [run] {
        assert run.tool !in Guarded(env.catalog);
      }
    }
  }

  lemma {:induction false} LoopRuns(env: Env, ev: Event, p: Progress)
    requires ProperNames(env.catalog) && ParksGuardedCall(env, p.turn)
    ensures var q := LoopTo(env, ev, p);
            && ParksGuardedCall(env, q.turn)
            && p.ran <= q.ran
            && forall i :: |p.ran| <= i < |q.ran| ==> q.ran[i].tool !in Guarded(env.catalog)
    decreases Fuel(p)
  {
    if StalledBy(env, p).None? {
      DecisionRuns(env, ev, Asking(p), Choice(env, p));
      if Step(env, ev, p).Again? {
        FuelRunsDown(env, ev, p);
        LoopRuns(env, ev, Step(env, ev, p).p);
      }
    }
  }

  lemma {:induction false} BeginRuns(env: Env, t: Task, p: Progress)
    requires p.turn.pending == None
    ensures var q := Begin(env, t, p);
            && q.turn.pending == None
            && (q.ran == p.ran || exists run :: q.ran == p.ran + [run] && Granted(t, run))
  {
    if t.resume.Some? && t.resume.value.pending.Some? {
      var pc := t.resume.value.pending.value;
      var q := p.(turn := AppendAll(p.turn, RequestMessages(t)));
      var r := q.(turn := Append(q.turn, CallMessage(PendingAsCall(pc))), seen := map[], repeat := NO_REPEATS);
      UseRuns(env, r, PendingAsCall(pc));
      var run := ToolRun(pc.tool, pc.arguments);
      if Begin(env, t, p).ran == p.ran + [run] {
        if Approved(t.event.content) {
          assert Granted(t, run);
        }
      }
    }
  }

  /** The calls a whole turn runs are exactly of the shape the pipeline's Run steps allow. */
  lemma {:induction false} TurnRunsOnlyPermittedCalls(env: Env, t: Task, p: Progress)
    requires ProperNames(env.catalog) && p.turn.pending == None
    ensures var q := HandleTo(env, t, p);
            && ParksGuardedCall(env, q.turn)
            && p.ran <= q.ran
            && Permitted(Guarded(env.catalog), t, Since(q.ran, |p.ran|))
  {
    var b := Begin(env, t, p);
    BeginRuns(env, t, p);
    if env.directive.Some? {
      LoopRuns(env, t.event, Ready(env, b, env.directive.value));
    }
    var q := HandleTo(env, t, p);
    var mine := Since(q.ran, |p.ran|);
    forall i | 0 <= i < |mine| && mine[i].tool in Guarded(env.catalog) ensures i == 0 && Granted(t, mine[i]) {
      assert mine[i] == q.ran[|p.ran| + i];
      assert |p.ran| + i < |b.ran|;
    }
  }

  /** A permitted turn is a sequence of the pipeline's Run steps: every prefix is permitted too. */
  lemma PermittedPrefix(guarded: set<string>, t: Task, ran: seq<ToolRun>, n: nat)
    requires Permitted(guarded, t, ran) && n <= |ran|
    ensures Permitted(guarded, t, ran[..n])
  {
  }

  /** e can answer a question put, as message id, to the sender of ev. */
  predicate CanAnswer(ev: Event, id: string, e: Event) {
    e.kind == Events.Kind.Message && e.actor.id != ""
    && ((SamePlace(ev.origin, e.origin) && e.inReplyTo != "" && e.inReplyTo == id)
        || (SamePlace(ev.origin, e.origin) && e.actor.id == ev.actor.id)
        || (e.actor.person != "" && e.actor.person == ev.actor.person))
  }

  /** The same, with a place and an id there told apart only as keys tell them apart. */
  predicate SeemsToAnswer(ev: Event, id: string, e: Event) {
    e.kind == Events.Kind.Message && e.actor.id != ""
    && ((id != "" && e.inReplyTo != "" && Mark(e.origin, e.inReplyTo) == Mark(ev.origin, id))
        || Mark(e.origin, e.actor.id) == Mark(ev.origin, ev.actor.id)
        || (e.actor.person != "" && e.actor.person == ev.actor.person))
  }

  /**
   The keys a question is asked under and the keys an event carries meet exactly when the
   event seems to reply to it, or to come from the account asked, or comes from the person
   asked. That takes in every event that can answer; and, between places without a colon,
   no other.
   */
  lemma {:induction false} AskedIsAnsweredBy(env: Env, ev: Event, turn: TurnView, call: ToolCall, id: string, e: Event)
    requires env.send(env.texts.question(call)) == Delivered(id)
    ensures AskTo(env, ev, turn, call).await.Some?
    ensures SharesKey(e, AskTo(env, ev, turn, call).await.value.keys) <==> SeemsToAnswer(ev, id, e)
    ensures CanAnswer(ev, id, e) ==> SeemsToAnswer(ev, id, e)
    ensures PlainPlace(ev.origin) && PlainPlace(e.origin) ==> (SeemsToAnswer(ev, id, e) <==> CanAnswer(ev, id, e))
  {
    var keys := AskTo(env, ev, turn, call).await.value.keys;
    KeysMeet(ev, id, e, keys);
    if PlainPlace(ev.origin) && PlainPlace(e.origin) && SeemsToAnswer(ev, id, e) {
      if Mark(e.origin, e.inReplyTo) == Mark(ev.origin, id) {
        PlainMarksDiffer(e.origin, e.inReplyTo, ev.origin, id);
      }
      if Mark(e.origin, e.actor.id) == Mark(ev.origin, ev.actor.id) {
        PlainMarksDiffer(e.origin, e.actor.id, ev.origin, ev.actor.id);
      }
    }
  }

  lemma KindOfKey(a: Address, x: string, y: string, p: string)
    ensures ReplyKey(a, x)[0] == 'r' && ActorKey(a, y)[0] == 'a' && PersonKey(p)[0] == 'p'
  {
  }

  lemma {:induction false} KeysMeet(ev: Event, id: string, e: Event, keys: seq<string>)
    requires keys == (if id != "" then [ReplyKey(ev.origin, id)] else []) + AskKeys(ev)
    ensures SharesKey(e, keys) <==> SeemsToAnswer(ev, id, e)
  {
    var p, q := ev.actor.person, e.actor.person;
    KeysSpellTheirSource(e.origin, e.inReplyTo, ev.origin, id, p, q);
    KeysSpellTheirSource(e.origin, e.actor.id, ev.origin, ev.actor.id, p, q);
    if SharesKey(e, keys) {
      var key :| key in ResumeKeys(e) && key in keys;
      KindOfKey(e.origin, e.inReplyTo, e.actor.id, q);
      KindOfKey(ev.origin, id, ev.actor.id, p);
      assert key[0] == 'r' ==> e.inReplyTo != "" && key == ReplyKey(e.origin, e.inReplyTo);
      assert key[0] == 'a' ==> key == ActorKey(e.origin, e.actor.id);
      assert key[0] == 'p' ==> q != "" && key == PersonKey(q);
      assert key[0] == 'r' ==> id != "" && key == ReplyKey(ev.origin, id);
      assert key[0] == 'a' ==> key == ActorKey(ev.origin, ev.actor.id);
      assert key[0] == 'p' ==> p != "" && key == PersonKey(p);
    }
    if SeemsToAnswer(ev, id, e) {
      if id != "" && e.inReplyTo != "" && Mark(e.origin, e.inReplyTo) == Mark(ev.origin, id) {
        assert ReplyKey(e.origin, e.inReplyTo) in ResumeKeys(e) && ReplyKey(ev.origin, id) in keys;
      } else if Mark(e.origin, e.actor.id) == Mark(ev.origin, ev.actor.id) {
        assert ActorKey(e.origin, e.actor.id) in ResumeKeys(e) && ActorKey(ev.origin, ev.actor.id) in keys;
      } else {
        assert PersonKey(q) in ResumeKeys(e) && PersonKey(p) in keys;
      }
    }
  }

  // ---------- A question ends the turn ----------

  lemma {:induction false} QuestionEndsTheStep(env: Env, ev: Event, p: Progress)
    requires p.turn.await.None? && Step(env, ev, p).p.turn.await.Some?
    ensures Step(env, ev, p).Over? && StalledBy(env, p).None?
  {
    if StalledBy(env, p).None? {
      var d, q := Choice(env, p), Asking(p);
      if d.Proposed? {
        UseRuns(env, q.(turn := Append(q.turn, CallMessage(d.call))), d.call);
      }
    }
  }

  /** q is what the step from r ended the turn with, and r had no question out. */
  ghost predicate EndedBy(env: Env, ev: Event, r: Progress, q: Progress) {
    r.turn.await.None? && StalledBy(env, r).None? && Step(env, ev, r) == Over(q)
  }

  lemma {:induction false} QuestionEndsTheLoop(env: Env, ev: Event, p: Progress) returns (r: Progress)
    requires ProperNames(env.catalog) && p.turn.await.None? && LoopTo(env, ev, p).turn.await.Some?
    ensures EndedBy(env, ev, r, LoopTo(env, ev, p))
    decreases Fuel(p)
  {
    r := p;
    if Step(env, ev, p).p.turn.await.Some? {
      QuestionEndsTheStep(env, ev, p);
    } else if Step(env, ev, p).Again? {
      FuelRunsDown(env, ev, p);
      r := QuestionEndsTheLoop(env, ev, Step(env, ev, p).p);
    }
  }

  lemma {:induction false} LoopPrompts(env: Env, ev: Event, p: Progress)
    requires ProperNames(env.catalog)
    ensures |LoopTo(env, ev, p).prompts| > |p.prompts|
  {
    if StalledBy(env, p).None? {
      var d, q := Choice(env, p), Asking(p);
      DecisionAsksNothing(env, ev, q, d);
      if Step(env, ev, p).Again? {
        ModelCallsAreBounded(env, ev, Step(env, ev, p).p);
      }
    }
  }

  /** The resumed call was approved, ran, and put a question of its own. */
  predicate ApprovedCallAsks(env: Env, t: Task, p: Progress) {
    t.resume.Some? && t.resume.value.pending.Some? && Approved(t.event.content)
    && Awaits(Reply(env.catalog, env.answer, p.ran,
                    ToolRun(t.resume.value.pending.value.tool, t.resume.value.pending.value.arguments)))
  }

  lemma {:induction false} BeginAsksIff(env: Env, t: Task, p: Progress)
    requires p.turn.await.None?
    ensures Begin(env, t, p).turn.await.Some? <==> ApprovedCallAsks(env, t, p)
  {
    if t.resume.Some? && t.resume.value.pending.Some? && Approved(t.event.content) {
      var call := PendingAsCall(t.resume.value.pending.value);
      var q := p.(turn := AppendAll(p.turn, RequestMessages(t)));
      var r := q.(turn := Append(q.turn, CallMessage(call)), seen := map[], repeat := NO_REPEATS);
      ExecuteAwaitsIff(env, r, call);
    }
  }

  lemma {:induction false} ExecuteAwaitsIff(env: Env, p: Progress, call: ToolCall)
    requires p.turn.await.None?
    ensures ExecuteTo(env, p, call).turn.await.Some?
            <==> Awaits(Reply(env.catalog, env.answer, p.ran, ToolRun(call.name, call.arguments)))
  {
    var o := Reply(env.catalog, env.answer, p.ran, ToolRun(call.name, call.arguments));
    assert Absorb(p.turn, call.name, o).await.Some? <==> Awaits(o);
  }

  /**
   Once a question is out the turn makes no further call and gives no further prompt, with
   one exception: when the call the user approved puts a question itself, the loop starts
   all the same and prompts the model. Without a directive there is no prompt at all.
   */
  lemma {:induction false} QuestionIsTheLastThing(env: Env, t: Task, p: Progress) returns (r: Progress)
    requires ProperNames(env.catalog) && p.turn.await.None?
    ensures env.directive.None? ==> HandleTo(env, t, p).prompts == p.prompts
    ensures env.directive.Some? && ApprovedCallAsks(env, t, p) ==> |HandleTo(env, t, p).prompts| > |p.prompts|
    ensures !ApprovedCallAsks(env, t, p) && HandleTo(env, t, p).turn.await.Some? ==>
              EndedBy(env, t.event, r, HandleTo(env, t, p))
  {
    var b := Begin(env, t, p);
    r := p;
    BeginAsksNothing(env, t, p);
    BeginAsksIff(env, t, p);
    if env.directive.Some? {
      var start := Ready(env, b, env.directive.value);
      LoopPrompts(env, t.event, start);
      if b.turn.await.None? && HandleTo(env, t, p).turn.await.Some? {
        r := QuestionEndsTheLoop(env, t.event, start);
      }
    }
  }

  /** The turn as its loop finds it, and the first thing the model decides there. */
  ghost predicate FirstDecides(env: Env, t: Task, p: Progress, start: Progress, call: ToolCall) {
    env.directive.Some? && start == Ready(env, Begin(env, t, p), env.directive.value)
    && StalledBy(env, start).None? && Choice(env, start) == Proposed(call)
  }

  /** In that exception, a guarded call proposed next puts its own question in place of the one that is out. */
  lemma {:induction false} QuestionTakesItsPlace(
      env: Env, t: Task, p: Progress, start: Progress, call: ToolCall, id: string)
    requires ProperNames(env.catalog) && p.turn.await.None? && ApprovedCallAsks(env, t, p)
    requires FirstDecides(env, t, p, start, call) && NeedsApproval(env.catalog, call.name)
    requires env.send(env.texts.question(call)) == Delivered(id)
    ensures start.turn.await.Some?
    ensures var q := HandleTo(env, t, p);
            && q.turn.await.Some? && q.turn.await.value.question == env.texts.question(call)
            && q.turn.pending == Some(PendingCall(call.id, call.name, call.arguments))
  {
    BeginAsksIff(env, t, p);
  }

  /** And a reply is written while the question stays out, which parks the turn without it. */
  lemma {:induction false} ReplyIsLeftBehind(
      env: Env, t: Task, p: Progress, start: Progress, call: ToolCall, text: string)
    requires ProperNames(env.catalog) && p.turn.await.None? && ApprovedCallAsks(env, t, p)
    requires FirstDecides(env, t, p, start, call) && call.name == REPLY
    requires env.render(call.arguments, Append(Asking(start).turn, CallMessage(call))) == Some(text)
    ensures start.turn.await.Some?
    ensures HandleTo(env, t, p).turn.reply == text && HandleTo(env, t, p).turn.await == start.turn.await
  {
    BeginAsksIff(env, t, p);
  }

  /** The result of an approved call is what that call returned. */
  lemma {:induction false} ApprovedCallIsReported(env: Env, t: Task, p: Progress)
    requires t.resume.Some? && t.resume.value.pending.Some? && Approved(t.event.content)
    requires t.resume.value.pending.value.tool in env.catalog
    ensures var call := PendingAsCall(t.resume.value.pending.value);
            var run := ToolRun(call.name, call.arguments);
            var q := Begin(env, t, p);
            && q.ran == p.ran + [run]
            && ResultMessage(call, ContentOf(Reply(env.catalog, env.answer, p.ran, run))) in q.turn.conv.messages
  {
    var call := PendingAsCall(t.resume.value.pending.value);
    var run := ToolRun(call.name, call.arguments);
    var o := Reply(env.catalog, env.answer, p.ran, run);
    var q := p.(turn := AppendAll(p.turn, RequestMessages(t)));
    var r := q.(turn := Append(q.turn, CallMessage(call)), seen := map[], repeat := NO_REPEATS);
    assert Absorb(r.turn, call.name, o).conv == r.turn.conv;
    var m := ResultMessage(call, ContentOf(o));
    var ms := UseTo(env, r, call).turn.conv.messages;
    assert ms[|r.turn.conv.messages|] == m;
  }
}
