/**
 Every message list the model is given is well paired, on every path through the loop
 (internal/agent/loop.go), and what a turn saves is well paired too
 (internal/agent/runtime.go).
 */
module LoopPairing {
  import opened Wrappers
  import opened Events
  import opened TaskQueue
  import opened Approval
  import opened Chat
  import opened Host
  import opened Turns
  import opened LoopSpec

  predicate IsReplyCall(m: Message) {
    m.role == Assistant && |m.toolCalls| == 1 && m.toolCalls[0].name == REPLY
  }

  ghost predicate NoReplyCalls(ms: seq<Message>) {
    forall i :: 0 <= i < |ms| ==> !IsReplyCall(ms[i])
  }

  /** A transcript between steps: all of it paired, and this turn's part on its own. */
  ghost predicate Tidy(c: Transcript) {
    && c.turnStart <= |c.messages|
    && Paired(c.messages)
    && Paired(c.messages[c.turnStart..])
    && NoReplyCalls(c.messages[c.turnStart..])
    && HarnessIsPlain(c)
  }

  /** A transcript when the turn is over: tidy, but for a last call to reply. */
  ghost predicate Finished(c: Transcript) {
    Tidy(c) || exists before: Transcript, call: ToolCall :: Tidy(before) && call.name == REPLY && c == With(before, CallMessage(call))
  }

  ghost predicate PromptsPaired(prompts: seq<seq<Message>>) {
    forall i :: 0 <= i < |prompts| ==> Paired(prompts[i])
  }

  // ---------- Extending a tidy transcript ----------

  lemma {:induction false} TidyJoin(c: Transcript, more: seq<Message>)
    requires Tidy(c) && Paired(more) && NoReplyCalls(more)
    ensures Tidy(c.(messages := c.messages + more))
  {
    var d := c.(messages := c.messages + more);
    PairedJoin(c.messages, more);
    PairedJoin(c.messages[c.turnStart..], more);
    assert d.messages[c.turnStart..] == c.messages[c.turnStart..] + more;
  }

  lemma {:induction false} TidyPlain(c: Transcript, m: Message)
    requires Tidy(c) && Plain(m)
    ensures Tidy(With(c, m)) && Tidy(WithHarness(c, m))
  {
    PairedPlain([m]);
    TidyJoin(c, [m]);
  }

  lemma {:induction false} TidyExchange(c: Transcript, call: ToolCall, content: string)
    requires Tidy(c) && call.name != REPLY
    ensures Tidy(With(With(c, CallMessage(call)), ResultMessage(call, content)))
  {
    PairedExchange(call, content);
    var ms := [CallMessage(call), ResultMessage(call, content)];
    TidyJoin(c, ms);
    assert c.messages + [CallMessage(call)] + [ResultMessage(call, content)] == c.messages + ms;
  }

  /** What one use appends, whatever came of it. */
  lemma {:induction false} UseAppends(env: Env, p: Progress, call: ToolCall) returns (content: string, note: Option<string>)
    ensures var answered := With(p.turn.conv, ResultMessage(call, content));
            UseTo(env, p, call).turn.conv == if note.Some? then WithHarness(answered, Say(User, note.value)) else answered
    ensures UseTo(env, p, call).prompts == p.prompts
  {
    if Key(env, call) in p.seen {
      content := p.seen[Key(env, call)];
      var n := CountOf(p.repeat.suppressed, call.name) + 1;
      note := Some(if n >= MAX_SUPPRESSED then env.texts.closedNote(call.name) else env.texts.repeatNote);
    } else {
      var o := Reply(env.catalog, env.answer, p.ran, ToolRun(call.name, call.arguments));
      content := ContentOf(o);
      AbsorbKeepsConversation(p.turn, call.name, o);
      note := if Renders(o) && env.texts.verbatimNote != "" then Some(env.texts.verbatimNote) else None;
    }
  }

  lemma AbsorbKeepsConversation(turn: TurnView, name: string, o: Outcome)
    ensures Absorb(turn, name, o).conv == turn.conv
  {
  }

  lemma {:induction false} UseIsTidy(env: Env, p: Progress, c: Transcript, call: ToolCall)
    requires Tidy(c) && call.name != REPLY && p.turn.conv == With(c, CallMessage(call))
    ensures Tidy(UseTo(env, p, call).turn.conv)
  {
    var content, note := UseAppends(env, p, call);
    TidyExchange(c, call, content);
    if note.Some? {
      TidyPlain(With(p.turn.conv, ResultMessage(call, content)), Say(User, note.value));
    }
  }

  lemma {:induction false} ActIsTidy(env: Env, ev: Event, p: Progress, call: ToolCall)
    requires Tidy(p.turn.conv)
    ensures var q := Act(env, ev, p, call);
            if call.name == REPLY then Finished(q.p.turn.conv) else Tidy(q.p.turn.conv)
  {
    var c := p.turn.conv;
    var q := p.(turn := Append(p.turn, CallMessage(call)));
    if call.name == REPLY {
      assert Tidy(c) && q.turn.conv == With(c, CallMessage(call));
    } else if call.name == PLAN {
      TidyExchange(c, call, env.planAck(call.arguments));
    } else if NeedsApproval(env.catalog, call.name) {
      TidyExchange(c, call, env.texts.notAsked);
      TidyExchange(c, call, env.texts.waiting);
    } else {
      UseIsTidy(env, q, c, call);
    }
  }

  lemma {:induction false} DecisionIsTidy(env: Env, ev: Event, p: Progress, d: Proposal)
    requires Tidy(p.turn.conv)
    ensures var q := OnDecision(env, ev, p, d);
            Finished(q.p.turn.conv) && (q.Again? ==> Tidy(q.p.turn.conv)) && q.p.prompts == p.prompts
  {
    match d {
      case Garbled => TidyPlain(p.turn.conv, Say(User, env.texts.invalidNudge));
      case Broken(_, _) =>
      case Proposed(call) =>
        ActIsTidy(env, ev, p, call);
        var _, _ := UseAppends(env, p.(turn := Append(p.turn, CallMessage(call))), call);
    }
  }

  lemma {:induction false} ClosingIsPaired(env: Env, p: Progress)
    requires Tidy(p.turn.conv) && PromptsPaired(p.prompts)
    ensures PromptsPaired(ClosingTo(env, p).prompts) && Finished(ClosingTo(env, p).turn.conv)
  {
    var c := WithHarness(p.turn.conv, Say(User, env.texts.budgetNudge));
    TidyPlain(p.turn.conv, Say(User, env.texts.budgetNudge));
    assert ClosingTo(env, p).prompts == p.prompts + [c.messages];
    assert ClosingTo(env, p).turn.conv == c;
  }

  lemma {:induction false} StepIsTidy(env: Env, ev: Event, p: Progress)
    requires Tidy(p.turn.conv) && PromptsPaired(p.prompts)
    ensures var f := Step(env, ev, p);
            && Finished(f.p.turn.conv) && (!f.Over? ==> Tidy(f.p.turn.conv)) && PromptsPaired(f.p.prompts)
  {
    if StalledBy(env, p).None? {
      DecisionIsTidy(env, ev, Asking(p), Choice(env, p));
    }
  }

  lemma {:induction false} LoopIsPaired(env: Env, ev: Event, p: Progress)
    requires ProperNames(env.catalog) && Tidy(p.turn.conv) && PromptsPaired(p.prompts)
    ensures PromptsPaired(LoopTo(env, ev, p).prompts) && Finished(LoopTo(env, ev, p).turn.conv)
    decreases Fuel(p)
  {
    StepIsTidy(env, ev, p);
    match Step(env, ev, p) {
      case Again(q) =>
        FuelRunsDown(env, ev, p);
        LoopIsPaired(env, ev, q);
      case Over(_) =>
      case Stop(q) => ClosingIsPaired(env, q);
    }
  }

  // ---------- A whole turn ----------

  /** A pending call was proposed by the model as a catalog tool, so it is never a reply. */
  ghost predicate ResumesAToolCall(t: Task) {
    t.resume.Some? && t.resume.value.pending.Some? ==> t.resume.value.pending.value.tool != REPLY
  }

  lemma {:induction false} BeginIsTidy(env: Env, t: Task, p: Progress)
    requires Tidy(p.turn.conv) && ResumesAToolCall(t)
    ensures Tidy(Begin(env, t, p).turn.conv) && Begin(env, t, p).prompts == p.prompts
  {
    var request := RequestMessages(t);
    PairedPlain(request);
    TidyJoin(p.turn.conv, request);
    var q := p.(turn := AppendAll(p.turn, request));
    if t.resume.Some? && t.resume.value.pending.Some? {
      ResolveIsTidy(env, t.event, q, t.resume.value.pending.value);
    }
  }

  lemma {:induction false} ResolveIsTidy(env: Env, ev: Event, p: Progress, pc: PendingCall)
    requires Tidy(p.turn.conv) && pc.tool != REPLY
    ensures Tidy(ResolveTo(env, ev, p, pc).turn.conv) && ResolveTo(env, ev, p, pc).prompts == p.prompts
  {
    var call := PendingAsCall(pc);
    var r := p.(turn := Append(p.turn, CallMessage(call)), seen := map[], repeat := NO_REPEATS);
    TidyExchange(p.turn.conv, call, env.texts.notApproved);
    UseIsTidy(env, r, p.turn.conv, call);
    var _, _ := UseAppends(env, r, call);
  }

  /**
   From any well-paired history, every prompt of the turn is well paired, and what the
   turn leaves is ready to be saved.
   */
  lemma {:induction false} TurnIsPaired(env: Env, t: Task, p: Progress)
    requires ProperNames(env.catalog) && ResumesAToolCall(t)
    requires Tidy(p.turn.conv) && PromptsPaired(p.prompts)
    ensures PromptsPaired(HandleTo(env, t, p).prompts) && Finished(HandleTo(env, t, p).turn.conv)
  {
    BeginIsTidy(env, t, p);
    if env.directive.Some? {
      var q := Begin(env, t, p);
      TidyPlain(q.turn.conv, Say(User, env.directive.value));
      LoopIsPaired(env, t.event, Ready(env, q, env.directive.value));
    }
  }

  lemma {:induction false} OpeningIsTidy(systemPrompt: string, history: seq<Message>)
    requires Paired(history)
    ensures Tidy(Opening(systemPrompt, history))
  {
    var c := Opening(systemPrompt, history);
    PairedPlain([Say(System, systemPrompt)]);
    PairedJoin([Say(System, systemPrompt)], history);
    assert [] + history == history;
    assert c.messages[c.turnStart..] == [];
  }

  // ---------- What is saved ----------

  function DropReplyCalls(ms: seq<Message>): seq<Message> {
    if ms == [] then [] else (if IsReplyCall(ms[0]) then [] else [ms[0]]) + DropReplyCalls(ms[1..])
  }

  function NoReplyText(reply: string): string {
    if reply == "" then "(no reply was sent)" else reply
  }

  /** The finished exchange: the turn's messages with the delivered reply in place of the reply call. */
  function SavedMessages(c: Transcript, reply: string): seq<Message> {
    DropReplyCalls(TurnMessages(c)) + [Say(Assistant, NoReplyText(reply))]
  }

  lemma {:induction false} NothingToDrop(ms: seq<Message>)
    requires NoReplyCalls(ms)
    ensures DropReplyCalls(ms) == ms
  {
    if ms != [] {
      NothingToDrop(ms[1..]);
    }
  }

  lemma {:induction false} DropLast(ms: seq<Message>, m: Message)
    requires IsReplyCall(m)
    ensures DropReplyCalls(ms + [m]) == DropReplyCalls(ms)
  {
    if ms == [] {
      assert [m][1..] == [] && ms + [m] == [m];
    } else {
      DropLast(ms[1..], m);
      assert (ms + [m])[1..] == ms[1..] + [m];
    }
  }

  lemma {:induction false} VisibleHasNoReplies(ms: seq<Message>, harness: set<nat>, i: nat)
    requires i <= |ms| && NoReplyCalls(ms[i..])
    ensures NoReplyCalls(VisibleFrom(ms, harness, i))
    decreases |ms| - i
  {
    if i < |ms| {
      assert ms[i + 1..] == ms[i..][1..];
      assert ms[i] == ms[i..][0];
      VisibleHasNoReplies(ms, harness, i + 1);
    }
  }

  lemma {:induction false} TidyTurnMessages(c: Transcript)
    requires Tidy(c)
    ensures Paired(TurnMessages(c)) && NoReplyCalls(TurnMessages(c))
  {
    VisibleIsPaired(c.messages, c.harness, c.turnStart);
    VisibleHasNoReplies(c.messages, c.harness, c.turnStart);
  }

  /** What a turn saves is well paired, and holds no reply call. */
  lemma {:induction false} SavedIsPaired(c: Transcript, reply: string)
    requires Finished(c)
    ensures Paired(SavedMessages(c, reply))
  {
    var last := [Say(Assistant, NoReplyText(reply))];
    PairedPlain(last);
    if Tidy(c) {
      TidyTurnMessages(c);
      NothingToDrop(TurnMessages(c));
      PairedJoin(TurnMessages(c), last);
    } else {
      var before: Transcript, call: ToolCall :| Tidy(before) && call.name == REPLY && c == With(before, CallMessage(call));
      TidyTurnMessages(before);
      NothingToDrop(TurnMessages(before));
      VisibleJoin(before.messages, CallMessage(call), before.harness, before.turnStart);
      assert |before.messages| !in before.harness;
      DropLast(TurnMessages(before), CallMessage(call));
      PairedJoin(TurnMessages(before), last);
    }
  }
}
