/**
 Where each decision leads, and what a turn reports and puts to the user
 (internal/agent/loop.go), said of what the model and the servers answered.
 */
module LoopOutcomes {
  import opened Wrappers
  import opened Text
  import opened Events
  import opened TaskQueue
  import opened Approval
  import opened Chat
  import opened Host
  import opened Turns
  import opened LoopSpec
  import opened LoopBounds
  import opened LoopAuthority
  import opened LoopRecord

  // ---------- One step ----------

  /**
   The model may name any open tool of the catalog, and reply and plan, and nothing else:
   a call of one of them is the decision, and a call of anything else is none.
   */
  lemma {:induction false} OpenToolsCanBeCalled(env: Env, p: Progress) returns (offered: set<string>)
    ensures forall name :: name in offered <==>
              (name in env.catalog && name !in p.repeat.closed) || name == "reply" || name == "plan"
    ensures var answer := env.propose(|p.prompts|, p.turn.conv.messages, offered);
            Choice(env, p) == if answer.Proposed? && answer.call.name !in offered then Garbled else answer
  {
    offered := Offer(env, p.repeat.closed);
  }

  /** The loop stops for one of three reasons only, always for them, and says which, the first if there are more. */
  lemma {:induction false} StopsExactlyWhen(env: Env, ev: Event, p: Progress)
    requires Learning(p)
    ensures Step(env, ev, p).Stop? <==>
              Trailing(p.uses) >= 3 || Bytes(p.turn.conv.messages) > 196_608 || env.late(|p.prompts|)
    ensures Step(env, ev, p).Stop? ==>
              Says(Step(env, ev, p).p.turn, ProblemKind.Stalled, "",
                   if Trailing(p.uses) >= 3 then NothingNew(Trailing(p.uses))
                   else if Bytes(p.turn.conv.messages) > 196_608 then TooLarge else OutOfTime)
  {
    if StalledBy(env, p).Some? {
      StopSays(env, ev, p);
    }
    if StalledBy(env, p).None? {
      match Choice(env, p) {
        case Garbled =>
        case Broken(_, _) =>
        case Proposed(call) =>
      }
    }
  }

  /** A problem of this kind about this tool that the user is told of. */
  ghost predicate Visible(turn: TurnView, kind: ProblemKind, tool: string) {
    exists i :: 0 <= i < |turn.problems| && IsVisible(turn.problems[i], kind, tool)
  }

  predicate IsVisible(p: Problem, kind: ProblemKind, tool: string) {
    p.kind == kind && p.tool == tool && !p.recovered
  }

  /** There is a problem of this kind about this tool, with these particulars. */
  ghost predicate Says(turn: TurnView, kind: ProblemKind, tool: string, detail: Detail) {
    exists i :: 0 <= i < |turn.problems| && IsSaid(turn.problems[i], kind, tool, detail)
  }

  predicate IsSaid(p: Problem, kind: ProblemKind, tool: string, detail: Detail) {
    p.kind == kind && p.tool == tool && p.detail == detail
  }

  lemma {:induction false} ReportSays(turn: TurnView, kind: ProblemKind, tool: string, detail: Detail, recovered: bool)
    ensures Says(Reported(turn, kind, tool, detail, recovered), kind, tool, detail)
  {
    var p, ps := Problem(kind, tool, detail, recovered), turn.problems;
    var i := FirstReport(ps, p);
    if i < |ps| {
      NotedHit(ps, p, i);
    } else {
      NotedMiss(ps, p);
    }
    assert IsSaid(Reported(turn, kind, tool, detail, recovered).problems[i], kind, tool, detail);
  }

  lemma {:induction false} SaysTheSame(turn: TurnView, turn': TurnView)
    requires turn'.problems == turn.problems
    ensures forall k, t, d :: Says(turn, k, t, d) ==> Says(turn', k, t, d)
  {
    forall k, t, d | Says(turn, k, t, d) ensures Says(turn', k, t, d) {
      var i :| 0 <= i < |turn.problems| && IsSaid(turn.problems[i], k, t, d);
      assert IsSaid(turn'.problems[i], k, t, d);
    }
  }

  lemma {:induction false} StopSays(env: Env, ev: Event, p: Progress)
    requires StalledBy(env, p).Some?
    ensures Says(Step(env, ev, p).p.turn, ProblemKind.Stalled, "", StalledBy(env, p).value)
  {
    var why, turn := StalledBy(env, p).value, Reported(p.turn, ProblemKind.Stalled, "", StalledBy(env, p).value, false);
    ReportSays(p.turn, ProblemKind.Stalled, "", why, false);
    var i :| 0 <= i < |turn.problems| && IsSaid(turn.problems[i], ProblemKind.Stalled, "", why);
    assert IsSaid(Step(env, ev, p).p.turn.problems[i], ProblemKind.Stalled, "", why);
  }

  /** Reporting a problem shows it, unless it was recovered from, and hides none that was visible. */
  lemma {:induction false} ReportShows(turn: TurnView, kind: ProblemKind, tool: string, detail: Detail, recovered: bool)
    ensures !recovered ==> Visible(Reported(turn, kind, tool, detail, recovered), kind, tool)
    ensures forall k, t :: Visible(turn, k, t) ==> Visible(Reported(turn, kind, tool, detail, recovered), k, t)
  {
    var p, ps := Problem(kind, tool, detail, recovered), turn.problems;
    var turn' := Reported(turn, kind, tool, detail, recovered);
    var i := FirstReport(ps, p);
    if i < |ps| {
      NotedHit(ps, p, i);
    } else {
      NotedMiss(ps, p);
    }
    assert i < |turn'.problems| && (!recovered ==> IsVisible(turn'.problems[i], kind, tool));
    forall k, t | Visible(turn, k, t) ensures Visible(turn', k, t) {
      var j :| 0 <= j < |ps| && IsVisible(ps[j], k, t);
      assert IsVisible(turn'.problems[j], k, t);
    }
  }

  /** The code's own reply, and a visible problem beside it. */
  ghost predicate CodeReplies(env: Env, p: Progress, q: Progress) {
    Visible(q.turn, ModelError, "") && q.turn.reply == env.renderRest(q.turn.(reply := p.turn.reply))
  }

  /** The reply is the text the call renders to, or stays as it was if it does not render. */
  ghost predicate ModelReplies(env: Env, call: ToolCall, turn: TurnView, turn': TurnView) {
    turn' == match env.render(call.arguments, turn)
             case Some(text) => turn.(reply := text)
             case None => turn
  }

  /** After a stop nothing runs: one prompt more, and the reply is the model's or one the code writes. */
  lemma {:induction false} StopEndsInReply(env: Env, p: Progress)
    ensures var q, last := ClosingTo(env, p), p.turn.conv.messages + [Say(User, env.texts.budgetNudge)];
            && q.ran == p.ran && q.uses == p.uses && q.turn.actions == p.turn.actions
            && q.turn.await == p.turn.await && q.turn.pending == p.turn.pending
            && q.prompts == p.prompts + [last] && q.turn.conv.messages == last
            && var answer := env.propose(|p.prompts|, last, {"reply"});
               if answer.Proposed? && answer.call.name == "reply"
               then ModelReplies(env, answer.call, AppendHarness(p.turn, env.texts.budgetNudge), q.turn)
               else CodeReplies(env, p, q)
  {
    var q := p.(turn := AppendHarness(p.turn, env.texts.budgetNudge));
    ReportShows(q.turn, ModelError, "", CouldNotReply, false);
    assert Reported(q.turn, ModelError, "", CouldNotReply, false).reply == p.turn.reply;
  }

  /** A stop shows every problem so far, and its own. */
  lemma {:induction false} StopHidesNothing(env: Env, ev: Event, p: Progress)
    requires Step(env, ev, p).Stop?
    ensures var q := Step(env, ev, p).p;
            && q.ran == p.ran && q.uses == p.uses && q.prompts == p.prompts && q.turn.conv == p.turn.conv
            && Visible(q.turn, ProblemKind.Stalled, "")
            && forall i :: 0 <= i < |p.turn.problems| ==> Visible(q.turn, p.turn.problems[i].kind, p.turn.problems[i].tool)
  {
    var q, why := Step(env, ev, p).p, StalledBy(env, p).value;
    var ps, stall := p.turn.problems, Problem(ProblemKind.Stalled, "", why, false);
    var i := FirstReport(ps, stall);
    if i < |ps| {
      NotedHit(ps, stall, i);
    } else {
      NotedMiss(ps, stall);
    }
    assert IsVisible(q.turn.problems[i], ProblemKind.Stalled, "");
    forall j | 0 <= j < |ps| ensures Visible(q.turn, ps[j].kind, ps[j].tool) {
      assert IsVisible(q.turn.problems[j], ps[j].kind, ps[j].tool);
    }
  }

  /** The first answer that is no call costs a note and a hidden problem, and the second the turn. */
  lemma {:induction false} OneSlipIsForgiven(env: Env, ev: Event, p: Progress)
    requires StalledBy(env, p).None? && Choice(env, p).Garbled?
    ensures var f := Step(env, ev, p);
            && f.p.ran == p.ran && f.p.uses == p.uses && f.p.turn.reply == p.turn.reply && f.p.turn.await == p.turn.await
            && (p.invalid == 0 ==> f.Again? && f.p.invalid == 1 && f.p.failures == p.failures
                                   && f.p.turn.conv == WithHarness(p.turn.conv, Say(User, env.texts.invalidNudge)))
            && (p.invalid > 0 ==> f.Over? && f.p.turn.conv == p.turn.conv && Visible(f.p.turn, Unreadable, ""))
            && Says(f.p.turn, Unreadable, "", if p.invalid > 0 then GaveUpOnCall else RetriedCall)
  {
    ReportShows(Asking(p).turn, Unreadable, "", GaveUpOnCall, false);
    ReportSays(Asking(p).turn, Unreadable, "", GaveUpOnCall, false);
    ReportSays(Asking(p).turn, Unreadable, "", RetriedCall, true);
    var turn := Reported(Asking(p).turn, Unreadable, "", RetriedCall, true);
    SaysTheSame(turn, AppendHarness(turn, env.texts.invalidNudge));
  }

  /** And so with the first failure of the model, unless the turn's time is up. */
  lemma {:induction false} OneFailureIsForgiven(env: Env, ev: Event, p: Progress)
    requires StalledBy(env, p).None? && Choice(env, p).Broken?
    ensures var f := Step(env, ev, p);
            && f.p.ran == p.ran && f.p.uses == p.uses && f.p.turn.conv == p.turn.conv
            && f.p.turn.reply == p.turn.reply && f.p.turn.await == p.turn.await
            && (p.failures == 0 && !Choice(env, p).ended ==> f.Again? && f.p.failures == 1 && f.p.invalid == p.invalid)
            && (p.failures > 0 || Choice(env, p).ended ==> f.Over? && Visible(f.p.turn, ModelError, ""))
            && Says(f.p.turn, ModelError, "", if f.Over? then CouldNotThink(Choice(env, p).error)
                                              else RetriedThinking(Choice(env, p).error))
  {
    ReportShows(Asking(p).turn, ModelError, "", CouldNotThink(Choice(env, p).error), false);
    ReportSays(Asking(p).turn, ModelError, "", CouldNotThink(Choice(env, p).error), false);
    ReportSays(Asking(p).turn, ModelError, "", RetriedThinking(Choice(env, p).error), true);
  }

  /** A reply ends the turn with what the model wrote, and a plan is only acknowledged; neither runs anything. */
  lemma {:induction false} ReplyEndsPlanGoesOn(env: Env, ev: Event, p: Progress, call: ToolCall)
    requires StalledBy(env, p).None? && Choice(env, p) == Proposed(call)
    ensures var f, said := Step(env, ev, p), Append(Asking(p).turn, CallMessage(call));
            && (call.name == "reply" ==> f.Over? && ModelReplies(env, call, said, f.p.turn)
                                         && f.p.ran == p.ran && f.p.uses == p.uses)
            && (call.name == "plan" ==> f.Again? && f.p.turn == Append(said, ResultMessage(call, env.planAck(call.arguments)))
                                        && f.p.ran == p.ran && f.p.uses == p.uses)
  {
    assert |REPLY| == 5 && |PLAN| == 4;
  }

  // ---------- Calls to tools ----------

  /** The turn with the model's call in it, as the tool is used. */
  function Called(p: Progress, call: ToolCall): Progress {
    var q := Asking(p);
    q.(turn := Append(q.turn, CallMessage(call)))
  }

  lemma {:induction false} StepIsUse(env: Env, ev: Event, p: Progress, call: ToolCall)
    requires ProperNames(env.catalog) && StalledBy(env, p).None? && Choice(env, p) == Proposed(call)
    requires call.name in env.catalog && SaysHarmless(env.catalog[call.name].annotations)
    ensures Step(env, ev, p).p == UseTo(env, Called(p, call), call)
  {
    assert call.name != REPLY && call.name != PLAN && !NeedsApproval(env.catalog, call.name);
  }

  lemma {:induction false} UseIsMade(env: Env, p: Progress, call: ToolCall)
    requires call.name in env.catalog
    ensures var q := UseTo(env, p, call);
            && q.turn.pending == p.turn.pending
            && |q.uses| == |p.uses| + 1 && q.uses[..|p.uses|] == p.uses && q.uses[|p.uses|].call == call
            && if Key(env, call) in p.seen then q.ran == p.ran && q.uses[|p.uses|].content == p.seen[Key(env, call)]
               else q.ran == p.ran + [ToolRun(call.name, call.arguments)]
                    && q.uses[|p.uses|].content == Heard(env.answer(p.ran, ToolRun(call.name, call.arguments)))
  {
    UseKeepsLog(env, p, call);
  }

  /** A call of a tool that says it is harmless is made, or answered from memory, and nobody is asked. */
  lemma {:induction false} HarmlessCallsAreMade(env: Env, ev: Event, p: Progress, call: ToolCall)
    requires ProperNames(env.catalog) && StalledBy(env, p).None? && Choice(env, p) == Proposed(call)
    requires call.name in env.catalog && SaysHarmless(env.catalog[call.name].annotations)
    ensures var q := Step(env, ev, p).p;
            && q.turn.pending == p.turn.pending
            && |q.uses| == |p.uses| + 1 && q.uses[..|p.uses|] == p.uses && q.uses[|p.uses|].call == call
            && if Key(env, call) in p.seen then q.ran == p.ran && q.uses[|p.uses|].content == p.seen[Key(env, call)]
               else q.ran == p.ran + [ToolRun(call.name, call.arguments)]
                    && q.uses[|p.uses|].content == Heard(env.answer(p.ran, ToolRun(call.name, call.arguments)))
  {
    StepIsUse(env, ev, p, call);
    UseIsMade(env, Called(p, call), call);
  }

  lemma {:induction false} RepeatSays(env: Env, p: Progress, call: ToolCall, prev: string)
    ensures var n, q := CountOf(p.repeat.suppressed, call.name) + 1, RepeatTo(env, p, call, prev);
            && Says(q.turn, Repeated, call.name, if n >= 2 then KeptCalling(call.name, n + 1) else CalledTwice(call.name))
            && (n >= 2 ==> call.name in q.repeat.closed)
            && q.turn.conv.messages == p.turn.conv.messages + [ResultMessage(call, prev)]
                                       + [Say(User, if n >= 2 then env.texts.closedNote(call.name) else env.texts.repeatNote)]
  {
    var n := CountOf(p.repeat.suppressed, call.name) + 1;
    var detail := if n >= MAX_SUPPRESSED then KeptCalling(call.name, n + 1) else CalledTwice(call.name);
    ReportSays(p.turn, Repeated, call.name, detail, true);
    SaysTheSame(Reported(p.turn, Repeated, call.name, detail, true), RepeatTo(env, p, call, prev).turn);
  }

  lemma {:induction false} ExecuteSaysWhy(env: Env, p: Progress, call: ToolCall)
    requires call.name in env.catalog
    ensures var q := ExecuteTo(env, p, call);
            match env.answer(p.ran, ToolRun(call.name, call.arguments))
            case Failed(e) => Says(q.turn, ToolError, call.name, CallFailed(call.name, e))
            case Answered(text, isError, _) => isError ==> Says(q.turn, ToolError, call.name, CallFailed(call.name, text))
  {
    var o := Reply(env.catalog, env.answer, p.ran, ToolRun(call.name, call.arguments));
    if o.NoResult? || o.isError {
      var detail := CallFailed(call.name, if o.NoResult? then o.error else o.text);
      ReportSays(p.turn, ToolError, call.name, detail, false);
      SaysTheSame(Reported(p.turn, ToolError, call.name, detail, false), ExecuteTo(env, p, call).turn);
    }
  }

  /**
   What is recorded of such a call for the user: why it failed, or that it was a repeat, and
   how often its tool had been called in vain when that closed the tool.
   */
  lemma {:induction false} CallsSayWhatWentWrong(env: Env, ev: Event, p: Progress, call: ToolCall)
    requires ProperNames(env.catalog) && StalledBy(env, p).None? && Choice(env, p) == Proposed(call) && Tallied(env, p)
    requires call.name in env.catalog && SaysHarmless(env.catalog[call.name].annotations)
    ensures var q, refused := Step(env, ev, p).p, Refused(env.catalog, p.uses, call.name);
            if Key(env, call) in p.seen then
              && Says(q.turn, Repeated, call.name, if refused >= 1 then KeptCalling(call.name, refused + 2) else CalledTwice(call.name))
              && (refused >= 1 ==> call.name in q.repeat.closed)
            else match env.answer(p.ran, ToolRun(call.name, call.arguments))
                 case Failed(e) => Says(q.turn, ToolError, call.name, CallFailed(call.name, e))
                 case Answered(text, isError, _) => isError ==> Says(q.turn, ToolError, call.name, CallFailed(call.name, text))
  {
    StepIsUse(env, ev, p, call);
    var r := Called(p, call);
    assert CountOf(p.repeat.suppressed, call.name) == Refused(env.catalog, p.uses, call.name);
    if Key(env, call) in p.seen {
      RepeatSays(env, r, call, p.seen[Key(env, call)]);
    } else {
      ExecuteSaysWhy(env, r, call);
    }
  }

  /** The question for call is out as message id, to be answered under exactly these keys, and call waits for it. */
  ghost predicate AskedAs(env: Env, ev: Event, call: ToolCall, id: string, turn: TurnView) {
    && env.send(env.texts.question(call)) == Delivered(id)
    && turn.pending == Some(PendingCall(call.id, call.name, call.arguments))
    && turn.await.Some? && turn.await.value.question == env.texts.question(call)
    && forall e :: SharesKey(e, turn.await.value.keys) <==> SeemsToAnswer(ev, id, e)
  }

  /**
   A call of any other tool is not made. The turn ends with the question out and the call
   waiting for the answer, or, if the question could not be sent, with nothing out or waiting.
   */
  lemma {:induction false} OtherCallsAreAsked(env: Env, ev: Event, p: Progress, call: ToolCall)
    requires ProperNames(env.catalog) && StalledBy(env, p).None? && Choice(env, p) == Proposed(call)
    requires call.name in env.catalog && !SaysHarmless(env.catalog[call.name].annotations)
    ensures var f, q := Step(env, ev, p), Step(env, ev, p).p;
            && f.Over? && q.ran == p.ran && q.uses == p.uses
            && match env.send(env.texts.question(call))
               case NotSent =>
                 && q.turn.await == p.turn.await && q.turn.pending == p.turn.pending
                 && q.turn.conv.messages == p.turn.conv.messages + [CallMessage(call)] + [ResultMessage(call, env.texts.notAsked)]
               case Delivered(id) => AskedAs(env, ev, call, id, q.turn)
  {
    assert call.name != REPLY && call.name != PLAN;
    if env.send(env.texts.question(call)).Delivered? {
      forall e
        ensures SharesKey(e, Step(env, ev, p).p.turn.await.value.keys)
           <==> SeemsToAnswer(ev, env.send(env.texts.question(call)).messageId, e)
      {
        AskedIsAnsweredBy(env, ev, Append(Asking(p).turn, CallMessage(call)), call,
                          env.send(env.texts.question(call)).messageId, e);
      }
    }
  }

  /** A call that was made goes to a tool that says it is harmless, unless the user granted it. */
  ghost predicate Excused(env: Env, t: Task, n: nat, ran: seq<ToolRun>, i: nat)
    requires i < |ran|
  {
    ran[i].tool in env.catalog
    && (SaysHarmless(env.catalog[ran[i].tool].annotations) || (i == n && Granted(t, ran[i])))
  }

  /** after continues before, with calls to harmless tools of the catalog only. */
  ghost predicate OnlyHarmless(catalog: Catalog, before: seq<ToolRun>, after: seq<ToolRun>) {
    before <= after && forall i :: |before| <= i < |after| ==>
                                     after[i].tool in catalog && SaysHarmless(catalog[after[i].tool].annotations)
  }

  lemma {:induction false} OnlyHarmlessOn(catalog: Catalog, a: seq<ToolRun>, b: seq<ToolRun>, c: seq<ToolRun>)
    requires OnlyHarmless(catalog, a, b) && OnlyHarmless(catalog, b, c)
    ensures OnlyHarmless(catalog, a, c)
  {
    forall i | |a| <= i < |c| ensures c[i].tool in catalog && SaysHarmless(catalog[c[i].tool].annotations) {
      assert i < |b| ==> c[i] == b[i];
    }
  }

  lemma {:induction false} StepRunsHarmless(env: Env, ev: Event, p: Progress)
    requires ProperNames(env.catalog)
    ensures OnlyHarmless(env.catalog, p.ran, Step(env, ev, p).p.ran)
  {
    if StalledBy(env, p).None? && Choice(env, p).Proposed? {
      var call := Choice(env, p).call;
      UseRuns(env, Asking(p).(turn := Append(Asking(p).turn, CallMessage(call))), call);
    }
  }

  lemma {:induction false} LoopRunsHarmless(env: Env, ev: Event, p: Progress)
    requires ProperNames(env.catalog)
    ensures OnlyHarmless(env.catalog, p.ran, LoopTo(env, ev, p).ran)
    decreases Fuel(p)
  {
    StepRunsHarmless(env, ev, p);
    if Step(env, ev, p).Again? {
      var q := Step(env, ev, p).p;
      FuelRunsDown(env, ev, p);
      LoopRunsHarmless(env, ev, q);
      OnlyHarmlessOn(env.catalog, p.ran, q.ran, LoopTo(env, ev, q).ran);
    }
  }

  lemma {:induction false} BeginRunsGranted(env: Env, t: Task, p: Progress)
    ensures var q := Begin(env, t, p);
            q.ran == p.ran || (|q.ran| == |p.ran| + 1 && p.ran <= q.ran && Excused(env, t, |p.ran|, q.ran, |p.ran|))
  {
    if t.resume.Some? && t.resume.value.pending.Some? && Approved(t.event.content) {
      var pc := t.resume.value.pending.value;
      var q := p.(turn := AppendAll(p.turn, RequestMessages(t)));
      UseRuns(env, q.(turn := Append(q.turn, CallMessage(PendingAsCall(pc))), seen := map[], repeat := NO_REPEATS),
              PendingAsCall(pc));
      assert Granted(t, ToolRun(pc.tool, pc.arguments));
    }
  }

  /**
   No call is made unasked but to a tool of the catalog that says it only reads or destroys
   nothing: every other was the first of its turn, and exactly the one the user granted.
   */
  lemma {:induction false} UnaskedCallsAreHarmless(env: Env, t: Task, p: Progress, i: nat)
    requires ProperNames(env.catalog) && |p.ran| <= i < |HandleTo(env, t, p).ran|
    ensures p.ran <= HandleTo(env, t, p).ran && Excused(env, t, |p.ran|, HandleTo(env, t, p).ran, i)
  {
    BeginRunsGranted(env, t, p);
    if env.directive.Some? {
      LoopRunsHarmless(env, t.event, Ready(env, Begin(env, t, p), env.directive.value));
    }
  }

  // ---------- Questions ----------

  /** A server's answer to one of the turn's calls put this question, and no call waits for it. */
  ghost predicate PutByServer(env: Env, n: nat, ran: seq<ToolRun>, turn: TurnView) {
    turn.pending.None? && exists k :: n <= k < |ran| && PutsIt(env, ran, k, turn.await)
  }

  ghost predicate PutsIt(env: Env, ran: seq<ToolRun>, k: nat, await: Option<Await>)
    requires k < |ran|
  {
    var o := env.answer(ran[..k], ran[k]);
    o.Answered? && !o.isError && o.await.Some? && o.await == await
  }

  ghost predicate PutByLoop(env: Env, ev: Event, turn: TurnView) {
    exists call, id :: AskedAs(env, ev, call, id, turn)
  }

  /** Nothing is out, or what is out was delivered by the loop with its call, or put by a server. */
  ghost predicate QuestionWasPut(env: Env, ev: Event, n: nat, p: Progress) {
    (p.turn.await.None? ==> p.turn.pending.None?)
    && (p.turn.await.Some? ==> PutByLoop(env, ev, p.turn) || PutByServer(env, n, p.ran, p.turn))
  }

  lemma {:induction false} ExecutePuts(env: Env, ev: Event, n: nat, p: Progress, call: ToolCall)
    requires n <= |p.ran| && p.turn.pending.None? && QuestionWasPut(env, ev, n, p)
    ensures n <= |ExecuteTo(env, p, call).ran| && QuestionWasPut(env, ev, n, ExecuteTo(env, p, call))
    ensures ExecuteTo(env, p, call).turn.pending.None?
  {
    var q, run := ExecuteTo(env, p, call), ToolRun(call.name, call.arguments);
    if call.name !in env.catalog {
      SamePuts(env, ev, n, p, q);
      return;
    }
    assert q.ran == p.ran + [run] && q.ran[..|p.ran|] == p.ran;
    if Awaits(Reply(env.catalog, env.answer, p.ran, run)) {
      assert PutsIt(env, q.ran, |p.ran|, q.turn.await);
    } else if q.turn.await.Some? {
      assert q.turn.await == p.turn.await;
      var k :| n <= k < |p.ran| && PutsIt(env, p.ran, k, p.turn.await);
      assert q.ran[..k] == p.ran[..k] && q.ran[k] == p.ran[k];
      assert PutsIt(env, q.ran, k, q.turn.await);
    }
  }

  lemma {:induction false} UsePuts(env: Env, ev: Event, n: nat, p: Progress, call: ToolCall)
    requires n <= |p.ran| && p.turn.pending.None? && QuestionWasPut(env, ev, n, p)
    ensures n <= |UseTo(env, p, call).ran| && QuestionWasPut(env, ev, n, UseTo(env, p, call))
  {
    if Key(env, call) in p.seen {
      SamePuts(env, ev, n, p, UseTo(env, p, call));
    } else {
      ExecutePuts(env, ev, n, p, call);
    }
  }

  lemma {:induction false} SamePuts(env: Env, ev: Event, n: nat, p: Progress, q: Progress)
    requires QuestionWasPut(env, ev, n, p)
    requires q.turn.await == p.turn.await && q.turn.pending == p.turn.pending && q.ran == p.ran
    ensures QuestionWasPut(env, ev, n, q)
  {
    if PutByLoop(env, ev, p.turn) {
      var call, id :| AskedAs(env, ev, call, id, p.turn);
      assert AskedAs(env, ev, call, id, q.turn);
    }
  }

  lemma {:induction false} ActPuts(env: Env, ev: Event, n: nat, p: Progress)
    requires ProperNames(env.catalog) && n <= |p.ran| && p.turn.pending.None? && QuestionWasPut(env, ev, n, p)
    requires StalledBy(env, p).None? && Choice(env, p).Proposed? && Choice(env, p).call.name in env.catalog
    ensures var q := Step(env, ev, p).p;
            && n <= |q.ran| && QuestionWasPut(env, ev, n, q) && (Step(env, ev, p).Again? ==> q.turn.pending.None?)
  {
    var call := Choice(env, p).call;
    var r := Asking(p).(turn := Append(Asking(p).turn, CallMessage(call)));
    if SaysHarmless(env.catalog[call.name].annotations) {
      HarmlessCallsAreMade(env, ev, p, call);
      SamePuts(env, ev, n, p, r);
      UsePuts(env, ev, n, r, call);
    } else {
      OtherCallsAreAsked(env, ev, p, call);
      var q := Step(env, ev, p).p;
      match env.send(env.texts.question(call)) {
        case NotSent => SamePuts(env, ev, n, p, q);
        case Delivered(id) => assert AskedAs(env, ev, call, id, q.turn);
      }
    }
  }

  lemma {:induction false} StepPuts(env: Env, ev: Event, n: nat, p: Progress)
    requires ProperNames(env.catalog) && n <= |p.ran| && p.turn.pending.None? && QuestionWasPut(env, ev, n, p)
    ensures var q := Step(env, ev, p).p;
            && n <= |q.ran| && QuestionWasPut(env, ev, n, q) && (!Step(env, ev, p).Over? ==> q.turn.pending.None?)
  {
    var q := Step(env, ev, p).p;
    if StalledBy(env, p).None? && Choice(env, p).Proposed? && Choice(env, p).call.name in env.catalog {
      ActPuts(env, ev, n, p);
    } else {
      SamePuts(env, ev, n, p, q);
    }
  }

  lemma {:induction false} LoopPuts(env: Env, ev: Event, n: nat, p: Progress)
    requires ProperNames(env.catalog) && n <= |p.ran| && p.turn.pending.None? && QuestionWasPut(env, ev, n, p)
    ensures n <= |LoopTo(env, ev, p).ran| && QuestionWasPut(env, ev, n, LoopTo(env, ev, p))
    decreases Fuel(p)
  {
    StepPuts(env, ev, n, p);
    match Step(env, ev, p) {
      case Again(q) =>
        FuelRunsDown(env, ev, p);
        LoopPuts(env, ev, n, q);
      case Over(_) =>
      case Stop(q) => SamePuts(env, ev, n, q, ClosingTo(env, q));
    }
  }

  /**
   What a turn parks was put to somebody: a call waits only behind a question about it that
   the loop delivered, and any other question is one a server put in answer to a call of this
   turn. A question that could not be sent parks nothing.
   */
  lemma {:induction false} EveryQuestionWasPut(env: Env, t: Task, p: Progress)
    requires ProperNames(env.catalog) && p.turn.await.None? && p.turn.pending.None?
    ensures var q := HandleTo(env, t, p);
            && (q.turn.await.None? ==> q.turn.pending.None?)
            && (q.turn.await.Some? ==> PutByLoop(env, t.event, q.turn) || PutByServer(env, |p.ran|, q.ran, q.turn))
  {
    var n, b := |p.ran|, Begin(env, t, p);
    if t.resume.Some? && t.resume.value.pending.Some? {
      var call := PendingAsCall(t.resume.value.pending.value);
      var q := p.(turn := AppendAll(p.turn, RequestMessages(t)));
      var r := q.(turn := Append(q.turn, CallMessage(call)), seen := map[], repeat := NO_REPEATS);
      ExecutePuts(env, t.event, n, r, call);
      if Approved(t.event.content) {
        SamePuts(env, t.event, n, ExecuteTo(env, r, call), b);
      }
    }
    if env.directive.Some? {
      var start := Ready(env, b, env.directive.value);
      SamePuts(env, t.event, n, b, start);
      LoopPuts(env, t.event, n, start);
    }
  }

  // ---------- What the user is told ----------

  ghost predicate IsShown(turn: TurnView, body: string) {
    exists i :: 0 <= i < |turn.verbatim| && turn.verbatim[i].body == body
  }

  /**
   What became of the kth call is there for the user: a failure as a visible problem of that
   tool, and the answer of a verbatim tool, unless it is blank, word for word.
   */
  ghost predicate Reflected(env: Env, ran: seq<ToolRun>, k: nat, turn: TurnView)
    requires k < |ran|
  {
    ran[k].tool in env.catalog &&
    var o := env.answer(ran[..k], ran[k]);
    && (o.Failed? || o.isError ==> Visible(turn, ToolError, ran[k].tool))
    && (o.Answered? && !o.isError && o.await.None? && env.catalog[ran[k].tool].verbatim && TrimSpace(o.text) != "" ==>
          IsShown(turn, TrimSpace(o.text)))
  }

  /** turn' tells the user everything turn does. */
  ghost predicate TellsAll(turn: TurnView, turn': TurnView) {
    (forall k, t :: Visible(turn, k, t) ==> Visible(turn', k, t))
    && (forall body :: IsShown(turn, body) ==> IsShown(turn', body))
  }

  /** Since the first n calls each is reflected, and nothing told in base is withdrawn. */
  ghost predicate AllReflected(env: Env, base: TurnView, n: nat, p: Progress) {
    && n <= |p.ran| && (forall k :: n <= k < |p.ran| ==> Reflected(env, p.ran, k, p.turn))
    && TellsAll(base, p.turn)
  }

  lemma {:induction false} ReportTellsAll(turn: TurnView, kind: ProblemKind, tool: string, detail: Detail, recovered: bool)
    ensures TellsAll(turn, Reported(turn, kind, tool, detail, recovered))
  {
    ReportShows(turn, kind, tool, detail, recovered);
    assert Reported(turn, kind, tool, detail, recovered).verbatim == turn.verbatim;
  }

  lemma {:induction false} SameTellsAll(turn: TurnView, turn': TurnView)
    requires turn'.problems == turn.problems && turn'.verbatim == turn.verbatim
    ensures TellsAll(turn, turn')
  {
    forall k, t | Visible(turn, k, t) ensures Visible(turn', k, t) {
      var j :| 0 <= j < |turn.problems| && IsVisible(turn.problems[j], k, t);
      assert IsVisible(turn'.problems[j], k, t);
    }
  }

  ghost predicate OnceEach(blocks: seq<Block>) {
    forall i, j :: 0 <= i < j < |blocks| ==> blocks[i].body != blocks[j].body
  }

  /** A body that is shown is a block of its own, once, and a blank one none. */
  lemma {:induction false} ShownShows(blocks: seq<Block>, tool: string, text: string)
    ensures blocks <= Shown(blocks, tool, text)
    ensures OnceEach(blocks) ==> OnceEach(Shown(blocks, tool, text))
    ensures TrimSpace(text) == "" ==> Shown(blocks, tool, text) == blocks
    ensures Shown(blocks, tool, text) != blocks ==> Shown(blocks, tool, text) == blocks + [Block(tool, TrimSpace(text))]
    ensures TrimSpace(text) != "" ==>
              exists i :: 0 <= i < |Shown(blocks, tool, text)| && Shown(blocks, tool, text)[i].body == TrimSpace(text)
  {
    var b, after := TrimSpace(text), Shown(blocks, tool, text);
    if b != "" {
      if v :| v in blocks && v.body == b {
        var i :| 0 <= i < |blocks| && blocks[i] == v;
        assert after[i].body == b;
      } else {
        assert after[|blocks|].body == b;
      }
    }
  }

  lemma {:induction false} AbsorbTells(turn: TurnView, name: string, o: Outcome)
    ensures TellsAll(turn, Absorb(turn, name, o))
    ensures o.NoResult? || o.isError ==> Visible(Absorb(turn, name, o), ToolError, name)
    ensures Renders(o) && TrimSpace(o.text) != "" ==> IsShown(Absorb(turn, name, o), TrimSpace(o.text))
  {
    if o.NoResult? || o.isError {
      var detail := CallFailed(name, if o.NoResult? then o.error else o.text);
      ReportShows(turn, ToolError, name, detail, false);
      ReportTellsAll(turn, ToolError, name, detail, false);
    } else if Renders(o) {
      ShownShows(turn.verbatim, name, o.text);
      var turn' := Absorb(turn, name, o);
      forall body | IsShown(turn, body) ensures IsShown(turn', body) {
        var i :| 0 <= i < |turn.verbatim| && turn.verbatim[i].body == body;
        assert turn'.verbatim[i].body == body;
      }
      SameProblems(turn, turn');
    } else {
      SameTellsAll(turn, Absorb(turn, name, o));
    }
  }

  lemma {:induction false} SameProblems(turn: TurnView, turn': TurnView)
    requires turn'.problems == turn.problems
    ensures forall k, t :: Visible(turn, k, t) ==> Visible(turn', k, t)
  {
    forall k, t | Visible(turn, k, t) ensures Visible(turn', k, t) {
      var j :| 0 <= j < |turn.problems| && IsVisible(turn.problems[j], k, t);
      assert IsVisible(turn'.problems[j], k, t);
    }
  }

  /** What is reflected stays so while the turn tells no less. */
  lemma {:induction false} StaysReflected(env: Env, base: TurnView, n: nat, p: Progress, q: Progress)
    requires AllReflected(env, base, n, p) && TellsAll(p.turn, q.turn) && p.ran <= q.ran
    requires forall k :: |p.ran| <= k < |q.ran| ==> Reflected(env, q.ran, k, q.turn)
    ensures AllReflected(env, base, n, q)
  {
    TellsOn(base, p.turn, q.turn);
    forall k | n <= k < |q.ran| ensures Reflected(env, q.ran, k, q.turn) {
      if k < |p.ran| {
        assert Reflected(env, p.ran, k, p.turn) && q.ran[..k] == p.ran[..k] && q.ran[k] == p.ran[k];
      }
    }
  }

  lemma {:induction false} TellsOn(a: TurnView, b: TurnView, c: TurnView)
    requires TellsAll(a, b) && TellsAll(b, c)
    ensures TellsAll(a, c)
  {
  }

  lemma {:induction false} ExecuteReflects(env: Env, base: TurnView, n: nat, p: Progress, call: ToolCall)
    requires call.name in env.catalog && AllReflected(env, base, n, p)
    ensures AllReflected(env, base, n, ExecuteTo(env, p, call))
  {
    var q, run := ExecuteTo(env, p, call), ToolRun(call.name, call.arguments);
    var o := Reply(env.catalog, env.answer, p.ran, run);
    var mid := Absorb(p.turn, call.name, o);
    AbsorbTells(p.turn, call.name, o);
    SameTellsAll(mid, q.turn);
    TellsOn(p.turn, mid, q.turn);
    assert q.ran == p.ran + [run] && q.ran[..|p.ran|] == p.ran;
    assert Reflected(env, q.ran, |p.ran|, q.turn);
    StaysReflected(env, base, n, p, q);
  }

  lemma {:induction false} QuietStep(env: Env, base: TurnView, n: nat, p: Progress, q: Progress)
    requires AllReflected(env, base, n, p) && TellsAll(p.turn, q.turn) && q.ran == p.ran
    ensures AllReflected(env, base, n, q)
  {
    StaysReflected(env, base, n, p, q);
  }

  lemma {:induction false} UseReflects(env: Env, base: TurnView, n: nat, p: Progress, call: ToolCall)
    requires call.name in env.catalog && AllReflected(env, base, n, p)
    ensures AllReflected(env, base, n, UseTo(env, p, call))
  {
    if Key(env, call) in p.seen {
      var k := CountOf(p.repeat.suppressed, call.name) + 1;
      var detail := if k >= MAX_SUPPRESSED then KeptCalling(call.name, k + 1) else CalledTwice(call.name);
      var mid, q := Reported(p.turn, Repeated, call.name, detail, true), UseTo(env, p, call);
      ReportTellsAll(p.turn, Repeated, call.name, detail, true);
      SameTellsAll(mid, q.turn);
      TellsOn(p.turn, mid, q.turn);
      QuietStep(env, base, n, p, q);
    } else {
      ExecuteReflects(env, base, n, p, call);
    }
  }

  lemma {:induction false} DecisionReflects(env: Env, ev: Event, base: TurnView, n: nat, p: Progress, d: Proposal)
    requires AllReflected(env, base, n, p) && ProperNames(env.catalog)
    requires d.Proposed? ==> d.call.name in env.catalog || d.call.name == REPLY || d.call.name == PLAN
    ensures AllReflected(env, base, n, OnDecision(env, ev, p, d).p)
  {
    var q := OnDecision(env, ev, p, d).p;
    match d {
      case Garbled =>
        ReportTellsAll(p.turn, Unreadable, "", if p.invalid > 0 then GaveUpOnCall else RetriedCall, p.invalid == 0);
        SameTellsAll(Reported(p.turn, Unreadable, "", if p.invalid > 0 then GaveUpOnCall else RetriedCall, p.invalid == 0), q.turn);
        QuietStep(env, base, n, p, q);
      case Broken(e, ended) =>
        ReportTellsAll(p.turn, ModelError, "", CouldNotThink(e), false);
        ReportTellsAll(p.turn, ModelError, "", RetriedThinking(e), true);
        QuietStep(env, base, n, p, q);
      case Proposed(call) =>
        var r := p.(turn := Append(p.turn, CallMessage(call)));
        SameTellsAll(p.turn, r.turn);
        QuietStep(env, base, n, p, r);
        if call.name in env.catalog && !NeedsApproval(env.catalog, call.name) {
          UseReflects(env, base, n, r, call);
        } else {
          SameTellsAll(r.turn, q.turn);
          QuietStep(env, base, n, r, q);
        }
    }
  }

  lemma {:induction false} StopReflects(env: Env, ev: Event, base: TurnView, n: nat, p: Progress)
    requires AllReflected(env, base, n, p) && StalledBy(env, p).Some?
    ensures AllReflected(env, base, n, Step(env, ev, p).p)
  {
    var q := Step(env, ev, p).p;
    StopHidesNothing(env, ev, p);
    assert q.turn.verbatim == p.turn.verbatim;
    QuietStep(env, base, n, p, q);
  }

  lemma {:induction false} ClosingReflects(env: Env, base: TurnView, n: nat, p: Progress)
    requires AllReflected(env, base, n, p)
    ensures AllReflected(env, base, n, ClosingTo(env, p))
  {
    var r, q := AppendHarness(p.turn, env.texts.budgetNudge), ClosingTo(env, p);
    SameTellsAll(p.turn, r);
    ReportTellsAll(r, ModelError, "", CouldNotReply, false);
    var mid := Reported(r, ModelError, "", CouldNotReply, false);
    SameTellsAll(mid, mid.(reply := q.turn.reply));
    SameTellsAll(r, r.(reply := q.turn.reply));
    TellsOn(p.turn, r, q.turn);
    QuietStep(env, base, n, p, q);
  }

  lemma {:induction false} LoopReflects(env: Env, ev: Event, base: TurnView, n: nat, p: Progress)
    requires ProperNames(env.catalog) && AllReflected(env, base, n, p)
    ensures AllReflected(env, base, n, LoopTo(env, ev, p))
    decreases Fuel(p)
  {
    if StalledBy(env, p).Some? {
      StopReflects(env, ev, base, n, p);
      ClosingReflects(env, base, n, Step(env, ev, p).p);
    } else {
      SameTellsAll(p.turn, Asking(p).turn);
      QuietStep(env, base, n, p, Asking(p));
      DecisionReflects(env, ev, base, n, Asking(p), Choice(env, p));
      if Step(env, ev, p).Again? {
        FuelRunsDown(env, ev, p);
        LoopReflects(env, ev, base, n, Step(env, ev, p).p);
      }
    }
  }

  /** The call that waited is the first to be reflected, or was refused, which is on record and told. */
  lemma {:induction false} BeginReflects(env: Env, t: Task, p: Progress)
    ensures var b := Begin(env, t, p);
            && AllReflected(env, p.turn, |p.ran|, b)
            && (t.resume.Some? && t.resume.value.pending.Some? && !Approved(t.event.content) ==>
                  var tool := t.resume.value.pending.value.tool;
                  && b.ran == p.ran && Visible(b.turn, Declined, tool)
                  && b.turn.actions == p.turn.actions + [Action(tool, false, env.texts.notRun)])
  {
    var n, b, q := |p.ran|, Begin(env, t, p), p.(turn := AppendAll(p.turn, RequestMessages(t)));
    SameTellsAll(p.turn, q.turn);
    if t.resume.Some? && t.resume.value.pending.Some? {
      var call := PendingAsCall(t.resume.value.pending.value);
      var r := q.(turn := Append(q.turn, CallMessage(call)), seen := map[], repeat := NO_REPEATS);
      SameTellsAll(p.turn, r.turn);
      if !Approved(t.event.content) {
        var told := Append(r.turn, ResultMessage(call, env.texts.notApproved));
        var mid := told.(actions := told.actions + [Action(call.name, false, env.texts.notRun)]);
        SameTellsAll(p.turn, mid);
        ReportShows(mid, Declined, call.name, NotApproved(call.name), false);
        ReportTellsAll(mid, Declined, call.name, NotApproved(call.name), false);
        TellsOn(p.turn, mid, b.turn);
      } else if call.name in env.catalog {
        ExecuteReflects(env, p.turn, n, r, call);
        SameTellsAll(ExecuteTo(env, r, call).turn, b.turn);
        QuietStep(env, p.turn, n, ExecuteTo(env, r, call), b);
      } else {
        AbsorbTells(r.turn, call.name, NoResult(NOT_FOUND));
        SameTellsAll(Absorb(r.turn, call.name, NoResult(NOT_FOUND)), b.turn);
        TellsOn(r.turn, Absorb(r.turn, call.name, NoResult(NOT_FOUND)), b.turn);
        TellsOn(p.turn, r.turn, b.turn);
      }
    }
  }

  /**
   Nothing a turn did goes untold: every call it made that failed is a visible problem of
   that tool, and every verbatim tool's answer is among the blocks shown, trimmed and unless
   it is blank. A call the user did not approve is told of as declined, and is the turn's
   first action, not done.
   */
  lemma {:induction false} NothingGoesUntold(env: Env, t: Task, p: Progress)
    requires ProperNames(env.catalog)
    ensures var q := HandleTo(env, t, p);
            && |p.ran| <= |q.ran|
            && (forall k :: |p.ran| <= k < |q.ran| ==> Reflected(env, q.ran, k, q.turn))
            && (t.resume.Some? && t.resume.value.pending.Some? && !Approved(t.event.content) ==>
                  var tool := t.resume.value.pending.value.tool;
                  && Visible(q.turn, Declined, tool)
                  && p.turn.actions + [Action(tool, false, env.texts.notRun)] <= q.turn.actions)
  {
    var b := Begin(env, t, p);
    BeginReflects(env, t, p);
    if env.directive.Some? {
      var start := Ready(env, b, env.directive.value);
      SameTellsAll(start.turn, start.turn);
      SameTellsAll(b.turn, start.turn);
      QuietStep(env, p.turn, |p.ran|, b, start);
      assert AllReflected(env, start.turn, |p.ran|, start);
      LoopReflects(env, t.event, start.turn, |p.ran|, start);
      TellsOn(b.turn, start.turn, HandleTo(env, t, p).turn);
      ActionsAreTheEffects(env, t.event, start);
    }
  }
}
