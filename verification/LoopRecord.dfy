/**
 What a turn shows is what happened (internal/agent/loop.go): the results in the
 transcript and the calls that reached a tool are those of the turn's uses, and its
 actions are the calls that could have changed anything.
 */
module LoopRecord {
  import opened Wrappers
  import opened Events
  import opened Approval
  import opened Chat
  import opened Host
  import opened Turns
  import opened LoopSpec

  // ---------- Results in the transcript ----------

  /** A tool the loop runs without asking. */
  predicate Free(catalog: Catalog, name: string) {
    name in catalog && !NeedsApproval(catalog, name)
  }

  // A call and the result the model was shown for it.
  datatype Exchanged = Exchanged(call: ToolCall, content: string)

  /** The last message as the result of a free tool's call in the one before it. */
  function LastExchange(catalog: Catalog, ms: seq<Message>): seq<Exchanged> {
    if |ms| >= 2 && ms[|ms| - 1].role == Role.Tool && Free(catalog, ms[|ms| - 1].name) && |ms[|ms| - 2].toolCalls| == 1
    then [Exchanged(ms[|ms| - 2].toolCalls[0], ms[|ms| - 1].content)] else []
  }

  /** Every result of a free tool in the transcript, with the call it answers. */
  function Exchanges(catalog: Catalog, ms: seq<Message>): seq<Exchanged> {
    if ms == [] then [] else Exchanges(catalog, ms[..|ms| - 1]) + LastExchange(catalog, ms)
  }

  function UseExchanges(uses: seq<Use>): (r: seq<Exchanged>)
    ensures |r| == |uses| && forall i :: 0 <= i < |uses| ==> r[i] == Exchanged(uses[i].call, uses[i].content)
  {
    seq(|uses|, i requires 0 <= i < |uses| => Exchanged(uses[i].call, uses[i].content))
  }

  /** The calls of the uses that were not answered from memory. */
  function RunsOf(uses: seq<Use>): seq<ToolRun> {
    if uses == [] then []
    else
      var u := uses[|uses| - 1];
      RunsOf(uses[..|uses| - 1]) + if u.ran then [ToolRun(u.call.name, u.call.arguments)] else []
  }

  lemma {:induction false} ExchangesSnoc(catalog: Catalog, ms: seq<Message>, m: Message)
    ensures Exchanges(catalog, ms + [m]) == Exchanges(catalog, ms) + LastExchange(catalog, ms + [m])
  {
    assert (ms + [m])[..|ms|] == ms;
  }

  lemma {:induction false} NoExchange(catalog: Catalog, ms: seq<Message>, m: Message)
    requires m.role != Role.Tool || !Free(catalog, m.name)
    ensures Exchanges(catalog, ms + [m]) == Exchanges(catalog, ms)
  {
    ExchangesSnoc(catalog, ms, m);
  }

  lemma {:induction false} OneExchange(catalog: Catalog, ms: seq<Message>, call: ToolCall, content: string)
    requires Free(catalog, call.name)
    ensures Exchanges(catalog, ms + [CallMessage(call)] + [ResultMessage(call, content)])
         == Exchanges(catalog, ms) + [Exchanged(call, content)]
  {
    ExchangesSnoc(catalog, ms + [CallMessage(call)], ResultMessage(call, content));
    NoExchange(catalog, ms, CallMessage(call));
  }

  // ---------- One use ----------

  /** The use a call amounts to. */
  function UseOf(env: Env, p: Progress, call: ToolCall): Use {
    if Key(env, call) in p.seen then Use(|p.ran|, call, p.seen[Key(env, call)], false, false)
    else
      var content := ContentOf(Reply(env.catalog, env.answer, p.ran, ToolRun(call.name, call.arguments)));
      Use(|p.ran|, call, content, true, content !in p.repeat.results)
  }

  lemma {:induction false} UseKeepsLog(env: Env, p: Progress, call: ToolCall)
    requires call.name in env.catalog
    ensures var q, u := UseTo(env, p, call), UseOf(env, p, call);
            && q.uses == p.uses + [u]
            && q.ran == p.ran + if u.ran then [ToolRun(call.name, call.arguments)] else []
  {
    assert p.ran + [] == p.ran;
  }

  /** What a use leaves in the conversation: its result, and perhaps a note of the harness's. */
  lemma {:induction false} UseSays(env: Env, p: Progress, call: ToolCall) returns (note: seq<Message>)
    ensures UseTo(env, p, call).turn.conv.messages
         == p.turn.conv.messages + [ResultMessage(call, UseOf(env, p, call).content)] + note
    ensures |note| <= 1 && forall m :: m in note ==> m.role != Role.Tool
  {
    var u := UseOf(env, p, call);
    if u.ran {
      note := ExecuteSays(env, p, call);
    } else {
      var told := p.turn.conv.messages + [ResultMessage(call, u.content)];
      note := [UseTo(env, p, call).turn.conv.messages[|told|]];
      assert UseTo(env, p, call).turn.conv.messages == told + note;
    }
  }

  lemma {:induction false} ExecuteSays(env: Env, p: Progress, call: ToolCall) returns (note: seq<Message>)
    ensures var content := ContentOf(Reply(env.catalog, env.answer, p.ran, ToolRun(call.name, call.arguments)));
            ExecuteTo(env, p, call).turn.conv.messages == p.turn.conv.messages + [ResultMessage(call, content)] + note
    ensures |note| <= 1 && forall m :: m in note ==> m.role != Role.Tool
  {
    var o := Reply(env.catalog, env.answer, p.ran, ToolRun(call.name, call.arguments));
    var told := p.turn.conv.messages + [ResultMessage(call, ContentOf(o))];
    assert Absorb(p.turn, call.name, o).conv == p.turn.conv;
    note := if Renders(o) && env.texts.verbatimNote != "" then [Say(User, env.texts.verbatimNote)] else [];
    assert told + [] == told;
  }

  lemma {:induction false} UseIsShown(env: Env, p: Progress, call: ToolCall)
    requires Free(env.catalog, call.name)
    ensures var q := UseTo(env, p.(turn := Append(p.turn, CallMessage(call))), call);
            && p.turn.conv.messages <= q.turn.conv.messages
            && Exchanges(env.catalog, q.turn.conv.messages)
               == Exchanges(env.catalog, p.turn.conv.messages) + [Exchanged(call, UseOf(env, p, call).content)]
  {
    var ms := p.turn.conv.messages;
    var content := UseOf(env, p, call).content;
    var note := UseSays(env, p.(turn := Append(p.turn, CallMessage(call))), call);
    OneExchange(env.catalog, ms, call, content);
    var told := ms + [CallMessage(call)] + [ResultMessage(call, content)];
    if note == [] {
      assert told + note == told;
    } else {
      assert note == [note[0]] && note[0] in note;
      NoExchange(env.catalog, told, note[0]);
    }
  }

  // ---------- The log and what happened ----------

  /** Each use was made after exactly the calls of the uses before it. */
  ghost predicate InStep(n: nat, uses: seq<Use>) {
    forall i :: 0 <= i < |uses| ==> uses[i].at == n + |RunsOf(uses[..i])|
  }

  ghost predicate Logged(env: Env, ms: seq<Message>, ran: seq<ToolRun>, p: Progress) {
    && ms <= p.turn.conv.messages
    && Exchanges(env.catalog, p.turn.conv.messages) == Exchanges(env.catalog, ms) + UseExchanges(p.uses)
    && p.ran == ran + RunsOf(p.uses)
    && InStep(|ran|, p.uses)
  }

  lemma {:induction false} LogSnoc(ran: seq<ToolRun>, uses: seq<Use>, u: Use)
    requires InStep(|ran|, uses) && u.at == |ran + RunsOf(uses)|
    ensures InStep(|ran|, uses + [u])
    ensures UseExchanges(uses + [u]) == UseExchanges(uses) + [Exchanged(u.call, u.content)]
    ensures ran + RunsOf(uses + [u])
         == ran + RunsOf(uses) + if u.ran then [ToolRun(u.call.name, u.call.arguments)] else []
  {
    var all := uses + [u];
    assert all[..|uses|] == uses;
    forall i | 0 <= i < |all| ensures all[i].at == |ran| + |RunsOf(all[..i])| {
      assert i < |uses| ==> all[..i] == uses[..i];
    }
  }

  lemma {:induction false} UseIsLogged(env: Env, ms: seq<Message>, ran: seq<ToolRun>, p: Progress, call: ToolCall)
    requires Logged(env, ms, ran, p) && Free(env.catalog, call.name)
    ensures Logged(env, ms, ran, UseTo(env, p.(turn := Append(p.turn, CallMessage(call))), call))
  {
    var r := p.(turn := Append(p.turn, CallMessage(call)));
    var u := UseOf(env, p, call);
    assert UseOf(env, r, call) == u;
    UseKeepsLog(env, r, call);
    UseIsShown(env, p, call);
    LogSnoc(ran, p.uses, u);
    Regrouped(Exchanges(env.catalog, ms), UseExchanges(p.uses), [Exchanged(u.call, u.content)]);
  }

  lemma {:induction false} PlainKeepsLog(env: Env, ms: seq<Message>, ran: seq<ToolRun>, p: Progress, q: Progress, m: Message)
    requires Logged(env, ms, ran, p) && (m.role != Role.Tool || !Free(env.catalog, m.name))
    requires q.turn.conv.messages == p.turn.conv.messages + [m] && q.uses == p.uses && q.ran == p.ran
    ensures Logged(env, ms, ran, q)
  {
    NoExchange(env.catalog, p.turn.conv.messages, m);
  }

  lemma {:induction false} ActIsLogged(env: Env, ev: Event, ms: seq<Message>, ran: seq<ToolRun>, p: Progress, call: ToolCall)
    requires ProperNames(env.catalog) && Logged(env, ms, ran, p)
    requires call.name in env.catalog || call.name == REPLY || call.name == PLAN
    ensures Logged(env, ms, ran, Act(env, ev, p, call).p)
  {
    var r, q := p.(turn := Append(p.turn, CallMessage(call))), Act(env, ev, p, call).p;
    if Free(env.catalog, call.name) {
      UseIsLogged(env, ms, ran, p, call);
    } else {
      PlainKeepsLog(env, ms, ran, p, r, CallMessage(call));
      if call.name != REPLY {
        PlainKeepsLog(env, ms, ran, r, q, q.turn.conv.messages[|r.turn.conv.messages|]);
      }
    }
  }

  lemma {:induction false} StepIsLogged(env: Env, ev: Event, ms: seq<Message>, ran: seq<ToolRun>, p: Progress)
    requires ProperNames(env.catalog) && Logged(env, ms, ran, p)
    ensures Logged(env, ms, ran, Step(env, ev, p).p)
  {
    if StalledBy(env, p).None? {
      match Choice(env, p) {
        case Garbled =>
          var q := OnGarbled(env, Asking(p)).p;
          if OnGarbled(env, Asking(p)).Again? {
            PlainKeepsLog(env, ms, ran, Asking(p), q, Say(User, env.texts.invalidNudge));
          }
        case Broken(_, _) =>
        case Proposed(call) => ActIsLogged(env, ev, ms, ran, Asking(p), call);
      }
    }
  }

  lemma {:induction false} ClosingIsLogged(env: Env, ms: seq<Message>, ran: seq<ToolRun>, p: Progress)
    requires Logged(env, ms, ran, p)
    ensures Logged(env, ms, ran, ClosingTo(env, p))
  {
    PlainKeepsLog(env, ms, ran, p, ClosingTo(env, p), Say(User, env.texts.budgetNudge));
  }

  lemma {:induction false} LoopIsLogged(env: Env, ev: Event, ms: seq<Message>, ran: seq<ToolRun>, p: Progress)
    requires ProperNames(env.catalog) && Logged(env, ms, ran, p)
    ensures Logged(env, ms, ran, LoopTo(env, ev, p))
    decreases Fuel(p)
  {
    StepIsLogged(env, ev, ms, ran, p);
    match Step(env, ev, p) {
      case Again(q) =>
        FuelRunsDown(env, ev, p);
        LoopIsLogged(env, ev, ms, ran, q);
      case Over(_) =>
      case Stop(q) => ClosingIsLogged(env, ms, ran, q);
    }
  }

  /**
   The log of uses is the transcript and the tools' own record: the results the loop
   appends, each with its call, are those of its uses in order, and the calls that reached
   a tool are those of the uses not answered from memory, each made where the log says.
   */
  lemma {:induction false} TranscriptIsTheLog(env: Env, ev: Event, p: Progress)
    requires ProperNames(env.catalog) && p.uses == []
    ensures var q := LoopTo(env, ev, p);
            && p.turn.conv.messages <= q.turn.conv.messages
            && Exchanges(env.catalog, q.turn.conv.messages)
               == Exchanges(env.catalog, p.turn.conv.messages) + UseExchanges(q.uses)
            && q.ran == p.ran + RunsOf(q.uses)
            && InStep(|p.ran|, q.uses)
  {
    var none: seq<Use> := [];
    assert UseExchanges(none) == [] && RunsOf(none) == [];
    assert Exchanges(env.catalog, p.turn.conv.messages) + [] == Exchanges(env.catalog, p.turn.conv.messages);
    assert p.ran + [] == p.ran;
    LoopIsLogged(env, ev, p.turn.conv.messages, p.ran, p);
  }

  /** What the model hears of a server's answer. */
  function Heard(a: Answer): string {
    match a
    case Failed(e) => "error: " + e
    case Answered(text, isError, _) => if isError then "error: " + text else text
  }

  // ---------- Actions ----------

  /** The action that run, made after ran, amounts to: none for a pure read or a call that put a question. */
  function ActionOf(env: Env, ran: seq<ToolRun>, run: ToolRun): seq<Action> {
    var a := env.answer(ran, run);
    var succeeded := a.Answered? && !a.isError;
    if SaysItReads(env.catalog, run.tool) || (succeeded && a.await.Some?) then []
    else [Action(run.tool, succeeded, Heard(a))]
  }

  /** The actions of the calls after the first n. */
  function ActionsSince(env: Env, ran: seq<ToolRun>, n: nat): seq<Action> {
    if |ran| <= n then []
    else ActionsSince(env, ran[..|ran| - 1], n) + ActionOf(env, ran[..|ran| - 1], ran[|ran| - 1])
  }

  ghost predicate Truthful(env: Env, before: seq<Action>, n: nat, p: Progress) {
    n <= |p.ran| && p.turn.actions == before + ActionsSince(env, p.ran, n)
  }

  lemma {:induction false} ExecuteActs(env: Env, p: Progress, call: ToolCall)
    requires call.name in env.catalog
    ensures var q, run := ExecuteTo(env, p, call), ToolRun(call.name, call.arguments);
            q.ran == p.ran + [run] && q.turn.actions == p.turn.actions + ActionOf(env, p.ran, run)
  {
    var o := Reply(env.catalog, env.answer, p.ran, ToolRun(call.name, call.arguments));
    assert Absorb(p.turn, call.name, o).actions == p.turn.actions;
    assert p.turn.actions + [] == p.turn.actions;
  }

  lemma {:induction false} UseIsTruthful(env: Env, before: seq<Action>, n: nat, p: Progress, call: ToolCall)
    requires Truthful(env, before, n, p) && call.name in env.catalog
    ensures Truthful(env, before, n, UseTo(env, p, call))
  {
    if Key(env, call) !in p.seen {
      var run := ToolRun(call.name, call.arguments);
      ExecuteActs(env, p, call);
      assert (p.ran + [run])[..|p.ran|] == p.ran;
      Regrouped(before, ActionsSince(env, p.ran, n), ActionOf(env, p.ran, run));
    }
  }

  lemma {:induction false} DecisionIsTruthful(env: Env, ev: Event, before: seq<Action>, n: nat, p: Progress, d: Proposal)
    requires Truthful(env, before, n, p)
    requires d.Proposed? ==> d.call.name in env.catalog || d.call.name == REPLY || d.call.name == PLAN
    ensures Truthful(env, before, n, OnDecision(env, ev, p, d).p)
  {
    if d.Proposed? && d.call.name in env.catalog {
      UseIsTruthful(env, before, n, p.(turn := Append(p.turn, CallMessage(d.call))), d.call);
    }
  }

  lemma {:induction false} StepIsTruthful(env: Env, ev: Event, before: seq<Action>, n: nat, p: Progress)
    requires Truthful(env, before, n, p)
    ensures Truthful(env, before, n, Step(env, ev, p).p)
  {
    if StalledBy(env, p).None? {
      DecisionIsTruthful(env, ev, before, n, Asking(p), Choice(env, p));
    }
  }

  lemma {:induction false} LoopIsTruthful(env: Env, ev: Event, before: seq<Action>, n: nat, p: Progress)
    requires ProperNames(env.catalog) && Truthful(env, before, n, p)
    ensures Truthful(env, before, n, LoopTo(env, ev, p))
    decreases Fuel(p)
  {
    StepIsTruthful(env, ev, before, n, p);
    if Step(env, ev, p).Again? {
      FuelRunsDown(env, ev, p);
      LoopIsTruthful(env, ev, before, n, Step(env, ev, p).p);
    }
  }

  /**
   The loop's actions are the effects it had: one for each call that reached a tool, is not
   a pure read and put no question, in order, each with what that call returned.
   */
  lemma {:induction false} ActionsAreTheEffects(env: Env, ev: Event, p: Progress)
    requires ProperNames(env.catalog)
    ensures var q := LoopTo(env, ev, p);
            |p.ran| <= |q.ran| && q.turn.actions == p.turn.actions + ActionsSince(env, q.ran, |p.ran|)
  {
    assert p.turn.actions + [] == p.turn.actions;
    LoopIsTruthful(env, ev, p.turn.actions, |p.ran|, p);
  }
}
