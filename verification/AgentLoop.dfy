/**
 The tool-calling loop itself (internal/agent/loop.go): it changes the turn, the
 conversation, the repeat state and the tool host in place, and each method is proved
 to do what LoopSpec says.
 */
module AgentLoop {
  import opened Wrappers
  import opened Events
  import opened TaskQueue
  import opened Approval
  import opened Chat
  import opened Host
  import opened Turns
  import opened LoopSpec

  class RepeatState {
    var suppressed: map<string, nat>
    var closed: set<string>
    var results: set<string>
    var stale: nat
    ghost var uses: seq<Use> // what became of every use this turn

    ghost function View(): Repeat
      reads this
    {
      Repeat(suppressed, closed, results, stale)
    }

    constructor ()
      ensures View() == NO_REPEATS && uses == []
    {
      suppressed, closed, results, stale, uses := map[], {}, {}, 0, [];
    }

    /** isNew exactly if no earlier result of the turn was content. */
    method SawResult(content: string) returns (isNew: bool)
      modifies this`results, this`stale
      ensures isNew == (content !in old(results))
      ensures View() == LoopSpec.SawResult(old(View()), content)
    {
      if content in results {
        stale := stale + 1;
        return false;
      }
      results := results + {content};
      stale := 0;
      isNew := true;
    }
  }

  class Model {
    const env: Env
    var calls: nat
    ghost var prompts: seq<seq<Message>> // every prompt it was given

    ghost predicate Valid()
      reads this
    {
      calls == |prompts|
    }

    constructor (env: Env)
      ensures this.env == env && prompts == [] && Valid()
    {
      this.env, calls, prompts := env, 0, [];
    }

    method Decide(messages: seq<Message>, offered: set<string>) returns (d: Proposal)
      requires Valid()
      modifies this
      ensures Valid() && prompts == old(prompts) + [messages]
      ensures d == Decided(env, |old(prompts)|, messages, offered)
    {
      d := env.propose(calls, messages, offered);
      calls := calls + 1;
      prompts := prompts + [messages];
      match d {
        case Proposed(call) =>
          if call.name !in offered {
            d := Garbled;
          }
        case _ =>
      }
    }
  }

  class Loop {
    const env: Env
    const host: ToolHost
    const model: Model

    constructor (env: Env, host: ToolHost, model: Model)
      ensures this.env == env && this.host == host && this.model == model
    {
      this.env, this.host, this.model := env, host, model;
    }

    ghost predicate Wired()
      reads model
    {
      && host.catalog == env.catalog && host.answer == env.answer
      && model.env == env && model.Valid()
      && ProperNames(env.catalog)
    }

    /** Everything the loop has changed so far, as one value. */
    ghost function Now(t: Turn, seen: map<string, string>, st: RepeatState, invalid: nat, failures: nat): Progress
      reads t, t.conversation, host, model, st
    {
      Progress(t.View(), host.ran, seen, st.View(), st.uses, model.prompts, invalid, failures)
    }

    /** The same at the start of a turn. */
    ghost function Entry(t: Turn): Progress
      reads t, t.conversation, host, model
    {
      Progress(t.View(), host.ran, map[], NO_REPEATS, [], model.prompts, 0, 0)
    }

    /** Answers a call from memory if its key is there, and otherwise makes it. */
    method Use(t: Turn, call: ToolCall, seen: map<string, string>, st: RepeatState, ghost invalid: nat, ghost failures: nat)
      returns (seen': map<string, string>)
      requires Wired()
      modifies t, t.conversation, host, st
      ensures Now(t, seen', st, invalid, failures) == UseTo(env, old(Now(t, seen, st, invalid, failures)), call)
    {
      var name := call.name;
      var key := Key(env, call);
      if key in seen {
        Repeat(t, call, seen[key], st, seen, invalid, failures);
        return seen;
      }
      seen' := Execute(t, call, key, seen, st, invalid, failures);
    }

    method Repeat(t: Turn, call: ToolCall, prev: string, st: RepeatState,
                  ghost seen: map<string, string>, ghost invalid: nat, ghost failures: nat)
      requires Wired()
      modifies t, t.conversation, st
      ensures Now(t, seen, st, invalid, failures) == RepeatTo(env, old(Now(t, seen, st, invalid, failures)), call, prev)
    {
      ghost var p := Now(t, seen, st, invalid, failures);
      ghost var q := RepeatTo(env, p, call, prev);
      var name := call.name;
      var note := env.texts.repeatNote;
      st.suppressed := st.suppressed[name := CountOf(st.suppressed, name) + 1];
      var detail := CalledTwice(name);
      if st.suppressed[name] >= MAX_SUPPRESSED {
        st.closed := st.closed + {name};
        note := env.texts.closedNote(name);
        detail := KeptCalling(name, st.suppressed[name] + 1);
      }
      st.stale := st.stale + 1;
      st.uses := st.uses + [LoopSpec.Use(|host.ran|, call, prev, false, false)];
      assert st.View() == q.repeat && st.uses == q.uses;
      GiveAgain(t, call, prev, detail, note);
      assert t.View() == q.turn;
    }

    method GiveAgain(t: Turn, call: ToolCall, prev: string, detail: Detail, note: string)
      modifies t, t.conversation
      ensures t.View() == AppendHarness(Append(Reported(old(t.View()), Repeated, call.name, detail, true),
                                               ResultMessage(call, prev)), note)
    {
      t.AddRecovered(Repeated, call.name, detail);
      t.conversation.Append(ResultMessage(call, prev));
      t.conversation.AppendHarness(Say(User, note));
    }

    method Execute(t: Turn, call: ToolCall, key: string, seen: map<string, string>, st: RepeatState,
                   ghost invalid: nat, ghost failures: nat) returns (seen': map<string, string>)
      requires Wired() && key == Key(env, call)
      modifies t, t.conversation, host, st
      ensures Now(t, seen', st, invalid, failures) == ExecuteTo(env, old(Now(t, seen, st, invalid, failures)), call)
    {
      ghost var p := Now(t, seen, st, invalid, failures);
      ghost var q := ExecuteTo(env, p, call);
      var name := call.name;
      var o := host.Run(ToolRun(name, call.arguments));
      var content := ContentOf(o);
      var isNew := Record(t, call, o, content, st);
      st.uses := st.uses + [LoopSpec.Use(|p.ran|, call, content, true, isNew)];
      assert host.ran == q.ran && st.uses == q.uses;
      if SaysItReads(env.catalog, name) {
        assert t.View() == q.turn && st.View() == q.repeat;
        return seen[key := content];
      }
      seen' := map[];
      st.suppressed := map[];
      assert st.View() == q.repeat;
      if !Awaits(o) {
        t.actions := t.actions + [Action(name, Succeeded(o), content)];
      }
      assert t.View() == q.turn;
    }

    /** What a result does to the turn and to the repeat state, whatever the tool's category. */
    method Record(t: Turn, call: ToolCall, o: Outcome, content: string, st: RepeatState) returns (isNew: bool)
      modifies t, t.conversation, st
      ensures isNew == (content !in old(st.results)) && st.uses == old(st.uses)
      ensures st.View() == LoopSpec.SawResult(
                old(st.View()).(closed := old(st.closed) + if Renders(o) then VerbatimTools(env.catalog) else {}), content)
      ensures var answered := Append(Absorb(old(t.View()), call.name, o), ResultMessage(call, content));
              t.View() == if Renders(o) && env.texts.verbatimNote != "" then AppendHarness(answered, env.texts.verbatimNote)
                          else answered
    {
      ghost var turn := t.View();
      var name, note := call.name, "";
      match o {
        case NoResult(e) =>
          t.AddProblem(ToolError, name, CallFailed(name, e));
        case Result(text, isError, verbatim, await) =>
          if isError {
            t.AddProblem(ToolError, name, CallFailed(name, text));
          } else if await.Some? {
            t.await := await;
          } else if verbatim {
            t.AddVerbatim(name, text);
            note := env.texts.verbatimNote;
            st.closed := st.closed + VerbatimTools(env.catalog);
          }
      }
      assert t.View() == Absorb(turn, name, o);
      assert note == if Renders(o) then env.texts.verbatimNote else "";
      isNew := st.SawResult(content);
      t.conversation.Append(ResultMessage(call, content));
      assert t.View() == Append(Absorb(turn, name, o), ResultMessage(call, content));
      if note != "" {
        t.conversation.AppendHarness(Say(User, note));
      }
    }

    method AskApproval(t: Turn, call: ToolCall)
      requires Wired()
      modifies t, t.conversation
      ensures t.View() == AskTo(env, t.task.event, old(t.View()), call)
    {
      var question := env.texts.question(call);
      var ev := t.task.event;
      ghost var turn := t.View();
      var keys := [ActorKey(ev.origin, ev.actor.id)];
      if ev.actor.person != "" {
        keys := keys + [PersonKey(ev.actor.person)];
      }
      assert keys == AskKeys(ev);
      match env.send(question) {
        case NotSent =>
          t.conversation.Append(ResultMessage(call, env.texts.notAsked));
          return;
        case Delivered(id) =>
          if id != "" {
            keys := [ReplyKey(ev.origin, id)] + keys;
          }
      }
      t.conversation.Append(ResultMessage(call, env.texts.waiting));
      assert t.View() == Append(turn, ResultMessage(call, env.texts.waiting));
      assert [] + AskKeys(ev) == AskKeys(ev);
      t.await := Some(Await(question, keys));
      t.pending := Some(PendingCall(call.id, call.name, call.arguments));
    }

    method ResolveApproval(t: Turn, pc: PendingCall)
      requires Wired()
      modifies t, t.conversation, host
      ensures Entry(t) == ResolveTo(env, t.task.event, old(Entry(t)), pc)
    {
      var call := PendingAsCall(pc);
      t.conversation.Append(CallMessage(call));
      if !Approved(t.task.event.content) {
        t.conversation.Append(ResultMessage(call, env.texts.notApproved));
        t.actions := t.actions + [Action(pc.tool, false, env.texts.notRun)];
        t.AddProblem(Declined, pc.tool, NotApproved(pc.tool));
        return;
      }
      var st := new RepeatState();
      var _ := Use(t, call, map[], st, 0, 0);
    }

    method WriteReply(t: Turn, call: ToolCall)
      modifies t
      ensures t.View() == ReplyTo(env, old(t.View()), call)
    {
      var turn := TurnView(Transcript(t.conversation.messages, t.conversation.turnStart, t.conversation.harness),
                           t.reply, t.await, t.pending, t.actions, t.problems, t.verbatim, t.steps);
      var text := env.render(call.arguments, turn);
      if text.Some? {
        t.reply := text.value;
      }
    }

    method OfferTools(closed: set<string>) returns (offered: set<string>)
      ensures offered == Offer(env, closed)
    {
      offered := {};
      var rest := env.catalog.Keys;
      while rest != {}
        invariant rest <= env.catalog.Keys
        invariant offered == env.catalog.Keys - rest - closed
      {
        var name :| name in rest;
        rest := rest - {name};
        if name !in closed {
          offered := offered + {name};
        }
      }
      offered := offered + {REPLY, PLAN};
    }

    method Stalled(t: Turn, st: RepeatState, ghost p: Progress) returns (why: Option<Detail>)
      requires Wired() && p.turn == t.View() && p.repeat == st.View() && p.prompts == model.prompts
      ensures why == StalledBy(env, p)
    {
      if st.stale >= MAX_STALE {
        return Some(NothingNew(st.stale));
      }
      var bytes := t.conversation.CountBytes();
      if bytes > MAX_BYTES {
        return Some(TooLarge);
      }
      if env.late(model.calls) {
        return Some(OutOfTime);
      }
      why := None;
    }

    method Close(t: Turn, ghost p: Progress)
      requires Wired() && t.View() == p.turn && model.prompts == p.prompts
      modifies t, t.conversation, model
      ensures Wired() && t.View() == ClosingTo(env, p).turn && model.prompts == ClosingTo(env, p).prompts
    {
      t.conversation.AppendHarness(Say(User, env.texts.budgetNudge));
      var d := model.Decide(t.conversation.messages, {REPLY});
      if d.Proposed? {
        WriteReply(t, d.call);
        return;
      }
      t.AddProblem(ModelError, "", CouldNotReply);
      t.reply := env.renderRest(
        TurnView(Transcript(t.conversation.messages, t.conversation.turnStart, t.conversation.harness),
                 t.reply, t.await, t.pending, t.actions, t.problems, t.verbatim, t.steps));
    }

    method Handle(t: Turn)
      requires Wired() && t.steps == 0
      modifies t, t.conversation, host, model
      ensures Wired()
      ensures var q := HandleTo(env, t.task, old(Entry(t)));
              t.View() == q.turn && host.ran == q.ran && model.prompts == q.prompts
    {
      ghost var start := Entry(t);
      var request := RequestMessages(t.task);
      for i := 0 to |request|
        invariant Wired() && Entry(t) == start.(turn := AppendAll(start.turn, request[..i]))
        invariant t.steps == 0
      {
        t.conversation.Append(request[i]);
        assert request[..i + 1] == request[..i] + [request[i]];
      }
      assert request[..|request|] == request;
      if t.task.resume.Some? && t.task.resume.value.pending.Some? {
        ResolveApproval(t, t.task.resume.value.pending.value);
      }
      assert Entry(t) == Begin(env, t.task, start);
      if env.directive.None? {
        return;
      }
      t.conversation.AppendHarness(Say(User, env.directive.value));
      assert Entry(t) == Ready(env, Begin(env, t.task, start), env.directive.value);
      Cycle(t);
    }

    /** Carries out a decision and says whether the turn is over. */
    method Perform(t: Turn, call: ToolCall, seen: map<string, string>, st: RepeatState,
                   ghost invalid: nat, ghost failures: nat) returns (over: bool, seen': map<string, string>)
      requires Wired()
      modifies t, t.conversation, host, st
      ensures var q := Now(t, seen', st, invalid, failures);
              Act(env, t.task.event, old(Now(t, seen, st, invalid, failures)), call) == if over then Over(q) else Again(q)
    {
      over, seen' := true, seen;
      ghost var p := Now(t, seen, st, invalid, failures);
      t.conversation.Append(CallMessage(call));
      ghost var q := p.(turn := Append(p.turn, CallMessage(call)));
      assert Now(t, seen, st, invalid, failures) == q;
      if call.name == REPLY {
        WriteReply(t, call);
        assert Now(t, seen, st, invalid, failures) == q.(turn := ReplyTo(env, q.turn, call));
      } else if call.name == PLAN {
        t.conversation.Append(ResultMessage(call, env.planAck(call.arguments)));
        over := false;
      } else if NeedsApproval(env.catalog, call.name) {
        AskApproval(t, call);
        assert Now(t, seen, st, invalid, failures) == q.(turn := AskTo(env, t.task.event, q.turn, call));
      } else {
        seen' := Use(t, call, seen, st, invalid, failures);
        over := t.await.Some?;
      }
    }

    /** Acts on what the model answered. */
    method Follow(t: Turn, d: Proposal, seen: map<string, string>, st: RepeatState, invalid: nat, failures: nat)
      returns (over: bool, seen': map<string, string>, invalid': nat, failures': nat)
      requires Wired()
      modifies t, t.conversation, host, st
      ensures var q := Now(t, seen', st, invalid', failures');
              OnDecision(env, t.task.event, old(Now(t, seen, st, invalid, failures)), d) == if over then Over(q) else Again(q)
    {
      over, seen', invalid', failures' := false, seen, invalid, failures;
      match d {
        case Garbled =>
          invalid' := invalid + 1;
          if invalid' > 1 {
            t.AddProblem(Unreadable, "", GaveUpOnCall);
            over := true;
          } else {
            t.AddRecovered(Unreadable, "", RetriedCall);
            t.conversation.AppendHarness(Say(User, env.texts.invalidNudge));
          }
        case Broken(e, ended) =>
          failures' := failures + 1;
          if failures' > 1 || ended {
            t.AddProblem(ModelError, "", CouldNotThink(e));
            over := true;
          } else {
            t.AddRecovered(ModelError, "", RetriedThinking(e));
          }
        case Proposed(call) =>
          over, seen' := Perform(t, call, seen, st, invalid, failures);
      }
    }

    /** One turn of the loop: stop if it has stalled, else ask, and act on the answer. */
    method Advance(t: Turn, seen: map<string, string>, st: RepeatState, invalid: nat, failures: nat)
      returns (over: bool, seen': map<string, string>, invalid': nat, failures': nat)
      requires Wired()
      modifies t, t.conversation, host, model, st
      ensures Wired()
      ensures match Step(env, t.task.event, old(Now(t, seen, st, invalid, failures)))
              case Again(q) => !over && Now(t, seen', st, invalid', failures') == q
              case Over(q) => over && Now(t, seen', st, invalid', failures') == q
              case Stop(q) => over && t.View() == ClosingTo(env, q).turn && host.ran == q.ran
                              && model.prompts == ClosingTo(env, q).prompts
    {
      ghost var p := Now(t, seen, st, invalid, failures);
      var why := Stalled(t, st, p);
      if why.Some? {
        t.AddProblem(ProblemKind.Stalled, "", why.value);
        t.PromoteProblems();
        Close(t, OnStalled(p, why.value));
        return true, seen, invalid, failures;
      }
      t.steps := t.steps + 1;
      var offered := OfferTools(st.closed);
      var d := model.Decide(t.conversation.messages, offered);
      assert Now(t, seen, st, invalid, failures) == Asking(p) && d == Choice(env, p);
      over, seen', invalid', failures' := Follow(t, d, seen, st, invalid, failures);
    }

    /** The loop: one decision a turn of it, until the turn is over or stalls. */
    method Cycle(t: Turn)
      requires Wired()
      modifies t, t.conversation, host, model
      ensures Wired()
      ensures var q := LoopTo(env, t.task.event, old(Entry(t)));
              t.View() == q.turn && host.ran == q.ran && model.prompts == q.prompts
    {
      ghost var target := LoopTo(env, t.task.event, Entry(t));
      var invalid, failures, over := 0, 0, false;
      var seen: map<string, string> := map[];
      var st := new RepeatState();
      while !over
        invariant Wired()
        invariant !over ==> LoopTo(env, t.task.event, Now(t, seen, st, invalid, failures)) == target
        invariant over ==> t.View() == target.turn && host.ran == target.ran && model.prompts == target.prompts
        decreases !over, Fuel(Now(t, seen, st, invalid, failures))
      {
        ghost var p := Now(t, seen, st, invalid, failures);
        if Step(env, t.task.event, p).Again? {
          FuelRunsDown(env, t.task.event, p);
        }
        over, seen, invalid, failures := Advance(t, seen, st, invalid, failures);
      }
    }
  }
}
