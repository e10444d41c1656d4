/**
 What the model is told and what is kept of it (internal/agent/loop.go,
 internal/agent/turn.go): every prompt of a turn tells the whole story so far, from the
 history and the user's words on, and what a turn saves is those words and the calls made
 since with their results, without anything the harness said.
 */
module LoopStory {
  import opened Wrappers
  import opened Events
  import opened TaskQueue
  import opened Approval
  import opened Chat
  import opened Host
  import opened Turns
  import opened LoopSpec
  import opened LoopRecord
  import opened LoopPairing
  import LoopBounds

  // ---------- Prompts only grow ----------

  lemma {:induction false} UseExtends(env: Env, p: Progress, call: ToolCall)
    ensures p.turn.conv.messages <= UseTo(env, p, call).turn.conv.messages
  {
    var note := UseSays(env, p, call);
  }

  lemma {:induction false} DecisionExtends(env: Env, ev: Event, p: Progress, d: Proposal)
    ensures p.turn.conv.messages <= OnDecision(env, ev, p, d).p.turn.conv.messages
  {
    if d.Proposed? {
      UseExtends(env, p.(turn := Append(p.turn, CallMessage(d.call))), d.call);
    }
  }

  /** Each prompt after the first n continues those before it, starts with base, and stays in the conversation. */
  ghost predicate Continues(base: seq<Message>, n: nat, p: Progress) {
    && n <= |p.prompts| && base <= p.turn.conv.messages
    && (forall i :: n <= i < |p.prompts| ==> base <= p.prompts[i] <= p.turn.conv.messages)
    && (forall i, j :: n <= i < j < |p.prompts| ==> p.prompts[i] <= p.prompts[j])
  }

  lemma {:induction false} PromptContinues(base: seq<Message>, n: nat, p: Progress, q: Progress)
    requires Continues(base, n, p) && q.prompts == p.prompts + [p.turn.conv.messages]
    requires p.turn.conv.messages <= q.turn.conv.messages
    ensures Continues(base, n, q)
  {
    forall i | n <= i < |q.prompts| ensures base <= q.prompts[i] <= q.turn.conv.messages {
      assert i < |p.prompts| ==> q.prompts[i] == p.prompts[i];
    }
    forall i, j | n <= i < j < |q.prompts| ensures q.prompts[i] <= q.prompts[j] {
      assert q.prompts[i] == p.prompts[i];
    }
  }

  lemma {:induction false} ClosingContinues(env: Env, base: seq<Message>, n: nat, p: Progress)
    requires Continues(base, n, p)
    ensures Continues(base, n, ClosingTo(env, p))
  {
    var q := p.(turn := AppendHarness(p.turn, env.texts.budgetNudge));
    PromptContinues(base, n, q, ClosingTo(env, p));
  }

  lemma {:induction false} StepContinues(env: Env, ev: Event, base: seq<Message>, n: nat, p: Progress)
    requires Continues(base, n, p)
    ensures Continues(base, n, Step(env, ev, p).p) && p.prompts <= Step(env, ev, p).p.prompts
  {
    if StalledBy(env, p).None? {
      DecisionExtends(env, ev, Asking(p), Choice(env, p));
      LoopBounds.DecisionAsksNothing(env, ev, Asking(p), Choice(env, p));
      PromptContinues(base, n, p, Step(env, ev, p).p);
    }
  }

  lemma {:induction false} LoopContinues(env: Env, ev: Event, base: seq<Message>, n: nat, p: Progress)
    requires ProperNames(env.catalog) && Continues(base, n, p)
    ensures Continues(base, n, LoopTo(env, ev, p)) && p.prompts <= LoopTo(env, ev, p).prompts
    decreases Fuel(p)
  {
    StepContinues(env, ev, base, n, p);
    match Step(env, ev, p) {
      case Again(q) =>
        FuelRunsDown(env, ev, p);
        LoopContinues(env, ev, base, n, q);
      case Over(_) =>
      case Stop(q) => ClosingContinues(env, base, n, q);
    }
  }

  // ---------- What a turn opens with ----------

  /** The user's words as messages of their own; an answer comes after the request and the question it answers. */
  ghost predicate UsersWords(t: Task, ms: seq<Message>) {
    match t.resume
    case None => ms == [Say(User, t.event.content)]
    case Some(r) => ms == [Say(User, r.request), Say(Assistant, r.question), Say(User, t.event.content)]
  }

  /**
   What became of the call that waited for the answer: the call, and the result of running it
   if the user said yes, with a note of the harness's at most, or that it was not approved.
   */
  ghost predicate Resolution(env: Env, t: Task, ran: seq<ToolRun>, ms: seq<Message>) {
    if t.resume.Some? && t.resume.value.pending.Some? then
      var pc := t.resume.value.pending.value;
      var call := ToolCall(pc.id, pc.tool, pc.arguments);
      var content := if Approved(t.event.content)
                     then ContentOf(Reply(env.catalog, env.answer, ran, ToolRun(pc.tool, pc.arguments)))
                     else env.texts.notApproved;
      && 2 <= |ms| <= (if Approved(t.event.content) then 3 else 2)
      && ms[0] == CallMessage(call) && ms[1] == ResultMessage(call, content)
      && (|ms| == 3 ==> ms[2] == Say(User, env.texts.verbatimNote))
    else ms == []
  }

  lemma {:induction false} ExecuteNotes(env: Env, p: Progress, call: ToolCall) returns (note: seq<Message>)
    ensures var content := ContentOf(Reply(env.catalog, env.answer, p.ran, ToolRun(call.name, call.arguments)));
            ExecuteTo(env, p, call).turn.conv.messages == p.turn.conv.messages + [ResultMessage(call, content)] + note
    ensures note == [] || note == [Say(User, env.texts.verbatimNote)]
  {
    var o := Reply(env.catalog, env.answer, p.ran, ToolRun(call.name, call.arguments));
    var told := p.turn.conv.messages + [ResultMessage(call, ContentOf(o))];
    AbsorbKeepsConversation(p.turn, call.name, o);
    note := if Renders(o) && env.texts.verbatimNote != "" then [Say(User, env.texts.verbatimNote)] else [];
    assert told + [] == told;
  }

  /** What resolving the waiting call says. */
  lemma {:induction false} ResolveSays(env: Env, t: Task, p: Progress, pc: PendingCall) returns (resolved: seq<Message>)
    requires t.resume.Some? && t.resume.value.pending == Some(pc)
    ensures Resolution(env, t, p.ran, resolved)
    ensures ResolveTo(env, t.event, p, pc).turn.conv.messages == p.turn.conv.messages + resolved
  {
    var call := PendingAsCall(pc);
    if Approved(t.event.content) {
      var r := p.(turn := Append(p.turn, CallMessage(call)), seen := map[], repeat := NO_REPEATS);
      var note := ExecuteNotes(env, r, call);
      var content := ContentOf(Reply(env.catalog, env.answer, p.ran, ToolRun(call.name, call.arguments)));
      resolved := [CallMessage(call), ResultMessage(call, content)] + note;
    } else {
      resolved := [CallMessage(call), ResultMessage(call, env.texts.notApproved)];
    }
  }

  lemma {:induction false} BeginSays(env: Env, t: Task, p: Progress) returns (words: seq<Message>, resolved: seq<Message>)
    ensures UsersWords(t, words) && Resolution(env, t, p.ran, resolved)
    ensures Begin(env, t, p).turn.conv.messages == p.turn.conv.messages + words + resolved
  {
    words, resolved := RequestMessages(t), [];
    var q := p.(turn := AppendAll(p.turn, words));
    if t.resume.Some? && t.resume.value.pending.Some? {
      resolved := ResolveSays(env, t, q, t.resume.value.pending.value);
    } else {
      assert p.turn.conv.messages + words + [] == p.turn.conv.messages + words;
    }
  }

  lemma {:induction false} FirstPrompt(env: Env, ev: Event, p: Progress)
    requires ProperNames(env.catalog)
    ensures |LoopTo(env, ev, p).prompts| > |p.prompts|
    ensures LoopTo(env, ev, p).prompts[|p.prompts|]
         == p.turn.conv.messages + if StalledBy(env, p).Some? then [Say(User, env.texts.budgetNudge)] else []
  {
    var f := Step(env, ev, p);
    if StalledBy(env, p).None? {
      LoopBounds.DecisionAsksNothing(env, ev, Asking(p), Choice(env, p));
      if f.Again? {
        FuelRunsDown(env, ev, p);
        LoopContinues(env, ev, [], |f.p.prompts|, f.p);
      }
      assert p.turn.conv.messages + [] == p.turn.conv.messages;
    }
  }

  /**
   Every prompt of a turn starts with everything said before the turn, then the user's words,
   what became of a call that waited for them, and the directive, in this order and whole.
   The first prompt is exactly that, unless there is no room or time left even for it; and
   each later one continues the one before.
   */
  lemma {:induction false} PromptsTellTheStory(env: Env, t: Task, p: Progress)
      returns (words: seq<Message>, resolved: seq<Message>)
    requires ProperNames(env.catalog)
    ensures UsersWords(t, words) && Resolution(env, t, p.ran, resolved)
    ensures var q := HandleTo(env, t, p);
            && p.prompts <= q.prompts
            && p.turn.conv.messages + words + resolved <= q.turn.conv.messages
            && (env.directive.Some? <==> |q.prompts| > |p.prompts|)
            && (env.directive.Some? ==>
                  var opening := p.turn.conv.messages + words + resolved + [Say(User, env.directive.value)];
                  && (q.prompts[|p.prompts|] == opening || q.prompts[|p.prompts|] == opening + [Say(User, env.texts.budgetNudge)])
                  && (forall i :: |p.prompts| <= i < |q.prompts| ==> opening <= q.prompts[i] <= q.turn.conv.messages))
            && (forall i, j :: |p.prompts| <= i < j < |q.prompts| ==> q.prompts[i] <= q.prompts[j])
  {
    words, resolved := BeginSays(env, t, p);
    LoopBounds.BeginAsksNothing(env, t, p);
    if env.directive.Some? {
      var start := Ready(env, Begin(env, t, p), env.directive.value);
      FirstPrompt(env, t.event, start);
      LoopContinues(env, t.event, start.turn.conv.messages, |p.prompts|, start);
      assert start.turn.conv.messages + [] == start.turn.conv.messages;
    }
  }

  // ---------- What a turn keeps ----------

  /** This turn's messages without the harness's and without a call to reply. */
  function KeptOf(c: Transcript): seq<Message> {
    DropReplyCalls(TurnMessages(c))
  }

  /** Marks are positions in the list, and the turn starts in it. */
  ghost predicate Marked(c: Transcript) {
    c.turnStart <= |c.messages| && forall i :: i in c.harness ==> i < |c.messages|
  }

  function Told(xs: seq<Exchanged>): seq<Message> {
    if xs == [] then []
    else Told(xs[..|xs| - 1]) + [CallMessage(xs[|xs| - 1].call), ResultMessage(xs[|xs| - 1].call, xs[|xs| - 1].content)]
  }

  /** The exchanges with tools the loop runs without asking. */
  function FreePart(catalog: Catalog, xs: seq<Exchanged>): seq<Exchanged> {
    if xs == [] then []
    else FreePart(catalog, xs[..|xs| - 1]) + if Free(catalog, xs[|xs| - 1].call.name) then [xs[|xs| - 1]] else []
  }

  lemma {:induction false} DropJoin(a: seq<Message>, b: seq<Message>)
    ensures DropReplyCalls(a + b) == DropReplyCalls(a) + DropReplyCalls(b)
  {
    if a == [] {
      assert a + b == b;
    } else {
      DropJoin(a[1..], b);
      assert (a + b)[1..] == a[1..] + b;
      Regrouped(if IsReplyCall(a[0]) then [] else [a[0]], DropReplyCalls(a[1..]), DropReplyCalls(b));
    }
  }

  lemma {:induction false} DropOne(m: Message)
    ensures DropReplyCalls([m]) == if IsReplyCall(m) then [] else [m]
  {
    assert [m][1..] == [];
  }

  lemma {:induction false} MarkingTheEnd(ms: seq<Message>, harness: set<nat>, i: nat)
    ensures VisibleFrom(ms, harness + {|ms|}, i) == VisibleFrom(ms, harness, i)
    decreases |ms| - i
  {
    if i < |ms| {
      MarkingTheEnd(ms, harness, i + 1);
    }
  }

  /** A message is kept; the harness's are not. */
  lemma {:induction false} KeptSnoc(c: Transcript, m: Message)
    requires Marked(c)
    ensures Marked(With(c, m)) && KeptOf(With(c, m)) == KeptOf(c) + if IsReplyCall(m) then [] else [m]
    ensures Marked(WithHarness(c, m)) && KeptOf(WithHarness(c, m)) == KeptOf(c)
  {
    VisibleJoin(c.messages, m, c.harness, c.turnStart);
    assert |c.messages| !in c.harness;
    DropJoin(TurnMessages(c), [m]);
    DropOne(m);
    VisibleJoin(c.messages, m, c.harness + {|c.messages|}, c.turnStart);
    MarkingTheEnd(c.messages, c.harness, c.turnStart);
    assert TurnMessages(c) + [] == TurnMessages(c) && KeptOf(c) + [] == KeptOf(c);
  }

  lemma {:induction false} KeptExchange(c: Transcript, call: ToolCall, content: string)
    requires Marked(c) && call.name != REPLY
    ensures var d := With(With(c, CallMessage(call)), ResultMessage(call, content));
            Marked(d) && KeptOf(d) == KeptOf(c) + [CallMessage(call), ResultMessage(call, content)]
  {
    KeptSnoc(c, CallMessage(call));
    KeptSnoc(With(c, CallMessage(call)), ResultMessage(call, content));
    assert [CallMessage(call)] + [ResultMessage(call, content)] == [CallMessage(call), ResultMessage(call, content)];
    Regrouped(KeptOf(c), [CallMessage(call)], [ResultMessage(call, content)]);
  }

  lemma {:induction false} KeptUse(env: Env, p: Progress, c: Transcript, call: ToolCall)
    requires Marked(c) && call.name != REPLY && p.turn.conv == With(c, CallMessage(call))
    ensures var q := UseTo(env, p, call);
            && Marked(q.turn.conv)
            && KeptOf(q.turn.conv) == KeptOf(c) + [CallMessage(call), ResultMessage(call, UseOf(env, p, call).content)]
  {
    var content, note := UseAppends(env, p, call);
    var told := UseSays(env, p, call);
    var q := UseTo(env, p, call);
    assert q.turn.conv.messages[|p.turn.conv.messages|] == ResultMessage(call, content)
        == ResultMessage(call, UseOf(env, p, call).content);
    KeptExchange(c, call, content);
    if note.Some? {
      KeptSnoc(With(p.turn.conv, ResultMessage(call, content)), Say(User, note.value));
    }
  }

  /** q keeps what p does, then xs, of which those with free tools are its further uses. */
  ghost predicate Adds(env: Env, p: Progress, q: Progress, xs: seq<Exchanged>) {
    && Marked(q.turn.conv)
    && KeptOf(q.turn.conv) == KeptOf(p.turn.conv) + Told(xs)
    && UseExchanges(q.uses) == UseExchanges(p.uses) + FreePart(env.catalog, xs)
  }

  lemma {:induction false} AddsNothing(env: Env, p: Progress, q: Progress)
    requires Marked(q.turn.conv) && KeptOf(q.turn.conv) == KeptOf(p.turn.conv) && q.uses == p.uses
    ensures Adds(env, p, q, [])
  {
    assert KeptOf(p.turn.conv) + [] == KeptOf(p.turn.conv) && UseExchanges(p.uses) + [] == UseExchanges(p.uses);
  }

  lemma {:induction false} ToldOne(x: Exchanged)
    ensures Told([x]) == [CallMessage(x.call), ResultMessage(x.call, x.content)]
    ensures forall catalog :: FreePart(catalog, [x]) == if Free(catalog, x.call.name) then [x] else []
  {
    assert [x][..0] == [];
  }

  lemma {:induction false} ToldJoin(catalog: Catalog, xs: seq<Exchanged>, ys: seq<Exchanged>)
    ensures Told(xs + ys) == Told(xs) + Told(ys)
    ensures FreePart(catalog, xs + ys) == FreePart(catalog, xs) + FreePart(catalog, ys)
  {
    if ys == [] {
      assert xs + ys == xs;
    } else {
      var front, last := ys[..|ys| - 1], ys[|ys| - 1];
      ToldJoin(catalog, xs, front);
      assert (xs + ys)[..|xs + ys| - 1] == xs + front;
      Regrouped(Told(xs), Told(front), [CallMessage(last.call), ResultMessage(last.call, last.content)]);
      Regrouped(FreePart(catalog, xs), FreePart(catalog, front), if Free(catalog, last.call.name) then [last] else []);
    }
  }

  lemma {:induction false} AddsOn(env: Env, p: Progress, q: Progress, r: Progress, xs: seq<Exchanged>, ys: seq<Exchanged>)
    requires Adds(env, p, q, xs) && Adds(env, q, r, ys)
    ensures Adds(env, p, r, xs + ys)
  {
    ToldJoin(env.catalog, xs, ys);
    Regrouped(KeptOf(p.turn.conv), Told(xs), Told(ys));
    Regrouped(UseExchanges(p.uses), FreePart(env.catalog, xs), FreePart(env.catalog, ys));
  }

  lemma {:induction false} UseAdds(env: Env, p: Progress, call: ToolCall)
    requires Marked(p.turn.conv) && Free(env.catalog, call.name) && call.name != REPLY
    ensures Adds(env, p, UseTo(env, p.(turn := Append(p.turn, CallMessage(call))), call),
                 [Exchanged(call, UseOf(env, p, call).content)])
  {
    var r := p.(turn := Append(p.turn, CallMessage(call)));
    assert UseOf(env, r, call) == UseOf(env, p, call);
    ToldOne(Exchanged(call, UseOf(env, p, call).content));
    KeptUse(env, r, p.turn.conv, call);
    UseKeepsLogOf(env, r, call);
  }

  lemma {:induction false} UseKeepsLogOf(env: Env, p: Progress, call: ToolCall)
    requires call.name in env.catalog
    ensures UseExchanges(UseTo(env, p, call).uses)
         == UseExchanges(p.uses) + [Exchanged(call, UseOf(env, p, call).content)]
  {
    UseKeepsLog(env, p, call);
    assert UseExchanges(p.uses + [UseOf(env, p, call)])
        == UseExchanges(p.uses) + [Exchanged(call, UseOf(env, p, call).content)];
  }

  /** A call that is answered without being used: a plan, or one that needs approval. */
  lemma {:induction false} AnswerAdds(env: Env, p: Progress, q: Progress, call: ToolCall, content: string)
    requires Marked(p.turn.conv) && !Free(env.catalog, call.name) && call.name != REPLY && q.uses == p.uses
    requires q.turn.conv == With(With(p.turn.conv, CallMessage(call)), ResultMessage(call, content))
    ensures Adds(env, p, q, [Exchanged(call, content)])
  {
    ToldOne(Exchanged(call, content));
    KeptExchange(p.turn.conv, call, content);
    assert UseExchanges(p.uses) + [] == UseExchanges(p.uses);
  }

  lemma {:induction false} ActAdds(env: Env, ev: Event, p: Progress, call: ToolCall) returns (xs: seq<Exchanged>)
    requires ProperNames(env.catalog) && Marked(p.turn.conv)
    requires call.name in env.catalog || call.name == REPLY || call.name == PLAN
    ensures Adds(env, p, Act(env, ev, p, call).p, xs)
  {
    var q := Act(env, ev, p, call).p;
    if call.name == REPLY {
      KeptSnoc(p.turn.conv, CallMessage(call));
      assert KeptOf(p.turn.conv) + [] == KeptOf(p.turn.conv);
      AddsNothing(env, p, q);
      xs := [];
    } else if Free(env.catalog, call.name) {
      UseAdds(env, p, call);
      xs := [Exchanged(call, UseOf(env, p, call).content)];
    } else {
      var content := q.turn.conv.messages[|p.turn.conv.messages| + 1].content;
      AnswerAdds(env, p, q, call, content);
      xs := [Exchanged(call, content)];
    }
  }

  lemma {:induction false} StepAdds(env: Env, ev: Event, p: Progress) returns (xs: seq<Exchanged>)
    requires ProperNames(env.catalog) && Marked(p.turn.conv)
    ensures Adds(env, p, Step(env, ev, p).p, xs)
  {
    xs := [];
    var q := Step(env, ev, p).p;
    if StalledBy(env, p).Some? {
      AddsNothing(env, p, q);
    } else {
      match Choice(env, p) {
        case Garbled =>
          KeptSnoc(p.turn.conv, Say(User, env.texts.invalidNudge));
          AddsNothing(env, p, q);
        case Broken(_, _) => AddsNothing(env, p, q);
        case Proposed(call) => xs := ActAdds(env, ev, Asking(p), call);
      }
    }
  }

  lemma {:induction false} LoopAdds(env: Env, ev: Event, p: Progress) returns (xs: seq<Exchanged>)
    requires ProperNames(env.catalog) && Marked(p.turn.conv)
    ensures Adds(env, p, LoopTo(env, ev, p), xs)
    decreases Fuel(p)
  {
    xs := StepAdds(env, ev, p);
    match Step(env, ev, p) {
      case Again(q) =>
        FuelRunsDown(env, ev, p);
        var ys := LoopAdds(env, ev, q);
        AddsOn(env, p, q, LoopTo(env, ev, q), xs, ys);
        xs := xs + ys;
      case Over(_) =>
      case Stop(q) =>
        KeptSnoc(q.turn.conv, Say(User, env.texts.budgetNudge));
        AddsNothing(env, q, ClosingTo(env, q));
        AddsOn(env, p, q, ClosingTo(env, q), xs, []);
        xs := xs + [];
    }
  }

  lemma {:induction false} WordsAreKept(c: Transcript, words: seq<Message>)
    requires Marked(c) && forall m :: m in words ==> !IsReplyCall(m)
    ensures var d := c.(messages := c.messages + words); Marked(d) && KeptOf(d) == KeptOf(c) + words
    decreases |words|
  {
    if words == [] {
      assert c.messages + words == c.messages && KeptOf(c) + [] == KeptOf(c);
    } else {
      var front, last := words[..|words| - 1], words[|words| - 1];
      assert words == front + [last];
      WordsAreKept(c, front);
      KeptSnoc(c.(messages := c.messages + front), last);
      Regrouped(c.messages, front, [last]);
      Regrouped(KeptOf(c), front, [last]);
    }
  }

  /** What the waiting call adds: nothing, or itself with its result or the refusal. */
  ghost predicate Resolved(env: Env, t: Task, ran: seq<ToolRun>, xs: seq<Exchanged>) {
    if t.resume.Some? && t.resume.value.pending.Some? then
      var pc := t.resume.value.pending.value;
      xs == [Exchanged(ToolCall(pc.id, pc.tool, pc.arguments),
                       if Approved(t.event.content)
                       then ContentOf(Reply(env.catalog, env.answer, ran, ToolRun(pc.tool, pc.arguments)))
                       else env.texts.notApproved)]
    else xs == []
  }

  lemma {:induction false} BeginKeeps(env: Env, t: Task, p: Progress) returns (words: seq<Message>, xs: seq<Exchanged>)
    requires Marked(p.turn.conv) && ResumesAToolCall(t)
    ensures UsersWords(t, words) && Resolved(env, t, p.ran, xs)
    ensures var c := Begin(env, t, p).turn.conv; Marked(c) && KeptOf(c) == KeptOf(p.turn.conv) + words + Told(xs)
  {
    words, xs := RequestMessages(t), [];
    WordsAreKept(p.turn.conv, words);
    var q := p.(turn := AppendAll(p.turn, words));
    if t.resume.Some? && t.resume.value.pending.Some? {
      var call := PendingAsCall(t.resume.value.pending.value);
      var r := q.(turn := Append(q.turn, CallMessage(call)), seen := map[], repeat := NO_REPEATS);
      var content := if Approved(t.event.content) then UseOf(env, r, call).content else env.texts.notApproved;
      KeptUse(env, r, q.turn.conv, call);
      KeptExchange(q.turn.conv, call, env.texts.notApproved);
      xs := [Exchanged(call, content)];
      ToldOne(xs[0]);
    } else {
      assert KeptOf(p.turn.conv) + words + [] == KeptOf(p.turn.conv) + words;
    }
  }

  lemma {:induction false} LoopKeeps(env: Env, ev: Event, b: Progress, directive: string) returns (made: seq<Exchanged>)
    requires ProperNames(env.catalog) && Marked(b.turn.conv) && b.uses == []
    ensures var q := LoopTo(env, ev, Ready(env, b, directive));
            && KeptOf(q.turn.conv) == KeptOf(b.turn.conv) + Told(made)
            && UseExchanges(q.uses) == FreePart(env.catalog, made)
  {
    var start := Ready(env, b, directive);
    KeptSnoc(b.turn.conv, Say(User, directive));
    made := LoopAdds(env, ev, start);
    assert UseExchanges(start.uses) == [] && [] + FreePart(env.catalog, made) == FreePart(env.catalog, made);
  }

  lemma {:induction false} NothingKeptYet(systemPrompt: string, history: seq<Message>)
    ensures Marked(Opening(systemPrompt, history)) && KeptOf(Opening(systemPrompt, history)) == []
  {
  }

  /**
   What a turn saves: the user's words, the call that waited for them with what became of
   it, each call the model made since with the result it was shown, in order, and the reply.
   Nothing the harness said is in it, and of its calls those to free tools are the turn's uses.
   */
  lemma {:induction false} SavedIsTheStory(
      env: Env, t: Task, p: Progress, systemPrompt: string, history: seq<Message>, reply: string)
      returns (words: seq<Message>, resolved: seq<Exchanged>, made: seq<Exchanged>)
    requires ProperNames(env.catalog) && ResumesAToolCall(t)
    requires p.turn.conv == Opening(systemPrompt, history) && p.uses == []
    ensures UsersWords(t, words) && Resolved(env, t, p.ran, resolved)
    ensures var q := HandleTo(env, t, p);
            && SavedMessages(q.turn.conv, reply)
               == words + Told(resolved) + Told(made) + [Say(Assistant, if reply == "" then "(no reply was sent)" else reply)]
            && UseExchanges(q.uses) == FreePart(env.catalog, made)
  {
    NothingKeptYet(systemPrompt, history);
    words, resolved := BeginKeeps(env, t, p);
    made := [];
    var b := Begin(env, t, p);
    assert [] + words == words && b.uses == [];
    if env.directive.Some? {
      made := LoopKeeps(env, t.event, b, env.directive.value);
    } else {
      assert words + Told(resolved) + [] == words + Told(resolved);
    }
  }
}
