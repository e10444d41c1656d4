/**
 What the tool-calling loop does with a turn, step by step, as functions on values
 (internal/agent/loop.go). Everything outside the loop is in Env: the model, the
 servers, the clock, the connector, and the wording of what the harness says.
 */
module LoopSpec {
  import opened Wrappers
  import opened Events
  import opened TaskQueue
  import opened Approval
  import opened Chat
  import opened Host
  import opened Turns

  const REPLY := "reply"
  const PLAN := "plan"
  const MAX_SUPPRESSED: nat := 2
  const MAX_STALE: nat := 3
  const MAX_BYTES: nat := 192 * 1024

  // Refused repeats per tool, closed tools, every distinct result, and the uses since the last new one.
  datatype Repeat = Repeat(suppressed: map<string, nat>, closed: set<string>, results: set<string>, stale: nat)

  const NO_REPEATS: Repeat := Repeat(map[], {}, {}, 0)

  // A tool used: after how many calls, with what result, whether it was made, whether the result was new.
  datatype Use = Use(at: nat, call: ToolCall, content: string, ran: bool, isNew: bool)

  // Where a turn has got to. prompts, uses and ran are the whole story so far.
  datatype Progress = Progress(
    turn: TurnView,
    ran: seq<ToolRun>,
    seen: map<string, string>,
    repeat: Repeat,
    uses: seq<Use>,
    prompts: seq<seq<Message>>,
    invalid: nat,
    failures: nat)

  // The model's answer to a prompt; ended means the turn's context is over.
  datatype Proposal = Proposed(call: ToolCall) | Garbled | Broken(error: string, ended: bool)

  datatype Sent = NotSent | Delivered(messageId: string)

  datatype Texts = Texts(
    invalidNudge: string, budgetNudge: string, verbatimNote: string, repeatNote: string,
    closedNote: string -> string, question: ToolCall -> string,
    waiting: string, notAsked: string, notApproved: string, notRun: string)

  datatype Env = Env(
    catalog: Catalog,
    answer: (seq<ToolRun>, ToolRun) -> Answer,
    canon: string -> string,                               // canonical JSON
    propose: (nat, seq<Message>, set<string>) -> Proposal, // any model at all
    late: nat -> bool,                                     // the reserve before the deadline is reached
    send: string -> Sent,
    planAck: string -> string,
    render: (string, TurnView) -> Option<string>,          // None: the reply's arguments do not decode
    renderRest: TurnView -> string,                        // the reply code writes without the model
    directive: Option<string>,
    texts: Texts)

  // ---------- Using a tool ----------

  function Key(env: Env, call: ToolCall): string {
    call.name + "\0" + env.canon(call.arguments)
  }

  function CountOf(m: map<string, nat>, k: string): nat {
    if k in m then m[k] else 0
  }

  function SawResult(r: Repeat, content: string): Repeat {
    if content in r.results then r.(stale := r.stale + 1)
    else r.(results := r.results + {content}, stale := 0)
  }

  function Append(turn: TurnView, m: Message): TurnView {
    turn.(conv := With(turn.conv, m))
  }

  function AppendHarness(turn: TurnView, text: string): TurnView {
    turn.(conv := WithHarness(turn.conv, Say(User, text)))
  }

  function Reported(turn: TurnView, kind: ProblemKind, tool: string, detail: Detail, recovered: bool): TurnView {
    turn.(problems := Noted(turn.problems, Problem(kind, tool, detail, recovered)))
  }

  /** A call already made with these arguments: its earlier result again, and a note. */
  function RepeatTo(env: Env, p: Progress, call: ToolCall, prev: string): Progress {
    var n := CountOf(p.repeat.suppressed, call.name) + 1;
    var shut := n >= MAX_SUPPRESSED;
    var turn := Reported(p.turn, Repeated, call.name,
                         if shut then KeptCalling(call.name, n + 1) else CalledTwice(call.name), true);
    p.(turn := AppendHarness(Append(turn, ResultMessage(call, prev)),
                             if shut then env.texts.closedNote(call.name) else env.texts.repeatNote),
       repeat := p.repeat.(suppressed := p.repeat.suppressed[call.name := n],
                           closed := if shut then p.repeat.closed + {call.name} else p.repeat.closed,
                           stale := p.repeat.stale + 1),
       uses := p.uses + [Use(|p.ran|, call, prev, false, false)])
  }

  /** How the outcome of a call is recorded in the turn, before the result is appended. */
  function Absorb(turn: TurnView, name: string, o: Outcome): TurnView {
    match o
    case NoResult(e) => Reported(turn, ToolError, name, CallFailed(name, e), false)
    case Result(text, isError, verbatim, await) =>
      if isError then Reported(turn, ToolError, name, CallFailed(name, text), false)
      else if await.Some? then turn.(await := await)
      else if verbatim then turn.(verbatim := Shown(turn.verbatim, name, text))
      else turn
  }

  predicate Renders(o: Outcome) {
    o.Result? && !o.isError && o.await.None? && o.verbatim
  }

  predicate Awaits(o: Outcome) {
    o.Result? && !o.isError && o.await.Some?
  }

  predicate Succeeded(o: Outcome) {
    o.Result? && !o.isError
  }

  /** A call that is made: a read joins what is remembered, and any other empties it. */
  function ExecuteTo(env: Env, p: Progress, call: ToolCall): Progress {
    var run := ToolRun(call.name, call.arguments);
    var o := Reply(env.catalog, env.answer, p.ran, run);
    var content := ContentOf(o);
    var answered := Append(Absorb(p.turn, call.name, o), ResultMessage(call, content));
    var noted := if Renders(o) && env.texts.verbatimNote != "" then AppendHarness(answered, env.texts.verbatimNote) else answered;
    var r := SawResult(p.repeat.(closed := p.repeat.closed + if Renders(o) then VerbatimTools(env.catalog) else {}), content);
    var q := p.(ran := if call.name in env.catalog then p.ran + [run] else p.ran,
                uses := p.uses + [Use(|p.ran|, call, content, true, content !in p.repeat.results)]);
    if SaysItReads(env.catalog, call.name) then
      q.(turn := noted, seen := p.seen[Key(env, call) := content], repeat := r)
    else
      q.(turn := if Awaits(o) then noted else noted.(actions := noted.actions + [Action(call.name, Succeeded(o), content)]),
         seen := map[], repeat := r.(suppressed := map[]))
  }

  function UseTo(env: Env, p: Progress, call: ToolCall): Progress {
    if Key(env, call) in p.seen then RepeatTo(env, p, call, p.seen[Key(env, call)]) else ExecuteTo(env, p, call)
  }

  // ---------- Ending, planning and asking ----------

  function ReplyTo(env: Env, turn: TurnView, call: ToolCall): TurnView {
    match env.render(call.arguments, turn)
    case Some(text) => turn.(reply := text)
    case None => turn
  }

  function AskKeys(ev: Event): seq<string> {
    [ActorKey(ev.origin, ev.actor.id)] + if ev.actor.person != "" then [PersonKey(ev.actor.person)] else []
  }

  /** Parks the call behind a question the code wrote. If it cannot be sent, nothing runs. */
  function AskTo(env: Env, ev: Event, turn: TurnView, call: ToolCall): TurnView {
    var question := env.texts.question(call);
    match env.send(question)
    case NotSent => Append(turn, ResultMessage(call, env.texts.notAsked))
    case Delivered(id) =>
      var keys := (if id != "" then [ReplyKey(ev.origin, id)] else []) + AskKeys(ev);
      Append(turn, ResultMessage(call, env.texts.waiting))
      .(await := Some(Await(question, keys)), pending := Some(PendingCall(call.id, call.name, call.arguments)))
  }

  function PendingAsCall(pc: PendingCall): ToolCall {
    ToolCall(pc.id, pc.tool, pc.arguments)
  }

  /** The parked call gets its result before the model is asked anything: its own, or a refusal. */
  function ResolveTo(env: Env, ev: Event, p: Progress, pc: PendingCall): Progress {
    var call := PendingAsCall(pc);
    var turn := Append(p.turn, CallMessage(call));
    if !Approved(ev.content) then
      var told := Append(turn, ResultMessage(call, env.texts.notApproved));
      p.(turn := Reported(told.(actions := told.actions + [Action(pc.tool, false, env.texts.notRun)]),
                          Declined, pc.tool, NotApproved(pc.tool), false))
    else
      var q := UseTo(env, p.(turn := turn, seen := map[], repeat := NO_REPEATS), call);
      p.(turn := q.turn, ran := q.ran)
  }

  // ---------- The loop ----------

  /** What the model may name next: open tools of the catalog, reply and plan. */
  function Offer(env: Env, closed: set<string>): set<string> {
    env.catalog.Keys - closed + {REPLY, PLAN}
  }

  /** The model's answer; a call to a tool that was not offered is not a decision. */
  function Decided(env: Env, n: nat, prompt: seq<Message>, offered: set<string>): (d: Proposal)
    ensures d.Proposed? ==> d.call.name in offered
  {
    match env.propose(n, prompt, offered)
    case Proposed(call) => if call.name in offered then Proposed(call) else Garbled
    case other => other
  }

  function StalledBy(env: Env, p: Progress): Option<Detail> {
    if p.repeat.stale >= MAX_STALE then Some(NothingNew(p.repeat.stale))
    else if Bytes(p.turn.conv.messages) > MAX_BYTES then Some(TooLarge)
    else if env.late(|p.prompts|) then Some(OutOfTime)
    else None
  }

  datatype Flow = Again(p: Progress) | Over(p: Progress) | Stop(p: Progress)

  /** What follows a decision. */
  function Act(env: Env, ev: Event, p: Progress, call: ToolCall): Flow {
    var q := p.(turn := Append(p.turn, CallMessage(call)));
    if call.name == REPLY then Over(q.(turn := ReplyTo(env, q.turn, call)))
    else if call.name == PLAN then Again(q.(turn := Append(q.turn, ResultMessage(call, env.planAck(call.arguments)))))
    else if NeedsApproval(env.catalog, call.name) then Over(q.(turn := AskTo(env, ev, q.turn, call)))
    else
      var r := UseTo(env, q, call);
      if r.turn.await.Some? then Over(r) else Again(r)
  }

  function Asked(p: Progress): Progress {
    p.(prompts := p.prompts + [p.turn.conv.messages])
  }

  /** An answer that is no call leaves no trace but a note; the second in a turn is the last. */
  function OnGarbled(env: Env, p: Progress): Flow {
    var q := p.(invalid := p.invalid + 1);
    if q.invalid > 1 then Over(q.(turn := Reported(p.turn, Unreadable, "", GaveUpOnCall, false)))
    else Again(q.(turn := AppendHarness(Reported(p.turn, Unreadable, "", RetriedCall, true), env.texts.invalidNudge)))
  }

  function OnBroken(p: Progress, error: string, ended: bool): Flow {
    var q := p.(failures := p.failures + 1);
    if q.failures > 1 || ended then Over(q.(turn := Reported(p.turn, ModelError, "", CouldNotThink(error), false)))
    else Again(q.(turn := Reported(p.turn, ModelError, "", RetriedThinking(error), true)))
  }

  function OnStalled(p: Progress, why: Detail): Progress {
    var turn := Reported(p.turn, Stalled, "", why, false);
    p.(turn := turn.(problems := Promoted(turn.problems)))
  }

  function OnDecision(env: Env, ev: Event, p: Progress, d: Proposal): Flow {
    match d
    case Garbled => OnGarbled(env, p)
    case Broken(e, ended) => OnBroken(p, e, ended)
    case Proposed(call) => Act(env, ev, p, call)
  }

  function Choice(env: Env, p: Progress): (d: Proposal)
    ensures d.Proposed? ==> d.call.name in Offer(env, p.repeat.closed)
  {
    Decided(env, |p.prompts|, p.turn.conv.messages, Offer(env, p.repeat.closed))
  }

  function Asking(p: Progress): Progress {
    Asked(p.(turn := p.turn.(steps := p.turn.steps + 1)))
  }

  function Step(env: Env, ev: Event, p: Progress): Flow {
    match StalledBy(env, p)
    case Some(why) => Stop(OnStalled(p, why))
    case None => OnDecision(env, ev, Asking(p), Choice(env, p))
  }

  /** The prompt after a stall offers reply alone, and no step follows it. */
  function ClosingTo(env: Env, p: Progress): Progress {
    var q := p.(turn := AppendHarness(p.turn, env.texts.budgetNudge));
    var r := Asked(q);
    match Decided(env, |q.prompts|, q.turn.conv.messages, {REPLY})
    case Proposed(call) => r.(turn := ReplyTo(env, r.turn, call))
    case _ =>
      var turn := Reported(r.turn, ModelError, "", CouldNotReply, false);
      r.(turn := turn.(reply := env.renderRest(turn)))
  }

  /** How much longer the loop can go on, whatever the model does. */
  function Fuel(p: Progress): nat {
    (if Bytes(p.turn.conv.messages) <= MAX_BYTES then MAX_BYTES + 1 - Bytes(p.turn.conv.messages) else 0)
    + (if p.invalid == 0 then 1 else 0) + (if p.failures == 0 then 1 else 0)
  }

  lemma {:induction false} AppendsOnlyGrow(t: Transcript, m: Message)
    ensures Bytes(With(t, m).messages) == Bytes(WithHarness(t, m).messages) >= Bytes(t.messages)
  {
    BytesJoin(t.messages, [m]);
  }

  lemma {:induction false} UseGrows(env: Env, p: Progress, call: ToolCall)
    ensures Bytes(UseTo(env, p, call).turn.conv.messages) >= Bytes(p.turn.conv.messages)
  {
    var q := UseTo(env, p, call);
    var m := if Key(env, call) in p.seen then ResultMessage(call, p.seen[Key(env, call)])
    else ResultMessage(call, ContentOf(Reply(env.catalog, env.answer, p.ran, ToolRun(call.name, call.arguments))));
    var t := With(p.turn.conv, m);
    AppendsOnlyGrow(p.turn.conv, m);
    if q.turn.conv != t {
      AppendsOnlyGrow(t, q.turn.conv.messages[|t.messages|]);
      assert q.turn.conv.messages == t.messages + [q.turn.conv.messages[|t.messages|]];
    }
  }

  lemma {:induction false} ActGrows(env: Env, ev: Event, p: Progress, call: ToolCall)
    requires call.name != "" && Act(env, ev, p, call).Again?
    ensures var q := Act(env, ev, p, call).p;
            && Bytes(q.turn.conv.messages) >= Bytes(p.turn.conv.messages) + 1
            && q.invalid == p.invalid && q.failures == p.failures
  {
    var r := p.(turn := Append(p.turn, CallMessage(call)));
    CallGrows(p.turn.conv.messages, call);
    if call.name == PLAN {
      AppendsOnlyGrow(r.turn.conv, ResultMessage(call, env.planAck(call.arguments)));
    } else {
      UseGrows(env, r, call);
      UseCounters(env, r, call);
    }
  }

  lemma OfferedIsNamed(env: Env, closed: set<string>, name: string)
    requires ProperNames(env.catalog) && name in Offer(env, closed)
    ensures name != ""
  {
    assert |REPLY| == 5 && |PLAN| == 4;
  }

  lemma {:induction false} UseCounters(env: Env, p: Progress, call: ToolCall)
    ensures var q := UseTo(env, p, call); q.invalid == p.invalid && q.failures == p.failures && q.prompts == p.prompts
  {
  }

  lemma {:induction false} RetryCounts(env: Env, p: Progress, error: string, ended: bool)
    ensures OnGarbled(env, p).Again? ==> Fuel(OnGarbled(env, p).p) < Fuel(p)
    ensures OnBroken(p, error, ended).Again? ==> Fuel(OnBroken(p, error, ended).p) < Fuel(p)
  {
    AppendsOnlyGrow(p.turn.conv, Say(User, env.texts.invalidNudge));
  }

  lemma {:induction false} ActRunsDown(env: Env, ev: Event, p: Progress, call: ToolCall)
    requires call.name != "" && Act(env, ev, p, call).Again? && Bytes(p.turn.conv.messages) <= MAX_BYTES
    ensures Fuel(Act(env, ev, p, call).p) < Fuel(p)
  {
    ActGrows(env, ev, p, call);
  }

  lemma {:induction false} DecisionRunsDown(env: Env, ev: Event, p: Progress, d: Proposal)
    requires d.Proposed? ==> d.call.name != ""
    requires OnDecision(env, ev, p, d).Again? && Bytes(p.turn.conv.messages) <= MAX_BYTES
    ensures Fuel(OnDecision(env, ev, p, d).p) < Fuel(p)
  {
    match d {
      case Garbled => RetryCounts(env, p, "", false);
      case Broken(e, ended) => RetryCounts(env, p, e, ended);
      case Proposed(call) => ActRunsDown(env, ev, p, call);
    }
  }

  /** Every step that goes on uses up some of it: each call adds at least its own name. */
  lemma {:induction false} FuelRunsDown(env: Env, ev: Event, p: Progress)
    requires ProperNames(env.catalog) && Step(env, ev, p).Again?
    ensures Fuel(Step(env, ev, p).p) < Fuel(p)
  {
    var d := Choice(env, p);
    if d.Proposed? {
      OfferedIsNamed(env, p.repeat.closed, d.call.name);
    }
    DecisionRunsDown(env, ev, Asking(p), d);
  }

  function LoopTo(env: Env, ev: Event, p: Progress): Progress
    requires ProperNames(env.catalog)
    decreases Fuel(p)
  {
    match Step(env, ev, p)
    case Again(q) => FuelRunsDown(env, ev, p); LoopTo(env, ev, q)
    case Over(q) => q
    case Stop(q) => ClosingTo(env, q)
  }

  function AppendAll(turn: TurnView, ms: seq<Message>): TurnView {
    turn.(conv := turn.conv.(messages := turn.conv.messages + ms))
  }

  /** Before the first step: the request, and the call it may approve. */
  function Begin(env: Env, t: Task, p: Progress): Progress {
    var q := p.(turn := AppendAll(p.turn, RequestMessages(t)));
    if t.resume.Some? && t.resume.value.pending.Some? then ResolveTo(env, t.event, q, t.resume.value.pending.value) else q
  }

  /** The loop's own counters start afresh whatever the opening did. */
  function Ready(env: Env, p: Progress, directive: string): Progress {
    p.(turn := AppendHarness(p.turn, directive), seen := map[], repeat := NO_REPEATS, invalid := 0, failures := 0)
  }

  function HandleTo(env: Env, t: Task, p: Progress): Progress
    requires ProperNames(env.catalog)
  {
    var q := Begin(env, t, p);
    match env.directive
    case None => q
    case Some(text) => LoopTo(env, t.event, Ready(env, q, text))
  }
}
