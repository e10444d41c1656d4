/** What one turn records as it goes (internal/agent/turn.go). */
module Turns {
  import opened Wrappers
  import opened Text
  import opened TaskQueue
  import opened Chat
  import opened Host

  datatype ProblemKind = ToolError | Repeated | Stalled | Unreadable | ModelError | Declined

  // Which sentence the user would read, with its parameters.
  datatype Detail =
    | CalledTwice(tool: string)
    | KeptCalling(tool: string, times: nat)
    | CallFailed(tool: string, error: string)
    | NothingNew(calls: nat)
    | TooLarge
    | OutOfTime
    | GaveUpOnCall
    | RetriedCall
    | CouldNotThink(error: string)
    | RetriedThinking(error: string)
    | CouldNotReply
    | NotApproved(tool: string)

  // recovered hides a problem from the reply, not from the record of the turn.
  datatype Problem = Problem(kind: ProblemKind, tool: string, detail: Detail, recovered: bool)

  // A call that may have changed something, with its outcome.
  datatype Action = Action(tool: string, ok: bool, result: string)

  datatype Block = Block(tool: string, body: string)

  // The turn as a value.
  datatype TurnView = TurnView(
    conv: Transcript,
    reply: string,
    await: Option<Await>,
    pending: Option<PendingCall>,
    actions: seq<Action>,
    problems: seq<Problem>,
    verbatim: seq<Block>,
    steps: nat)

  /** Merges p into the first entry of its kind and tool, or appends it. */
  function Noted(ps: seq<Problem>, p: Problem): seq<Problem> {
    if ps == [] then [p]
    else if ps[0].kind == p.kind && ps[0].tool == p.tool then
      [ps[0].(detail := p.detail, recovered := ps[0].recovered && p.recovered)] + ps[1..]
    else [ps[0]] + Noted(ps[1..], p)
  }

  function Promoted(ps: seq<Problem>): (r: seq<Problem>)
    ensures |r| == |ps| && forall i :: 0 <= i < |ps| ==> r[i] == ps[i].(recovered := false)
  {
    seq(|ps|, i requires 0 <= i < |ps| => ps[i].(recovered := false))
  }

  ghost predicate OnePerKindAndTool(ps: seq<Problem>) {
    forall i, j :: 0 <= i < j < |ps| ==> ps[i].kind != ps[j].kind || ps[i].tool != ps[j].tool
  }

  predicate SameReport(q: Problem, p: Problem) {
    q.kind == p.kind && q.tool == p.tool
  }

  ghost predicate NoReport(ps: seq<Problem>, n: nat, p: Problem)
    requires n <= |ps|
  {
    forall j :: 0 <= j < n ==> !SameReport(ps[j], p)
  }

  lemma {:induction false} NotedMiss(ps: seq<Problem>, p: Problem)
    requires NoReport(ps, |ps|, p)
    ensures Noted(ps, p) == ps + [p]
  {
    if ps != [] {
      var rest := ps[1..];
      forall j | 0 <= j < |rest| ensures !SameReport(rest[j], p) {
        assert rest[j] == ps[j + 1];
      }
      NotedMiss(rest, p);
      assert [ps[0]] + (rest + [p]) == ps + [p];
    }
  }

  lemma {:induction false} NotedHit(ps: seq<Problem>, p: Problem, i: nat)
    requires i < |ps| && SameReport(ps[i], p) && NoReport(ps, i, p)
    ensures Noted(ps, p) == ps[i := p.(recovered := ps[i].recovered && p.recovered)]
  {
    if i == 0 {
      assert ps[0].(detail := p.detail, recovered := ps[0].recovered && p.recovered)
          == p.(recovered := ps[0].recovered && p.recovered);
    } else {
      var rest := ps[1..];
      forall j | 0 <= j < i - 1 ensures !SameReport(rest[j], p) {
        assert rest[j] == ps[j + 1];
      }
      assert rest[i - 1] == ps[i];
      NotedHit(rest, p, i - 1);
      assert [ps[0]] + rest[i - 1 := p.(recovered := ps[i].recovered && p.recovered)]
          == ps[i := p.(recovered := ps[i].recovered && p.recovered)];
    }
  }

  function FirstReport(ps: seq<Problem>, p: Problem): (i: nat)
    ensures i <= |ps| && (i < |ps| ==> SameReport(ps[i], p)) && forall j :: 0 <= j < i ==> !SameReport(ps[j], p)
  {
    if ps == [] || SameReport(ps[0], p) then 0
    else
      assert forall j :: 1 <= j < |ps| ==> ps[j] == ps[1..][j - 1];
      1 + FirstReport(ps[1..], p)
  }

  /**
   A report changes the one entry of its kind and tool or adds one, so there is never a
   second; the entry shows the latest detail, and stays visible once it was.
   */
  lemma {:induction false} NotedIs(ps: seq<Problem>, p: Problem) returns (i: nat)
    requires OnePerKindAndTool(ps)
    ensures OnePerKindAndTool(Noted(ps, p))
    ensures i <= |ps| && forall j :: 0 <= j < |ps| ==> (SameReport(ps[j], p) <==> j == i)
    ensures Noted(ps, p) == if i < |ps| then ps[i := p.(recovered := ps[i].recovered && p.recovered)] else ps + [p]
  {
    i := FirstReport(ps, p);
    if i < |ps| {
      NotedHit(ps, p, i);
    } else {
      NotedMiss(ps, p);
    }
  }

  /** Adds the trimmed body unless it is empty or there. */
  function Shown(blocks: seq<Block>, tool: string, body: string): seq<Block> {
    var b := TrimSpace(body);
    if b == "" || exists v :: v in blocks && v.body == b then blocks else blocks + [Block(tool, b)]
  }

  /** What a turn starts from: the event's text, after the question it answers and that question's request. */
  function RequestMessages(t: Task): seq<Message> {
    match t.resume
    case Some(r) => [Say(User, r.request), Say(Assistant, r.question), Say(User, t.event.content)]
    case None => [Say(User, t.event.content)]
  }

  class Turn {
    const task: Task
    const conversation: Conversation
    var reply: string
    var await: Option<Await>
    var pending: Option<PendingCall>
    var actions: seq<Action>
    var problems: seq<Problem>
    var verbatim: seq<Block>
    var steps: nat

    ghost function View(): TurnView
      reads this, conversation
    {
      TurnView(conversation.View(), reply, await, pending, actions, problems, verbatim, steps)
    }

    constructor (task: Task, conversation: Conversation)
      ensures this.task == task && this.conversation == conversation
      ensures View() == TurnView(conversation.View(), "", None, None, [], [], [], 0)
    {
      this.task, this.conversation := task, conversation;
      reply, await, pending, actions, problems, verbatim, steps := "", None, None, [], [], [], 0;
    }

    method AddProblem(kind: ProblemKind, tool: string, detail: Detail)
      modifies this`problems
      ensures problems == Noted(old(problems), Problem(kind, tool, detail, false))
    {
      Note(kind, tool, detail, false);
    }

    method AddRecovered(kind: ProblemKind, tool: string, detail: Detail)
      modifies this`problems
      ensures problems == Noted(old(problems), Problem(kind, tool, detail, true))
    {
      Note(kind, tool, detail, true);
    }

    method Note(kind: ProblemKind, tool: string, detail: Detail, recovered: bool)
      modifies this`problems
      ensures problems == Noted(old(problems), Problem(kind, tool, detail, recovered))
    {
      ghost var p := Problem(kind, tool, detail, recovered);
      for i := 0 to |problems|
        invariant problems == old(problems) && NoReport(problems, i, p)
      {
        var q := problems[i];
        if q.kind == kind && q.tool == tool {
          NotedHit(problems, p, i);
          problems := problems[i := q.(detail := detail, recovered := q.recovered && recovered)];
          return;
        }
      }
      NotedMiss(problems, p);
      problems := problems + [Problem(kind, tool, detail, recovered)];
    }

    method PromoteProblems()
      modifies this`problems
      ensures problems == Promoted(old(problems))
    {
      for i := 0 to |problems|
        invariant |problems| == |old(problems)|
        invariant forall j :: 0 <= j < |problems| ==>
                                problems[j] == if j < i then old(problems)[j].(recovered := false) else old(problems)[j]
      {
        problems := problems[i := problems[i].(recovered := false)];
      }
    }

    method AddVerbatim(tool: string, body: string)
      modifies this`verbatim
      ensures verbatim == Shown(old(verbatim), tool, body)
    {
      var b := TrimSpace(body);
      if b == "" {
        return;
      }
      for i := 0 to |verbatim|
        invariant verbatim == old(verbatim) && forall j :: 0 <= j < i ==> verbatim[j].body != b
      {
        if verbatim[i].body == b {
          assert verbatim[i] in verbatim;
          return;
        }
      }
      verbatim := verbatim + [Block(tool, b)];
    }
  }
}
