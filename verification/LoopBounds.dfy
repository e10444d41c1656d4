/**
 The loop always ends, and soon after it stops learning (internal/agent/loop.go):
 a bound on model calls that holds against any model and without any deadline, and a
 bound on tool uses by the number of distinct results.
 */
module LoopBounds {
  import opened Wrappers
  import opened Events
  import opened TaskQueue
  import opened Approval
  import opened Chat
  import opened Host
  import opened Turns
  import opened LoopSpec

  // ---------- Model calls ----------

  lemma {:induction false} DecisionAsksNothing(env: Env, ev: Event, p: Progress, d: Proposal)
    ensures OnDecision(env, ev, p, d).p.prompts == p.prompts
  {
    if d.Proposed? {
      UseCounters(env, p.(turn := Append(p.turn, CallMessage(d.call))), d.call);
    }
  }

  /**
   Termination with no deadline at all: whatever the model answers, the loop asks it at
   most once per byte of room left, once for each of its two allowances, and once to close.
   */
  lemma {:induction false} ModelCallsAreBounded(env: Env, ev: Event, p: Progress)
    requires ProperNames(env.catalog)
    ensures |p.prompts| <= |LoopTo(env, ev, p).prompts| <= |p.prompts| + Fuel(p) + 1
    decreases Fuel(p)
  {
    if StalledBy(env, p).None? {
      DecisionAsksNothing(env, ev, Asking(p), Choice(env, p));
      if Step(env, ev, p).Again? {
        FuelRunsDown(env, ev, p);
        ModelCallsAreBounded(env, ev, Step(env, ev, p).p);
      }
    }
  }

  /** A whole turn asks the model at most once per byte of its 192 KiB, and four times. */
  lemma {:induction false} TurnIsBounded(env: Env, t: Task, p: Progress)
    requires ProperNames(env.catalog)
    ensures |HandleTo(env, t, p).prompts| <= |p.prompts| + 192 * 1024 + 4
  {
    var q := Begin(env, t, p);
    BeginAsksNothing(env, t, p);
    if env.directive.Some? {
      ModelCallsAreBounded(env, t.event, Ready(env, q, env.directive.value));
    }
  }

  lemma {:induction false} BeginAsksNothing(env: Env, t: Task, p: Progress)
    ensures Begin(env, t, p).prompts == p.prompts
  {
    if t.resume.Some? && t.resume.value.pending.Some? {
      var call := PendingAsCall(t.resume.value.pending.value);
      var q := p.(turn := AppendAll(p.turn, RequestMessages(t)));
      UseCounters(env, q.(turn := Append(q.turn, CallMessage(call)), seen := map[], repeat := NO_REPEATS), call);
    }
  }

  // ---------- Learning ----------

  function Contents(uses: seq<Use>): set<string> {
    set i | 0 <= i < |uses| :: uses[i].content
  }

  lemma {:induction false} ContentsSnoc(uses: seq<Use>, u: Use)
    ensures Contents(uses + [u]) == Contents(uses) + {u.content}
  {
    var all := uses + [u];
    forall c ensures c in Contents(all) <==> c in Contents(uses) + {u.content} {
      if c in Contents(uses) {
        var i :| 0 <= i < |uses| && uses[i].content == c;
        assert all[i].content == c;
      }
      if c == u.content {
        assert all[|uses|].content == c;
      }
      if c in Contents(all) {
        var i :| 0 <= i < |all| && all[i].content == c;
        assert i < |uses| ==> uses[i].content == c;
      }
    }
  }

  /** How many uses, counting back from the last, brought nothing new. */
  function Trailing(uses: seq<Use>): nat {
    if uses == [] || uses[|uses| - 1].isNew then 0 else 1 + Trailing(uses[..|uses| - 1])
  }

  /** A use is new exactly when no earlier use this turn returned the same. */
  ghost predicate NewMeansNew(uses: seq<Use>) {
    forall i :: 0 <= i < |uses| ==> (uses[i].isNew <==> uses[i].content !in Contents(uses[..i]))
  }

  ghost predicate Learned(r: Repeat, uses: seq<Use>, seen: map<string, string>) {
    && r.results == Contents(uses)
    && r.stale == Trailing(uses)
    && NewMeansNew(uses)
    && (forall k :: k in seen ==> seen[k] in r.results)
    && r.stale <= MAX_STALE
    && (uses == [] ==> r.stale == 0)
    && (uses != [] ==> |uses| + 2 <= MAX_STALE * |r.results| + r.stale)
  }

  ghost predicate Learning(p: Progress) {
    Learned(p.repeat, p.uses, p.seen)
  }

  lemma {:induction false} NewSnoc(uses: seq<Use>, u: Use)
    requires NewMeansNew(uses) && (u.isNew <==> u.content !in Contents(uses))
    ensures NewMeansNew(uses + [u])
    ensures Trailing(uses + [u]) == if u.isNew then 0 else Trailing(uses) + 1
  {
    var all := uses + [u];
    assert all[..|uses|] == uses;
    forall i | 0 <= i < |all| ensures all[i].isNew <==> all[i].content !in Contents(all[..i]) {
      if i < |uses| {
        assert all[..i] == uses[..i];
      }
    }
  }

  lemma {:induction false} OneMoreUse(
      r: Repeat, uses: seq<Use>, seen: map<string, string>, u: Use, r': Repeat, seen': map<string, string>)
    requires Learned(r, uses, seen) && r.stale < MAX_STALE
    requires u.isNew <==> u.content !in r.results
    requires r'.results == r.results + {u.content} && r'.stale == if u.isNew then 0 else r.stale + 1
    requires forall k :: k in seen' ==> seen'[k] in r'.results
    ensures Learned(r', uses + [u], seen')
  {
    ContentsSnoc(uses, u);
    NewSnoc(uses, u);
    if u.isNew {
      assert |r'.results| == |r.results| + 1;
    } else {
      assert r'.results == r.results;
      assert uses != [];
    }
  }

  lemma {:induction false} UseLearns(env: Env, p: Progress, call: ToolCall)
    requires Learning(p) && p.repeat.stale < MAX_STALE
    ensures Learning(UseTo(env, p, call))
  {
    if Key(env, call) in p.seen {
      RepeatLearns(env, p, call, p.seen[Key(env, call)]);
    } else {
      ExecuteLearns(env, p, call);
    }
  }

  lemma {:induction false} RepeatLearns(env: Env, p: Progress, call: ToolCall, prev: string)
    requires Learning(p) && p.repeat.stale < MAX_STALE && prev in p.repeat.results
    ensures Learning(RepeatTo(env, p, call, prev))
  {
    var q := RepeatTo(env, p, call, prev);
    assert p.repeat.results + {prev} == p.repeat.results;
    OneMoreUse(p.repeat, p.uses, p.seen, Use(|p.ran|, call, prev, false, false), q.repeat, q.seen);
  }

  lemma {:induction false} ExecuteLearns(env: Env, p: Progress, call: ToolCall)
    requires Learning(p) && p.repeat.stale < MAX_STALE
    ensures Learning(ExecuteTo(env, p, call))
  {
    var q := ExecuteTo(env, p, call);
    var content := ContentOf(Reply(env.catalog, env.answer, p.ran, ToolRun(call.name, call.arguments)));
    var u := Use(|p.ran|, call, content, true, content !in p.repeat.results);
    assert q.uses == p.uses + [u];
    assert q.repeat.results == p.repeat.results + {content};
    assert q.repeat.stale == if u.isNew then 0 else p.repeat.stale + 1;
    assert q.seen == map[] || q.seen == p.seen[Key(env, call) := content];
    OneMoreUse(p.repeat, p.uses, p.seen, u, q.repeat, q.seen);
  }

  lemma {:induction false} DecisionLearns(env: Env, ev: Event, p: Progress, d: Proposal)
    requires Learning(p) && p.repeat.stale < MAX_STALE
    ensures Learning(OnDecision(env, ev, p, d).p)
  {
    if d.Proposed? {
      UseLearns(env, p.(turn := Append(p.turn, CallMessage(d.call))), d.call);
    }
  }

  lemma {:induction false} StepLearns(env: Env, ev: Event, p: Progress)
    requires Learning(p)
    ensures Learning(Step(env, ev, p).p)
  {
    if StalledBy(env, p).None? {
      DecisionLearns(env, ev, Asking(p), Choice(env, p));
    }
  }

  lemma {:induction false} LoopLearns(env: Env, ev: Event, p: Progress)
    requires ProperNames(env.catalog) && Learning(p)
    ensures Learning(LoopTo(env, ev, p))
    decreases Fuel(p)
  {
    StepLearns(env, ev, p);
    if Step(env, ev, p).Again? {
      FuelRunsDown(env, ev, p);
      LoopLearns(env, ev, Step(env, ev, p).p);
    }
  }

  /**
   Work is bounded by what was learned: staleness is always the run of uses since the
   last new result, never above its limit, and a turn makes at most three uses for each
   distinct result and one more.
   */
  lemma {:induction false} UsesAreBoundedByResults(env: Env, ev: Event, p: Progress)
    requires ProperNames(env.catalog) && p.uses == [] && p.seen == map[] && p.repeat == NO_REPEATS
    ensures var q := LoopTo(env, ev, p);
            && q.repeat.stale == Trailing(q.uses) <= 3
            && NewMeansNew(q.uses)
            && |q.uses| <= 3 * |Contents(q.uses)| + 1
  {
    assert Learning(p);
    LoopLearns(env, ev, p);
  }

  // ---------- Closed tools ----------

  lemma {:induction false} UseOnlyCloses(env: Env, p: Progress, call: ToolCall)
    ensures p.repeat.closed <= UseTo(env, p, call).repeat.closed
    ensures var uses := UseTo(env, p, call).uses; uses == p.uses + [uses[|p.uses|]] && uses[|p.uses|].call == call
  {
  }

  lemma {:induction false} StepKeepsClosed(env: Env, ev: Event, p: Progress)
    ensures var q := Step(env, ev, p).p;
            && p.repeat.closed <= q.repeat.closed
            && (q.uses == p.uses || (|q.uses| == |p.uses| + 1 && q.uses[..|p.uses|] == p.uses
                                     && q.uses[|p.uses|].call.name in env.catalog.Keys - p.repeat.closed))
  {
    if StalledBy(env, p).None? {
      var d, q := Choice(env, p), Asking(p);
      if d.Proposed? {
        UseOnlyCloses(env, q.(turn := Append(q.turn, CallMessage(d.call))), d.call);
      }
    }
  }

  /** Closed tools stay closed to the end of the turn, and it never uses one again: they are not offered. */
  lemma {:induction false} ClosedStaysClosed(env: Env, ev: Event, p: Progress)
    requires ProperNames(env.catalog)
    ensures var q := LoopTo(env, ev, p);
            && p.repeat.closed <= q.repeat.closed
            && p.uses <= q.uses
            && forall i :: |p.uses| <= i < |q.uses| ==> q.uses[i].call.name in env.catalog.Keys - p.repeat.closed
    decreases Fuel(p)
  {
    StepKeepsClosed(env, ev, p);
    if Step(env, ev, p).Again? {
      FuelRunsDown(env, ev, p);
      ClosedStaysClosed(env, ev, Step(env, ev, p).p);
    }
  }

  /** n blocks were shown before the loop, and once it shows one no tool that could show another is open. */
  ghost predicate ShownOnce(env: Env, n: nat, p: Progress) {
    |p.turn.verbatim| <= n || (|p.turn.verbatim| == n + 1 && VerbatimTools(env.catalog) <= p.repeat.closed)
  }

  lemma {:induction false} UseShowsOnce(env: Env, n: nat, p: Progress, call: ToolCall)
    requires ShownOnce(env, n, p) && call.name !in p.repeat.closed
    ensures ShownOnce(env, n, UseTo(env, p, call))
  {
    if Key(env, call) !in p.seen {
      var o := Reply(env.catalog, env.answer, p.ran, ToolRun(call.name, call.arguments));
      if Renders(o) {
        assert call.name in VerbatimTools(env.catalog);
      }
    }
  }

  /** The loop shows the user at most one verbatim answer: the first closes every tool that has one. */
  lemma {:induction false} LoopShowsOneAnswer(env: Env, ev: Event, n: nat, p: Progress)
    requires ProperNames(env.catalog) && ShownOnce(env, n, p)
    ensures |LoopTo(env, ev, p).turn.verbatim| <= n + 1
    decreases Fuel(p)
  {
    StepShowsOnce(env, ev, n, p);
    if Step(env, ev, p).Again? {
      FuelRunsDown(env, ev, p);
      LoopShowsOneAnswer(env, ev, n, Step(env, ev, p).p);
    }
  }

  lemma {:induction false} StepShowsOnce(env: Env, ev: Event, n: nat, p: Progress)
    requires ProperNames(env.catalog) && ShownOnce(env, n, p)
    ensures ShownOnce(env, n, Step(env, ev, p).p)
  {
    if StalledBy(env, p).None? {
      DecisionShowsOnce(env, ev, n, Asking(p), Choice(env, p));
    }
  }

  lemma {:induction false} DecisionShowsOnce(env: Env, ev: Event, n: nat, p: Progress, d: Proposal)
    requires ProperNames(env.catalog) && ShownOnce(env, n, p)
    requires d.Proposed? ==> d.call.name in Offer(env, p.repeat.closed)
    ensures ShownOnce(env, n, OnDecision(env, ev, p, d).p)
  {
    if d.Proposed? && d.call.name in env.catalog {
      UseShowsOnce(env, n, p.(turn := Append(p.turn, CallMessage(d.call))), d.call);
    }
  }

  // ---------- Which tools close ----------

  /** How many calls of name were refused as repeats since anything but a read last ran. */
  function Refused(catalog: Catalog, uses: seq<Use>, name: string): nat {
    if uses == [] then 0
    else
      var u := uses[|uses| - 1];
      if u.ran && !SaysItReads(catalog, u.call.name) then 0
      else Refused(catalog, uses[..|uses| - 1], name) + if !u.ran && u.call.name == name then 1 else 0
  }

  predicate RefusedTwice(catalog: Catalog, uses: seq<Use>, name: string) {
    uses != []
    && (RefusedTwice(catalog, uses[..|uses| - 1], name) || Refused(catalog, uses, name) >= 2)
  }

  ghost predicate Tallied(env: Env, p: Progress) {
    && (forall name :: CountOf(p.repeat.suppressed, name) == Refused(env.catalog, p.uses, name))
    && (forall name :: name !in VerbatimTools(env.catalog) ==>
                         (name in p.repeat.closed <==> RefusedTwice(env.catalog, p.uses, name)))
  }

  lemma {:induction false} RefusedSnoc(catalog: Catalog, uses: seq<Use>, u: Use, name: string)
    ensures var all := uses + [u];
            && Refused(catalog, all, name)
               == (if u.ran && !SaysItReads(catalog, u.call.name) then 0
                   else Refused(catalog, uses, name) + if !u.ran && u.call.name == name then 1 else 0)
            && (RefusedTwice(catalog, all, name)
                <==> RefusedTwice(catalog, uses, name) || Refused(catalog, all, name) >= 2)
  {
    assert (uses + [u])[..|uses|] == uses;
  }

  lemma {:induction false} RefusedAtMost(catalog: Catalog, uses: seq<Use>, name: string)
    ensures Refused(catalog, uses, name) >= 2 ==> RefusedTwice(catalog, uses, name)
  {
  }

  lemma {:induction false} RepeatTallies(env: Env, p: Progress, call: ToolCall, prev: string)
    requires Tallied(env, p)
    ensures Tallied(env, RepeatTo(env, p, call, prev))
  {
    var q := RepeatTo(env, p, call, prev);
    var u := Use(|p.ran|, call, prev, false, false);
    forall name
      ensures CountOf(q.repeat.suppressed, name) == Refused(env.catalog, q.uses, name)
      ensures name !in VerbatimTools(env.catalog) ==>
                (name in q.repeat.closed <==> RefusedTwice(env.catalog, q.uses, name))
    {
      RefusedSnoc(env.catalog, p.uses, u, name);
      RefusedAtMost(env.catalog, p.uses, name);
      assert CountOf(p.repeat.suppressed, name) == Refused(env.catalog, p.uses, name);
    }
  }

  lemma {:induction false} ExecuteTallies(env: Env, p: Progress, call: ToolCall)
    requires Tallied(env, p)
    ensures Tallied(env, ExecuteTo(env, p, call))
  {
    var q := ExecuteTo(env, p, call);
    var content := ContentOf(Reply(env.catalog, env.answer, p.ran, ToolRun(call.name, call.arguments)));
    var u := Use(|p.ran|, call, content, true, content !in p.repeat.results);
    assert q.uses == p.uses + [u];
    forall name
      ensures CountOf(q.repeat.suppressed, name) == Refused(env.catalog, q.uses, name)
      ensures name !in VerbatimTools(env.catalog) ==>
                (name in q.repeat.closed <==> RefusedTwice(env.catalog, q.uses, name))
    {
      RefusedSnoc(env.catalog, p.uses, u, name);
      RefusedAtMost(env.catalog, p.uses, name);
      assert CountOf(p.repeat.suppressed, name) == Refused(env.catalog, p.uses, name);
    }
  }

  lemma {:induction false} StepTallies(env: Env, ev: Event, p: Progress)
    requires Tallied(env, p)
    ensures Tallied(env, Step(env, ev, p).p)
  {
    if StalledBy(env, p).None? {
      DecisionTallies(env, ev, Asking(p), Choice(env, p));
    }
  }

  lemma {:induction false} UseTallies(env: Env, p: Progress, call: ToolCall)
    requires Tallied(env, p)
    ensures Tallied(env, UseTo(env, p, call))
  {
    if Key(env, call) in p.seen {
      RepeatTallies(env, p, call, p.seen[Key(env, call)]);
    } else {
      ExecuteTallies(env, p, call);
    }
  }

  lemma {:induction false} DecisionTallies(env: Env, ev: Event, p: Progress, d: Proposal)
    requires Tallied(env, p)
    ensures Tallied(env, OnDecision(env, ev, p, d).p)
  {
    if d.Proposed? {
      UseTallies(env, p.(turn := Append(p.turn, CallMessage(d.call))), d.call);
    }
  }

  lemma {:induction false} LoopTallies(env: Env, ev: Event, p: Progress)
    requires ProperNames(env.catalog) && Tallied(env, p)
    ensures Tallied(env, LoopTo(env, ev, p))
    decreases Fuel(p)
  {
    StepTallies(env, ev, p);
    if Step(env, ev, p).Again? {
      FuelRunsDown(env, ev, p);
      LoopTallies(env, ev, Step(env, ev, p).p);
    }
  }

  /**
   A tool is closed exactly when, at some point of the turn, two of its calls had been
   refused as repeats since anything but a read last ran, with the same arguments or not
   and whatever came between; but for verbatim tools, which also close once one has rendered.
   */
  lemma {:induction false} RefusedTwiceCloses(env: Env, ev: Event, p: Progress, name: string)
    requires ProperNames(env.catalog) && p.uses == [] && p.repeat == NO_REPEATS && name !in VerbatimTools(env.catalog)
    ensures var q := LoopTo(env, ev, p);
            name in q.repeat.closed <==> RefusedTwice(env.catalog, q.uses, name)
  {
    assert Tallied(env, p);
    LoopTallies(env, ev, p);
  }

  // ---------- Verbatim tools ----------

  /** The kth call rendered an answer: a verbatim tool's, with no error and no question. */
  ghost predicate RenderedAt(env: Env, ran: seq<ToolRun>, k: nat)
    requires k < |ran|
  {
    ran[k].tool in env.catalog && env.catalog[ran[k].tool].verbatim
    && var a := env.answer(ran[..k], ran[k]); a.Answered? && !a.isError && a.await.None?
  }

  ghost predicate RenderedSince(env: Env, n: nat, ran: seq<ToolRun>) {
    exists k :: n <= k < |ran| && RenderedAt(env, ran, k)
  }

  ghost predicate ClosedByRendering(env: Env, n: nat, p: Progress) {
    && n <= |p.ran|
    && forall name :: name in env.catalog && env.catalog[name].verbatim ==>
         (name in p.repeat.closed <==> RefusedTwice(env.catalog, p.uses, name) || RenderedSince(env, n, p.ran))
  }

  lemma {:induction false} RenderedSnoc(env: Env, n: nat, ran: seq<ToolRun>, run: ToolRun)
    requires n <= |ran|
    ensures RenderedSince(env, n, ran + [run]) <==> RenderedSince(env, n, ran) || RenderedAt(env, ran + [run], |ran|)
  {
    var all := ran + [run];
    forall k | n <= k < |ran| ensures RenderedAt(env, all, k) <==> RenderedAt(env, ran, k) {
      assert all[..k] == ran[..k] && all[k] == ran[k];
    }
    if RenderedSince(env, n, ran) {
      var k :| n <= k < |ran| && RenderedAt(env, ran, k);
      assert RenderedAt(env, all, k);
    }
    if RenderedSince(env, n, all) {
      var k :| n <= k < |all| && RenderedAt(env, all, k);
      assert k < |ran| ==> RenderedAt(env, ran, k);
    }
  }

  lemma {:induction false} RepeatClosesOwn(env: Env, n: nat, p: Progress, call: ToolCall, prev: string)
    requires Tallied(env, p) && ClosedByRendering(env, n, p)
    ensures ClosedByRendering(env, n, RepeatTo(env, p, call, prev))
  {
    var q, u := RepeatTo(env, p, call, prev), Use(|p.ran|, call, prev, false, false);
    forall name | name in env.catalog && env.catalog[name].verbatim
      ensures name in q.repeat.closed <==> RefusedTwice(env.catalog, q.uses, name) || RenderedSince(env, n, q.ran)
    {
      RefusedSnoc(env.catalog, p.uses, u, name);
      RefusedAtMost(env.catalog, p.uses, name);
      assert CountOf(p.repeat.suppressed, name) == Refused(env.catalog, p.uses, name);
    }
  }

  lemma {:induction false} ExecuteCloses(env: Env, n: nat, p: Progress, call: ToolCall)
    requires ClosedByRendering(env, n, p) && call.name in env.catalog
    ensures ClosedByRendering(env, n, ExecuteTo(env, p, call))
  {
    var q, run := ExecuteTo(env, p, call), ToolRun(call.name, call.arguments);
    var content := ContentOf(Reply(env.catalog, env.answer, p.ran, run));
    var u := Use(|p.ran|, call, content, true, content !in p.repeat.results);
    assert q.uses == p.uses + [u] && q.ran == p.ran + [run] && q.ran[..|p.ran|] == p.ran;
    RenderedSnoc(env, n, p.ran, run);
    assert RenderedAt(env, q.ran, |p.ran|) <==> Renders(Reply(env.catalog, env.answer, p.ran, run));
    forall name | name in env.catalog && env.catalog[name].verbatim
      ensures name in q.repeat.closed <==> RefusedTwice(env.catalog, q.uses, name) || RenderedSince(env, n, q.ran)
    {
      RefusedSnoc(env.catalog, p.uses, u, name);
      RefusedAtMost(env.catalog, p.uses, name);
    }
  }

  lemma {:induction false} UseCloses(env: Env, n: nat, p: Progress, call: ToolCall)
    requires Tallied(env, p) && ClosedByRendering(env, n, p) && call.name in env.catalog
    ensures ClosedByRendering(env, n, UseTo(env, p, call))
  {
    if Key(env, call) in p.seen {
      RepeatClosesOwn(env, n, p, call, p.seen[Key(env, call)]);
    } else {
      ExecuteCloses(env, n, p, call);
    }
  }

  lemma {:induction false} DecisionCloses(env: Env, ev: Event, n: nat, p: Progress, d: Proposal)
    requires Tallied(env, p) && ClosedByRendering(env, n, p)
    requires d.Proposed? ==> d.call.name in env.catalog || d.call.name == REPLY || d.call.name == PLAN
    ensures ClosedByRendering(env, n, OnDecision(env, ev, p, d).p)
  {
    if d.Proposed? && d.call.name in env.catalog {
      UseCloses(env, n, p.(turn := Append(p.turn, CallMessage(d.call))), d.call);
    }
  }

  lemma {:induction false} StepCloses(env: Env, ev: Event, n: nat, p: Progress)
    requires Tallied(env, p) && ClosedByRendering(env, n, p)
    ensures ClosedByRendering(env, n, Step(env, ev, p).p)
  {
    if StalledBy(env, p).None? {
      DecisionCloses(env, ev, n, Asking(p), Choice(env, p));
    }
  }

  lemma {:induction false} LoopCloses(env: Env, ev: Event, n: nat, p: Progress)
    requires ProperNames(env.catalog) && Tallied(env, p) && ClosedByRendering(env, n, p)
    ensures ClosedByRendering(env, n, LoopTo(env, ev, p))
    decreases Fuel(p)
  {
    StepTallies(env, ev, p);
    StepCloses(env, ev, n, p);
    if Step(env, ev, p).Again? {
      FuelRunsDown(env, ev, p);
      LoopCloses(env, ev, n, Step(env, ev, p).p);
    }
  }

  /** And a verbatim tool is closed exactly when that, or when some call of the loop has rendered an answer. */
  lemma {:induction false} RenderingCloses(env: Env, ev: Event, p: Progress, name: string)
    requires ProperNames(env.catalog) && p.uses == [] && p.repeat == NO_REPEATS
    requires name in env.catalog && env.catalog[name].verbatim
    ensures var q := LoopTo(env, ev, p);
            name in q.repeat.closed <==> RefusedTwice(env.catalog, q.uses, name) || RenderedSince(env, |p.ran|, q.ran)
  {
    assert Tallied(env, p) && ClosedByRendering(env, |p.ran|, p);
    LoopCloses(env, ev, |p.ran|, p);
  }

  // ---------- Counting steps ----------

  lemma {:induction false} UseTakesNoStep(env: Env, p: Progress, call: ToolCall)
    ensures UseTo(env, p, call).turn.steps == p.turn.steps
  {
  }

  /** The steps a turn reports are its prompts, but for the one that closes it after a stall. */
  lemma {:induction false} StepsCountPrompts(env: Env, ev: Event, p: Progress) returns (stopped: Option<Progress>)
    requires ProperNames(env.catalog)
    ensures var q := LoopTo(env, ev, p);
            && q.turn.steps + |p.prompts| + (if stopped.Some? then 1 else 0) == p.turn.steps + |q.prompts|
            && (stopped.Some? ==> StalledBy(env, stopped.value).Some? && q == ClosingTo(env, Step(env, ev, stopped.value).p))
    decreases Fuel(p)
  {
    stopped := None;
    match Step(env, ev, p) {
      case Again(q) =>
        DecisionAsksNothing(env, ev, Asking(p), Choice(env, p));
        DecisionTakesNoStep(env, ev, Asking(p), Choice(env, p));
        FuelRunsDown(env, ev, p);
        stopped := StepsCountPrompts(env, ev, q);
      case Over(_) =>
        DecisionAsksNothing(env, ev, Asking(p), Choice(env, p));
        DecisionTakesNoStep(env, ev, Asking(p), Choice(env, p));
      case Stop(_) => stopped := Some(p);
    }
  }

  lemma {:induction false} DecisionTakesNoStep(env: Env, ev: Event, p: Progress, d: Proposal)
    ensures OnDecision(env, ev, p, d).p.turn.steps == p.turn.steps
  {
    if d.Proposed? {
      UseTakesNoStep(env, p.(turn := Append(p.turn, CallMessage(d.call))), d.call);
    }
  }

  /** A remembered call made twice more closes its tool, however often that had been refused before. */
  lemma {:induction false} ThirdIdenticalCallCloses(env: Env, p: Progress, call: ToolCall)
    requires Key(env, call) in p.seen
    ensures call.name in UseTo(env, UseTo(env, p, call), call).repeat.closed
  {
  }
}
