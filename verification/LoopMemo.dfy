/**
 Remembered reads agree with re-execution (internal/agent/loop.go): a result the loop
 gives again is what the call would return at that moment, because anything that could
 change the answer clears what is remembered.
 */
module LoopMemo {
  import opened Text
  import opened Events
  import opened Approval
  import opened Chat
  import opened Host
  import opened LoopSpec
  import opened LoopRecord

  /** The calls that may have changed the world. */
  function Effects(catalog: Catalog, ran: seq<ToolRun>): seq<ToolRun> {
    if ran == [] then []
    else Effects(catalog, ran[..|ran| - 1])
         + if SaysItReads(catalog, ran[|ran| - 1].tool) then [] else [ran[|ran| - 1]]
  }

  /**
   What the read-only hint promises: a read changes nothing, and answers as a function of
   the world and of its arguments up to canonical form.
   */
  ghost predicate ReadsArePure(env: Env) {
    forall ran: seq<ToolRun>, ran': seq<ToolRun>, a: ToolRun, b: ToolRun ::
      && SaysItReads(env.catalog, a.tool) && a.tool == b.tool && env.canon(a.arguments) == env.canon(b.arguments)
      && Effects(env.catalog, ran) == Effects(env.catalog, ran')
      ==> env.answer(ran, a) == env.answer(ran', b)
  }

  function AsRun(call: ToolCall): ToolRun {
    ToolRun(call.name, call.arguments)
  }

  /** What running the call would hand the model now. */
  function Fresh(env: Env, ran: seq<ToolRun>, call: ToolCall): string {
    ContentOf(Reply(env.catalog, env.answer, ran, AsRun(call)))
  }

  // ---------- Keys ----------

  /** One key, one tool and one canonical argument set. */
  lemma {:induction false} KeyIsExact(env: Env, a: ToolCall, b: ToolCall)
    requires '\0' !in a.name && '\0' !in b.name
    ensures Key(env, a) == Key(env, b) <==> a.name == b.name && env.canon(a.arguments) == env.canon(b.arguments)
  {
    if Key(env, a) == Key(env, b) {
      CutAt(a.name, env.canon(a.arguments), '\0');
      CutAt(b.name, env.canon(b.arguments), '\0');
    }
  }

  // ---------- The memo ----------

  /** Whatever is remembered is a read whose answer has not changed. */
  ghost predicate MemoHolds(env: Env, ran: seq<ToolRun>, seen: map<string, string>) {
    forall call: ToolCall :: call.name in env.catalog && Key(env, call) in seen ==>
      SaysItReads(env.catalog, call.name) && seen[Key(env, call)] == Fresh(env, ran, call)
  }

  ghost predicate UsesAgree(env: Env, ran: seq<ToolRun>, uses: seq<Use>) {
    forall i :: 0 <= i < |uses| ==> uses[i].at <= |ran| && uses[i].content == Fresh(env, ran[..uses[i].at], uses[i].call)
  }

  /** Reads made since the last effect are all remembered. */
  ghost predicate ReadsRemembered(env: Env, base: nat, ran: seq<ToolRun>, seen: map<string, string>) {
    forall k :: base <= k < |ran| && Effects(env.catalog, ran[..k]) == Effects(env.catalog, ran) ==>
      Key(env, ToolCall("", ran[k].tool, ran[k].arguments)) in seen
  }

  /** No call ran twice with nothing but reads in between. */
  ghost predicate NoIdleRepeat(env: Env, base: nat, ran: seq<ToolRun>) {
    forall i, j :: base <= i < j < |ran| && Effects(env.catalog, ran[..i]) == Effects(env.catalog, ran[..j + 1]) ==>
      ran[i].tool != ran[j].tool || env.canon(ran[i].arguments) != env.canon(ran[j].arguments)
  }

  ghost predicate Faithful(env: Env, base: nat, p: Progress) {
    && base <= |p.ran|
    && MemoHolds(env, p.ran, p.seen)
    && UsesAgree(env, p.ran, p.uses)
    && ReadsRemembered(env, base, p.ran, p.seen)
    && NoIdleRepeat(env, base, p.ran)
    && (forall k :: base <= k < |p.ran| ==> p.ran[k].tool in env.catalog)
  }

  lemma {:induction false} EffectsSnoc(catalog: Catalog, ran: seq<ToolRun>, run: ToolRun)
    ensures Effects(catalog, ran + [run]) == Effects(catalog, ran) + if SaysItReads(catalog, run.tool) then [] else [run]
  {
    assert (ran + [run])[..|ran|] == ran;
  }

  lemma {:induction false} EffectsGrow(catalog: Catalog, ran: seq<ToolRun>, k: nat)
    requires k <= |ran|
    ensures |Effects(catalog, ran[..k])| <= |Effects(catalog, ran)|
  {
    if k < |ran| {
      EffectsGrow(catalog, ran[..|ran| - 1], k);
      assert ran[..|ran| - 1][..k] == ran[..k];
    } else {
      assert ran[..k] == ran;
    }
  }

  lemma {:induction false} UsesAgreeSnoc(env: Env, ran: seq<ToolRun>, uses: seq<Use>, more: seq<ToolRun>, u: Use)
    requires UsesAgree(env, ran, uses) && u.at == |ran| && u.content == Fresh(env, ran, u.call)
    ensures UsesAgree(env, ran + more, uses + [u])
  {
    var all, ran' := uses + [u], ran + more;
    forall i | 0 <= i < |all| ensures all[i].at <= |ran'| && all[i].content == Fresh(env, ran'[..all[i].at], all[i].call) {
      assert all[i].at <= |ran| && ran'[..all[i].at] == ran[..all[i].at];
      assert ran[..|ran|] == ran;
    }
  }

  lemma {:induction false} ReadKeepsMemo(env: Env, ran: seq<ToolRun>, seen: map<string, string>, call: ToolCall)
    requires ProperNames(env.catalog) && ReadsArePure(env) && MemoHolds(env, ran, seen)
    requires call.name in env.catalog && SaysItReads(env.catalog, call.name)
    ensures MemoHolds(env, ran + [AsRun(call)], seen[Key(env, call) := Fresh(env, ran, call)])
  {
    var ran', seen' := ran + [AsRun(call)], seen[Key(env, call) := Fresh(env, ran, call)];
    EffectsSnoc(env.catalog, ran, AsRun(call));
    forall c: ToolCall | c.name in env.catalog && Key(env, c) in seen'
      ensures SaysItReads(env.catalog, c.name) && seen'[Key(env, c)] == Fresh(env, ran', c)
    {
      KeyIsExact(env, c, call);
      if Key(env, c) == Key(env, call) {
        assert env.answer(ran, AsRun(call)) == env.answer(ran', AsRun(c));
      } else {
        assert env.answer(ran, AsRun(c)) == env.answer(ran', AsRun(c));
      }
    }
  }

  lemma {:induction false} RunRemembered(env: Env, base: nat, ran: seq<ToolRun>, seen: map<string, string>, call: ToolCall, content: string)
    requires base <= |ran| && ReadsRemembered(env, base, ran, seen)
    ensures SaysItReads(env.catalog, call.name) ==>
              ReadsRemembered(env, base, ran + [AsRun(call)], seen[Key(env, call) := content])
    ensures !SaysItReads(env.catalog, call.name) ==>
              ReadsRemembered(env, base, ran + [AsRun(call)], map[])
  {
    var ran' := ran + [AsRun(call)];
    EffectsSnoc(env.catalog, ran, AsRun(call));
    forall k | base <= k < |ran'| && Effects(env.catalog, ran'[..k]) == Effects(env.catalog, ran')
      ensures SaysItReads(env.catalog, call.name)
      ensures k < |ran| ==> Effects(env.catalog, ran[..k]) == Effects(env.catalog, ran)
    {
      assert ran'[..k] == ran[..k];
      EffectsGrow(env.catalog, ran, k);
    }
  }

  lemma {:induction false} LastIsNoRepeat(
      env: Env, base: nat, ran: seq<ToolRun>, seen: map<string, string>, call: ToolCall, i: nat)
    requires base <= i < |ran| && ReadsRemembered(env, base, ran, seen) && Key(env, call) !in seen
    requires ProperNames(env.catalog) && call.name in env.catalog && ran[i].tool in env.catalog
    requires Effects(env.catalog, ran[..i]) == Effects(env.catalog, ran + [AsRun(call)])
    ensures ran[i].tool != call.name || env.canon(ran[i].arguments) != env.canon(call.arguments)
  {
    EffectsSnoc(env.catalog, ran, AsRun(call));
    EffectsGrow(env.catalog, ran, i);
    assert Effects(env.catalog, ran[..i]) == Effects(env.catalog, ran);
    KeyIsExact(env, ToolCall("", ran[i].tool, ran[i].arguments), call);
  }

  lemma {:induction false} RunIsNoRepeat(env: Env, base: nat, ran: seq<ToolRun>, seen: map<string, string>, call: ToolCall)
    requires base <= |ran| && ReadsRemembered(env, base, ran, seen) && NoIdleRepeat(env, base, ran)
    requires ProperNames(env.catalog) && call.name in env.catalog && Key(env, call) !in seen
    requires forall k :: base <= k < |ran| ==> ran[k].tool in env.catalog
    ensures NoIdleRepeat(env, base, ran + [AsRun(call)])
  {
    var ran' := ran + [AsRun(call)];
    forall i, j | base <= i < j < |ran'| && Effects(env.catalog, ran'[..i]) == Effects(env.catalog, ran'[..j + 1])
      ensures ran'[i].tool != ran'[j].tool || env.canon(ran'[i].arguments) != env.canon(ran'[j].arguments)
    {
      assert ran'[..i] == ran[..i];
      if j < |ran| {
        assert ran'[..j + 1] == ran[..j + 1];
      } else {
        assert ran'[..j + 1] == ran';
        LastIsNoRepeat(env, base, ran, seen, call, i);
      }
    }
  }

  lemma {:induction false} UseIsFaithful(env: Env, base: nat, p: Progress, call: ToolCall)
    requires ProperNames(env.catalog) && ReadsArePure(env) && Faithful(env, base, p) && call.name in env.catalog
    ensures Faithful(env, base, UseTo(env, p, call))
  {
    if Key(env, call) in p.seen {
      RepeatIsFaithful(env, base, p, call);
    } else {
      ExecuteIsFaithful(env, base, p, call);
    }
  }

  lemma {:induction false} RepeatIsFaithful(env: Env, base: nat, p: Progress, call: ToolCall)
    requires Faithful(env, base, p) && call.name in env.catalog && Key(env, call) in p.seen
    ensures Faithful(env, base, RepeatTo(env, p, call, p.seen[Key(env, call)]))
  {
    var prev := p.seen[Key(env, call)];
    var q := RepeatTo(env, p, call, prev);
    UsesAgreeSnoc(env, p.ran, p.uses, [], Use(|p.ran|, call, prev, false, false));
    assert p.ran + [] == p.ran;
    assert q.ran == p.ran && q.seen == p.seen;
  }

  lemma {:induction false} ExecuteIsFaithful(env: Env, base: nat, p: Progress, call: ToolCall)
    requires ProperNames(env.catalog) && ReadsArePure(env) && Faithful(env, base, p)
    requires call.name in env.catalog && Key(env, call) !in p.seen
    ensures Faithful(env, base, ExecuteTo(env, p, call))
  {
    var q := ExecuteTo(env, p, call);
    var content := Fresh(env, p.ran, call);
    UsesAgreeSnoc(env, p.ran, p.uses, [AsRun(call)], Use(|p.ran|, call, content, true, content !in p.repeat.results));
    RunRemembered(env, base, p.ran, p.seen, call, content);
    RunIsNoRepeat(env, base, p.ran, p.seen, call);
    assert q.ran == p.ran + [AsRun(call)];
    if SaysItReads(env.catalog, call.name) {
      ReadKeepsMemo(env, p.ran, p.seen, call);
      assert q.seen == p.seen[Key(env, call) := content];
    } else {
      assert q.seen == map[];
    }
  }

  lemma {:induction false} DecisionIsFaithful(env: Env, ev: Event, base: nat, p: Progress, d: Proposal)
    requires ProperNames(env.catalog) && ReadsArePure(env) && Faithful(env, base, p)
    requires d.Proposed? ==> d.call.name in env.catalog || d.call.name == REPLY || d.call.name == PLAN
    ensures Faithful(env, base, OnDecision(env, ev, p, d).p)
  {
    if d.Proposed? && d.call.name != REPLY && d.call.name != PLAN {
      UseIsFaithful(env, base, p.(turn := Append(p.turn, CallMessage(d.call))), d.call);
    }
  }

  lemma {:induction false} LoopIsFaithful(env: Env, ev: Event, base: nat, p: Progress)
    requires ProperNames(env.catalog) && ReadsArePure(env) && Faithful(env, base, p)
    ensures Faithful(env, base, LoopTo(env, ev, p))
    decreases Fuel(p)
  {
    if StalledBy(env, p).None? {
      DecisionIsFaithful(env, ev, base, Asking(p), Choice(env, p));
      if Step(env, ev, p).Again? {
        FuelRunsDown(env, ev, p);
        LoopIsFaithful(env, ev, base, Step(env, ev, p).p);
      }
    }
  }

  /** Each result shown is what its call would have returned when it was shown, n calls having run before the loop. */
  ghost predicate ShownIsFresh(env: Env, n: nat, ran: seq<ToolRun>, uses: seq<Use>) {
    forall i :: 0 <= i < |uses| ==>
      n + |RunsOf(uses[..i])| <= |ran| && uses[i].content == Fresh(env, ran[..n + |RunsOf(uses[..i])|], uses[i].call)
  }

  lemma {:induction false} LogIsFresh(env: Env, n: nat, ran: seq<ToolRun>, uses: seq<Use>)
    requires UsesAgree(env, ran, uses) && InStep(n, uses)
    ensures ShownIsFresh(env, n, ran, uses)
  {
    forall i | 0 <= i < |uses|
      ensures n + |RunsOf(uses[..i])| <= |ran|
      ensures uses[i].content == Fresh(env, ran[..n + |RunsOf(uses[..i])|], uses[i].call)
    {
      assert uses[i].at == n + |RunsOf(uses[..i])|;
    }
  }

  lemma StartsFaithful(env: Env, p: Progress)
    requires p.uses == [] && p.seen == map[]
    ensures Faithful(env, |p.ran|, p)
  {
  }

  /**
   Every result of a free tool that the loop adds to the transcript, remembered or not, is
   what running its call at that moment would return, after the calls that had run by then;
   and no (tool, canonical arguments) pair runs twice with nothing but reads in between.
   */
  lemma {:induction false} ResultsAgreeWithReexecution(env: Env, ev: Event, p: Progress)
    requires ProperNames(env.catalog) && ReadsArePure(env)
    requires p.uses == [] && p.seen == map[]
    ensures var q := LoopTo(env, ev, p);
            && Exchanges(env.catalog, q.turn.conv.messages)
               == Exchanges(env.catalog, p.turn.conv.messages) + UseExchanges(q.uses)
            && q.ran == p.ran + RunsOf(q.uses)
            && ShownIsFresh(env, |p.ran|, q.ran, q.uses)
            && NoIdleRepeat(env, |p.ran|, q.ran)
  {
    var q := LoopTo(env, ev, p);
    StartsFaithful(env, p);
    LoopIsFaithful(env, ev, |p.ran|, p);
    TranscriptIsTheLog(env, ev, p);
    LogIsFresh(env, |p.ran|, q.ran, q.uses);
  }
}
