/**
 One task from the queue to its end: history, the loop, then park, or record and done
 (internal/agent/runtime.go).
 */
module Runtime {
  import opened Wrappers
  import opened Events
  import opened TaskQueue
  import opened Approval
  import opened Chat
  import opened Host
  import opened Turns
  import opened LoopSpec
  import opened AgentLoop
  import LoopBounds
  import LoopPairing
  import LoopAuthority
  import LoopStory
  import Sessions

  /** An action as a line of that record. */
  function ActionLine(a: Action): string {
    (if a.ok then "\U{2705} " else "\U{274C} ") + a.tool + ": " + a.result
  }

  function ProblemLine(wording: Detail -> string, p: Problem): string {
    wording(p.detail) + if p.recovered then " (recovered)" else ""
  }

  function ActionLines(actions: seq<Action>): (r: seq<string>)
    ensures |r| == |actions| && forall i :: 0 <= i < |actions| ==> r[i] == ActionLine(actions[i])
  {
    seq(|actions|, i requires 0 <= i < |actions| => ActionLine(actions[i]))
  }

  function ProblemLines(wording: Detail -> string, ps: seq<Problem>): (r: seq<string>)
    ensures |r| == |ps| && forall i :: 0 <= i < |ps| ==> r[i] == ProblemLine(wording, ps[i])
  {
    seq(|ps|, i requires 0 <= i < |ps| => ProblemLine(wording, ps[i]))
  }

  /** The record of a turn for the turns after it; none if there is nothing in it but a reply. */
  function OutcomeOf(wording: Detail -> string, turn: TurnView): Option<Sessions.Ending> {
    var o := Sessions.Ending(
      if turn.await.Some? then Sessions.ParkedStatus else if turn.reply == "" then Sessions.NoReply else Sessions.Replied,
      turn.steps, ActionLines(turn.actions), ProblemLines(wording, turn.problems));
    if Sessions.Notable(Some(o)) then Some(o) else None
  }

  /** A later turn is told of everything that was changed and everything that failed. */
  lemma OutcomeHidesNothing(wording: Detail -> string, turn: TurnView)
    ensures OutcomeOf(wording, turn).None? <==> turn.actions == [] && turn.problems == [] && turn.await.None? && turn.reply != ""
    ensures OutcomeOf(wording, turn).Some? ==>
              var o := OutcomeOf(wording, turn).value;
              && o.steps == turn.steps && |o.acted| == |turn.actions| && |o.problems| == |turn.problems|
              && (o.status == Sessions.Replied <==> turn.await.None? && turn.reply != "")
              && (o.status == Sessions.ParkedStatus <==> turn.await.Some?)
              && (forall i :: 0 <= i < |turn.actions| ==>
                                o.acted[i] == (if turn.actions[i].ok then "\U{2705} " else "\U{274C} ")
                                              + turn.actions[i].tool + ": " + turn.actions[i].result)
              && (forall i :: 0 <= i < |turn.problems| ==>
                                o.problems[i] == wording(turn.problems[i].detail)
                                                 + if turn.problems[i].recovered then " (recovered)" else "")
    ensures forall a :: a in turn.actions ==>
              OutcomeOf(wording, turn).Some? && ActionLine(a) in OutcomeOf(wording, turn).value.acted
    ensures forall p :: p in turn.problems ==>
              OutcomeOf(wording, turn).Some? && ProblemLine(wording, p) in OutcomeOf(wording, turn).value.problems
  {
    var acted, problems := ActionLines(turn.actions), ProblemLines(wording, turn.problems);
    assert |acted| == |turn.actions| && |problems| == |turn.problems|;
    forall a | a in turn.actions ensures ActionLine(a) in acted {
      var i :| 0 <= i < |turn.actions| && turn.actions[i] == a;
      assert acted[i] == ActionLine(a);
    }
    forall p | p in turn.problems ensures ProblemLine(wording, p) in problems {
      var i :| 0 <= i < |turn.problems| && turn.problems[i] == p;
      assert problems[i] == ProblemLine(wording, p);
    }
  }

  /** How a turn stands before its first message: on history, with what ran and was prompted before it. */
  function Starting(systemPrompt: string, history: seq<Message>, ran: seq<ToolRun>, prompts: seq<seq<Message>>): Progress {
    Progress(TurnView(Opening(systemPrompt, history), "", None, None, [], [], [], 0), ran, map[], NO_REPEATS, [], prompts, 0, 0)
  }

  function Addressed(reply: string, kind: Events.Kind, mention: string): string {
    if reply != "" && kind == Timer && mention != "" then mention + " " + reply else reply
  }

  /** What a finished turn leaves to its person's session. */
  function SavedExchange(wording: Detail -> string, t: Task, turn: TurnView, now: int): Sessions.Exchange {
    Sessions.Exchange(now, t.event.origin.connector, t.event.origin.channel, t.event.actor.name,
                      LoopPairing.SavedMessages(turn.conv, turn.reply), OutcomeOf(wording, turn))
  }

  function WithExchange(recorded: map<string, seq<Sessions.Exchange>>, person: string, ex: Sessions.Exchange)
    : map<string, seq<Sessions.Exchange>>
  {
    if person == "" then recorded
    else recorded[person := Sessions.StoryIn(recorded, person) + [ex.(messages := Sessions.ShortenedAll(ex.messages))]]
  }

  /** Each of these prompts starts with the system prompt, if there is one, the history, and the user's words. */
  ghost predicate TellFrom(systemPrompt: string, history: seq<Message>, t: Task, prompts: seq<seq<Message>>) {
    exists words :: LoopStory.UsersWords(t, words)
      && var opening := (if systemPrompt != "" then [Say(System, systemPrompt)] else []) + history + words;
         forall i :: 0 <= i < |prompts| ==> opening <= prompts[i]
  }

  lemma {:induction false} TurnTells(env: Env, t: Task, systemPrompt: string, history: seq<Message>,
                                     ran: seq<ToolRun>, prompts: seq<seq<Message>>)
    requires ProperNames(env.catalog)
    ensures var q := HandleTo(env, t, Starting(systemPrompt, history, ran, prompts));
            prompts <= q.prompts && TellFrom(systemPrompt, history, t, q.prompts[|prompts|..])
  {
    var p := Starting(systemPrompt, history, ran, prompts);
    var q := HandleTo(env, t, p);
    var words, resolved := LoopStory.PromptsTellTheStory(env, t, p);
    var opening := (if systemPrompt != "" then [Say(System, systemPrompt)] else []) + history + words;
    assert p.turn.conv.messages + words == opening;
    forall i | 0 <= i < |q.prompts[|prompts|..]| ensures opening <= q.prompts[|prompts|..][i] {
      var prompt := q.prompts[|prompts| + i];
      var whole := opening + resolved + [Say(User, env.directive.value)];
      assert whole <= prompt && opening <= whole;
    }
  }

  /** Of a person heard from less than idle ago, history is the newest exchanges that fit, the last one among them. */
  ghost predicate Recalls(line: Sessions.Ending -> string, idle: int, sessions: map<string, Sessions.Session>,
                          person: string, now: int, history: seq<Message>)
  {
    person != "" && person in sessions && sessions[person].exchanges != []
    && now - Sessions.LastOf(sessions[person].exchanges).at < idle ==>
      && (exists k: nat :: Sessions.Fits(sessions[person].exchanges, k)
                           && history == Sessions.RetoldAll(line, sessions[person].exchanges[k..]))
      && Sessions.EndsWith(line, Sessions.LastOf(sessions[person].exchanges), history)
  }

  class Worker {
    const queue: Queue
    const store: Sessions.Store
    const loop: Loop
    const wording: Detail -> string

    constructor (queue: Queue, store: Sessions.Store, loop: Loop, wording: Detail -> string)
      ensures this.queue == queue && this.store == store && this.loop == loop && this.wording == wording
    {
      this.queue, this.store, this.loop, this.wording := queue, store, loop, wording;
    }

    /** What holds between turns. */
    ghost predicate Sound()
      reads store, loop.model
    {
      && store.Valid() && Sessions.AllPaired(store.sessions)
      && loop.Wired() && LoopPairing.PromptsPaired(loop.model.prompts)
    }

    /** The history of the person the event is from: whole recorded exchanges, or nothing. */
    method RecentHistory(person: string, now: int) returns (history: seq<Message>)
      requires Sound()
      modifies store
      ensures Sound() && Paired(history) && store.recorded == old(store.recorded)
      ensures person == "" ==> history == []
      ensures Recalls(store.line, store.idle, old(store.sessions), person, now, history)
    {
      history := store.History(person, now);
      if person != "" && person in store.sessions && store.sessions[person].exchanges != [] {
        ghost var exs := store.sessions[person].exchanges;
        ghost var k: nat :| Sessions.Fits(exs, k) && history == Sessions.RetoldAll(store.line, exs[k..]);
        Sessions.RetoldIsPaired(store.line, exs[k..]);
      }
    }

    /**
     Runs one task as its turn, from a well-paired history. The task leaves the queue parked
     with the question, keys and call the turn left, and then nothing of the turn is saved or
     delivered; or done, and then the session gains the exchange. Either way every prompt is
     well paired, the calls made are ones the pipeline permits, and prompts are bounded.
     */
    method Run(task: Task, systemPrompt: string, mention: string, now: int) returns (ghost history: seq<Message>)
      requires Sound() && LoopPairing.ResumesAToolCall(task)
      modifies queue, queue.drive, store, loop.host, loop.model
      ensures Sound() && Paired(history)
      ensures Recalls(store.line, store.idle, old(store.sessions), task.event.actor.person, now, history)
      ensures old(loop.model.prompts) <= loop.model.prompts
      ensures TellFrom(systemPrompt, history, task, loop.model.prompts[|old(loop.model.prompts)|..])
      ensures old(loop.host.ran) <= loop.host.ran
      ensures Permitted(Guarded(loop.env.catalog), task, LoopAuthority.Since(loop.host.ran, |old(loop.host.ran)|))
      ensures |loop.model.prompts| <= |old(loop.model.prompts)| + 192 * 1024 + 4
      ensures var q := HandleTo(loop.env, task,
                                Starting(systemPrompt, history, old(loop.host.ran), old(loop.model.prompts)));
              && loop.host.ran == q.ran && loop.model.prompts == q.prompts
              && match q.turn.await
                 case Some(a) =>
                   var p := NewParked(task, a.question, a.keys, q.turn.pending, now);
                   && queue.View() == DoneTo(ParkInsertTo(ParkWriteTo(old(queue.View()), p), p), task)
                   && (p.pending.Some? ==> p.pending.value.tool in Guarded(loop.env.catalog))
                   && store.recorded == old(store.recorded)
                 case None =>
                   var sent := q.turn.(reply := Addressed(q.turn.reply, task.event.kind, mention));
                   && queue.View() == DoneTo(old(queue.View()), task)
                   && store.recorded == WithExchange(old(store.recorded), task.event.actor.person,
                                                     SavedExchange(wording, task, sent, now))
    {
      var past := RecentHistory(task.event.actor.person, now);
      history := past;
      var t := TakeTurn(task, systemPrompt, past);
      End(t, mention, now);
    }

    /** Parks the task or finishes it, as its turn ended. */
    method End(t: Turn, mention: string, now: int)
      requires Sound() && LoopPairing.Finished(t.conversation.View())
      modifies queue, queue.drive, store, t`reply
      ensures Sound()
      ensures match old(t.await)
              case Some(a) =>
                var p := NewParked(t.task, a.question, a.keys, old(t.pending), now);
                && queue.View() == DoneTo(ParkInsertTo(ParkWriteTo(old(queue.View()), p), p), t.task)
                && store.recorded == old(store.recorded)
              case None =>
                var sent := old(t.View()).(reply := Addressed(old(t.reply), t.task.event.kind, mention));
                && queue.View() == DoneTo(old(queue.View()), t.task)
                && store.recorded == WithExchange(old(store.recorded), t.task.event.actor.person,
                                                  SavedExchange(wording, t.task, sent, now))
    {
      if t.await.Some? {
        queue.Park(t.task, t.await.value.question, t.await.value.keys, t.pending, now);
        return;
      }
      AddressUser(t, mention);
      Record(t, now);
      queue.Done(t.task);
    }

    /** The turn itself, from a well-paired history. */
    method TakeTurn(task: Task, systemPrompt: string, history: seq<Message>) returns (t: Turn)
      requires Sound() && LoopPairing.ResumesAToolCall(task) && Paired(history)
      modifies loop.host, loop.model
      ensures Sound() && fresh(t) && fresh(t.conversation) && t.task == task
      ensures old(loop.host.ran) <= loop.host.ran
      ensures Permitted(Guarded(loop.env.catalog), task, LoopAuthority.Since(loop.host.ran, |old(loop.host.ran)|))
      ensures |loop.model.prompts| <= |old(loop.model.prompts)| + 192 * 1024 + 4
      ensures old(loop.model.prompts) <= loop.model.prompts
      ensures TellFrom(systemPrompt, history, task, loop.model.prompts[|old(loop.model.prompts)|..])
      ensures LoopPairing.Finished(t.conversation.View())
      ensures t.pending.Some? ==> t.pending.value.tool in Guarded(loop.env.catalog)
      ensures var q := HandleTo(loop.env, task,
                                Starting(systemPrompt, history, old(loop.host.ran), old(loop.model.prompts)));
              t.View() == q.turn && loop.host.ran == q.ran && loop.model.prompts == q.prompts
    {
      var conv := new Conversation(systemPrompt, history);
      LoopPairing.OpeningIsTidy(systemPrompt, history);
      t := new Turn(task, conv);
      ghost var start := loop.Entry(t);
      assert start == Starting(systemPrompt, history, loop.host.ran, loop.model.prompts);
      LoopPairing.TurnIsPaired(loop.env, task, start);
      LoopAuthority.TurnRunsOnlyPermittedCalls(loop.env, task, start);
      LoopBounds.TurnIsBounded(loop.env, task, start);
      TurnTells(loop.env, task, systemPrompt, history, loop.host.ran, loop.model.prompts);
      loop.Handle(t);
    }

    /** A reply to a timer starts with a mention, if there is one. */
    method AddressUser(t: Turn, mention: string)
      modifies t`reply
      ensures t.reply == Addressed(old(t.reply), t.task.event.kind, mention)
      ensures t.reply == old(t.reply) || t.reply == mention + " " + old(t.reply)
      ensures t.reply != old(t.reply) <==> old(t.reply) != "" && t.task.event.kind == Timer && mention != ""
    {
      if t.reply == "" || t.task.event.kind != Timer {
        return;
      }
      if mention != "" {
        t.reply := mention + " " + t.reply;
      }
    }

    /** The session gains the turn, ending in the text that was sent. */
    method Record(t: Turn, now: int)
      requires Sound() && LoopPairing.Finished(t.conversation.View())
      modifies store
      ensures Sound()
      ensures var person, ex := t.task.event.actor.person, SavedExchange(wording, t.task, t.View(), now);
              && (person != "" ==> store.sessions == Sessions.Recorded(old(store.sessions), person, ex))
              && store.recorded == WithExchange(old(store.recorded), person, ex)
      ensures var ev := t.task.event;
              ev.actor.person != "" ==>
                && ev.actor.person in store.sessions
                && var last := Sessions.LastOf(store.sessions[ev.actor.person].exchanges);
                   && last.at == now && last.connector == ev.origin.connector && last.channel == ev.origin.channel
                   && last.userName == ev.actor.name && last.outcome == OutcomeOf(wording, t.View())
    {
      var saved := t.conversation.ThisTurn();
      var msgs := WithoutReplyCalls(saved);
      msgs := msgs + [Say(Assistant, LoopPairing.NoReplyText(t.reply))];
      LoopPairing.SavedIsPaired(t.conversation.View(), t.reply);
      var ev := t.task.event;
      var outcome := Outcome(t);
      var ex := Sessions.Exchange(now, ev.origin.connector, ev.origin.channel, ev.actor.name, msgs, outcome);
      Sessions.RecordedIsPaired(store.sessions, ev.actor.person, ex);
      store.Record(ev.actor.person, ex);
    }

    method WithoutReplyCalls(saved: seq<Message>) returns (msgs: seq<Message>)
      ensures msgs == LoopPairing.DropReplyCalls(saved)
    {
      msgs := [];
      for i := 0 to |saved|
        invariant msgs + LoopPairing.DropReplyCalls(saved[i..]) == LoopPairing.DropReplyCalls(saved)
      {
        assert saved[i..][1..] == saved[i + 1..];
        if !LoopPairing.IsReplyCall(saved[i]) {
          msgs := msgs + [saved[i]];
        }
      }
      assert saved[|saved|..] == [];
    }

    method Outcome(t: Turn) returns (o: Option<Sessions.Ending>)
      ensures o == OutcomeOf(wording, t.View())
    {
      var acted, problems := [], [];
      for i := 0 to |t.actions|
        invariant |acted| == i && forall j :: 0 <= j < i ==> acted[j] == ActionLine(t.actions[j])
      {
        acted := acted + [ActionLine(t.actions[i])];
      }
      for i := 0 to |t.problems|
        invariant |problems| == i && forall j :: 0 <= j < i ==> problems[j] == ProblemLine(wording, t.problems[j])
      {
        problems := problems + [ProblemLine(wording, t.problems[i])];
      }
      var status := Sessions.Replied;
      if t.await.Some? {
        status := Sessions.ParkedStatus;
      } else if t.reply == "" {
        status := Sessions.NoReply;
      }
      assert acted == ActionLines(t.actions) && problems == ProblemLines(wording, t.problems);
      var e := Sessions.Ending(status, t.steps, acted, problems);
      o := if Sessions.Notable(Some(e)) then Some(e) else None;
    }
  }
}
