/**
 What counts as a yes, and which calls a turn may run because of one
 (internal/agent/loop.go).
 */
module Approval {
  import opened Text
  import opened TaskQueue

  const YES: set<string> := {
    "yes", "y", "yeah", "yep", "yup", "ok", "okay", "sure", "confirm", "confirmed",
    "approve", "approved", "do it", "go ahead", "yes please", "please do"
  }

  predicate IsMark(c: char) {
    c == '.' || c == '!'
  }

  /** A listed phrase, once white space, letter case and trailing marks are taken off. */
  predicate Approved(answer: string) {
    TrimRight(ToLower(TrimSpace(answer)), IsMark) in YES
  }

  /** answer is word, in any letter case, between white space and before trailing dots and bangs. */
  ghost predicate SaysOnly(answer: string, pre: string, word: string, marks: string, post: string) {
    answer == pre + word + marks + post && Every(pre, IsSpace) && Every(post, IsSpace) && Every(marks, IsMark)
    && ToLower(word) in YES
  }

  lemma YesWordsAreTight(w: string)
    requires w in YES
    ensures w != "" && 'a' <= w[0] <= 'z' && 'a' <= w[|w| - 1] <= 'z'
  {
  }

  /** An approval is a bare yes and nothing else. */
  lemma {:induction false} ApprovedIs(answer: string)
    ensures Approved(answer) <==> exists pre, word, marks, post :: SaysOnly(answer, pre, word, marks, post)
  {
    if Approved(answer) {
      ApprovedSaysYes(answer);
    }
    if pre, word, marks, post :| SaysOnly(answer, pre, word, marks, post) {
      SayingYesApproves(answer, pre, word, marks, post);
    }
  }

  lemma {:induction false} ApprovedSaysYes(answer: string)
    requires Approved(answer)
    ensures exists pre, word, marks, post :: SaysOnly(answer, pre, word, marks, post)
  {
    var pre, post := SplitSpace(answer);
    var word, marks := SplitMarks(TrimSpace(answer), TrimRight(ToLower(TrimSpace(answer)), IsMark));
    assert pre + (word + marks) + post == pre + word + marks + post;
    assert SaysOnly(answer, pre, word, marks, post);
  }

  lemma {:induction false} SplitSpace(answer: string) returns (pre: string, post: string)
    ensures answer == pre + TrimSpace(answer) + post && Every(pre, IsSpace) && Every(post, IsSpace)
  {
    pre := TrimLeftCuts(answer, IsSpace);
    post := TrimRightCuts(TrimLeft(answer, IsSpace), IsSpace);
    assert pre + (TrimSpace(answer) + post) == pre + TrimSpace(answer) + post;
  }

  lemma {:induction false} SplitMarks(core: string, w: string) returns (word: string, marks: string)
    requires TrimRight(ToLower(core), IsMark) == w
    ensures core == word + marks && Every(marks, IsMark) && ToLower(word) == w
  {
    var low := TrimRightCuts(ToLower(core), IsMark);
    word, marks := core[..|w|], core[|w|..];
    forall i | 0 <= i < |marks| ensures IsMark(marks[i]) {
      assert Lower(marks[i]) == ToLower(core)[|w| + i] == low[i];
    }
    assert ToLower(word) == w;
  }

  lemma {:induction false} SayingYesApproves(answer: string, pre: string, word: string, marks: string, post: string)
    requires SaysOnly(answer, pre, word, marks, post)
    ensures Approved(answer)
  {
    var w := ToLower(word);
    YesWordsAreTight(w);
    assert Lower(word[0]) == w[0] && Lower(word[|word| - 1]) == w[|w| - 1];
    Tight(answer, pre, word, marks, post);
    assert ToLower(word + marks) == w + marks;
    CutBackTrims(w + marks, IsMark, w, marks);
  }

  lemma {:induction false} Tight(answer: string, pre: string, word: string, marks: string, post: string)
    requires answer == pre + word + marks + post && Every(pre, IsSpace) && Every(post, IsSpace) && Every(marks, IsMark)
    requires word != "" && !IsSpace(word[0]) && !IsSpace(word[|word| - 1])
    ensures TrimSpace(answer) == word + marks
  {
    var core := word + marks;
    assert answer == pre + (core + post) && (core + post)[0] == word[0];
    CutFrontTrims(answer, IsSpace, pre, core + post);
    assert core[|core| - 1] == if marks == "" then word[|word| - 1] else marks[|marks| - 1];
    CutBackTrims(core + post, IsSpace, core, post);
  }

  datatype ToolRun = ToolRun(tool: string, arguments: string)

  /** The event that t carries is a yes to a question about exactly this call. */
  predicate Granted(t: Task, call: ToolRun) {
    t.resume.Some? && t.resume.value.pending.Some? && Approved(t.event.content)
    && call == ToolRun(t.resume.value.pending.value.tool, t.resume.value.pending.value.arguments)
  }

  /**
   The calls one turn of t may run: only the first can be to a guarded tool, and only
   when the user granted it.
   */
  predicate Permitted(guarded: set<string>, t: Task, ran: seq<ToolRun>) {
    forall i :: 0 <= i < |ran| && ran[i].tool in guarded ==> i == 0 && Granted(t, ran[i])
  }
}
