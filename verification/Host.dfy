/**
 The tool catalog: how a tool is classified and named, and what calling it returns
 (internal/mcphost/host.go). The servers behind the tools are one oracle: what a call
 answers, given everything that has run before it.
 */
module Host {
  import opened Wrappers
  import opened Approval

  // MCP tool annotations; a hint may be absent.
  datatype Annotations = Annotations(readOnly: bool, destructive: Option<bool>)

  // verbatim is set only for a trusted server's tool.
  datatype ToolInfo = ToolInfo(annotations: Option<Annotations>, verbatim: bool)

  type Catalog = map<string, ToolInfo>

  datatype Await = Await(question: string, keys: seq<string>)

  // What a server does with a call: it never got there, or it answered.
  datatype Answer = Failed(error: string) | Answered(text: string, isError: bool, await: Option<Await>)

  datatype Outcome = NoResult(error: string) | Result(text: string, isError: bool, verbatim: bool, await: Option<Await>)

  /** A tool of the catalog that says it only reads: the category whose results the loop may remember. */
  predicate SaysItReads(catalog: Catalog, name: string) {
    name in catalog && catalog[name].annotations.Some? && catalog[name].annotations.value.readOnly
  }

  /** What a tool can say of itself: that it only reads, or that it destroys nothing. */
  predicate SaysHarmless(a: Option<Annotations>) {
    a.Some? && (a.value.readOnly || a.value.destructive == Some(false))
  }

  /** An unannotated tool asks first: destructive is the default for anything not read-only. */
  predicate NeedsApproval(catalog: Catalog, name: string) {
    name in catalog &&
    match catalog[name].annotations
    case None => true
    case Some(a) => !a.readOnly && (a.destructive.None? || a.destructive.value)
  }

  function Guarded(catalog: Catalog): set<string> {
    set name | name in catalog && NeedsApproval(catalog, name)
  }

  function VerbatimTools(catalog: Catalog): set<string> {
    set name | name in catalog && catalog[name].verbatim
  }

  /** The tools to ask about are those that do not say they are harmless, so never one whose results are remembered. */
  lemma ReadsAreUnguarded(catalog: Catalog, name: string)
    ensures SaysItReads(catalog, name) ==> !NeedsApproval(catalog, name)
    ensures NeedsApproval(catalog, name) <==> name in catalog && !SaysHarmless(catalog[name].annotations)
    ensures name in catalog ==>
              match catalog[name].annotations
              case None => NeedsApproval(catalog, name) && !SaysItReads(catalog, name)
              case Some(Annotations(readOnly, destructive)) =>
                SaysItReads(catalog, name) == readOnly
                && NeedsApproval(catalog, name) == (!readOnly && destructive != Some(false))
  {
  }

  const NOT_FOUND := "tool not found"

  /** What a call of name returns, when ran is everything that ran before. */
  function Reply(catalog: Catalog, answer: (seq<ToolRun>, ToolRun) -> Answer, ran: seq<ToolRun>, call: ToolRun): Outcome {
    if call.tool !in catalog then NoResult(NOT_FOUND)
    else
      match answer(ran, call)
      case Failed(e) => NoResult(e)
      case Answered(text, true, _) => Result(text, true, false, None)
      case Answered(text, false, await) => Result(text, false, catalog[call.tool].verbatim, await)
  }

  /** The result text the loop hands to the model. */
  function ContentOf(o: Outcome): string {
    match o
    case NoResult(e) => "error: " + e
    case Result(text, true, _, _) => "error: " + text
    case Result(text, false, _, _) => text
  }

  // ---------- Names ----------

  const MAX_NAME := 64

  predicate NameChar(c: char) {
    'a' <= c <= 'z' || 'A' <= c <= 'Z' || '0' <= c <= '9' || c == '_' || c == '-'
  }

  function SafeName(s: string): (r: string)
    ensures |r| == |s| && forall i :: 0 <= i < |s| ==> NameChar(r[i])
  {
    seq(|s|, i requires 0 <= i < |s| => if NameChar(s[i]) then s[i] else '_')
  }

  /** The server prefix is configured by the operator; the tool part is the server's own, made safe. */
  function ExposedName(server: string, tool: string): string {
    var n := server + "_" + SafeName(tool);
    if |n| > MAX_NAME then n[..MAX_NAME] else n
  }

  /** No server can name a tool so that it is taken for one of the loop's own, or for nothing. */
  lemma ExposedNamesAreTheirOwn(server: string, tool: string)
    requires '\0' !in server
    ensures ExposedName(server, tool) != "" && ExposedName(server, tool) != "reply" && ExposedName(server, tool) != "plan"
    ensures '\0' !in ExposedName(server, tool) && |ExposedName(server, tool)| <= 64
    ensures |server| + 1 + |tool| <= 64 && (forall i :: 0 <= i < |tool| ==> NameChar(tool[i])) ==>
              ExposedName(server, tool) == server + "_" + tool
  {
    var n := server + "_" + SafeName(tool);
    assert n[|server|] == '_';
    assert '_' !in "reply" && '_' !in "plan";
    forall i | 0 <= i < |n| ensures n[i] != '\0' {
      if i < |server| {
        assert n[i] == server[i];
      } else if i > |server| {
        assert n[i] == SafeName(tool)[i - |server| - 1];
        assert NameChar(SafeName(tool)[i - |server| - 1]);
      }
    }
    if |n| <= MAX_NAME {
      assert '_' in n;
    }
  }

  /** A catalog of exposed names. */
  ghost predicate ProperNames(catalog: Catalog) {
    forall name :: name in catalog ==> name != "" && name != "reply" && name != "plan" && '\0' !in name
  }

  class ToolHost {
    const catalog: Catalog
    const answer: (seq<ToolRun>, ToolRun) -> Answer
    var ran: seq<ToolRun> // every call that reached a tool

    constructor (catalog: Catalog, answer: (seq<ToolRun>, ToolRun) -> Answer, before: seq<ToolRun>)
      ensures this.catalog == catalog && this.answer == answer && ran == before
    {
      this.catalog := catalog;
      this.answer := answer;
      ran := before;
    }

    method Run(call: ToolRun) returns (o: Outcome)
      modifies this
      ensures o == Reply(catalog, answer, old(ran), call)
      ensures ran == if call.tool in catalog then old(ran) + [call] else old(ran)
      ensures call.tool !in catalog ==> o == NoResult(NOT_FOUND)
      ensures call.tool in catalog ==>
                match answer(old(ran), call)
                case Failed(e) => o == NoResult(e)
                case Answered(text, isError, await) =>
                  o == Result(text, isError, !isError && catalog[call.tool].verbatim, if isError then None else await)
    {
      if call.tool !in catalog {
        return NoResult(NOT_FOUND);
      }
      var raw := answer(ran, call);
      ran := ran + [call];
      match raw {
        case Failed(e) => o := NoResult(e);
        case Answered(text, isError, await) =>
          o := Result(text, isError, false, None);
          if isError {
            return;
          }
          o := o.(verbatim := catalog[call.tool].verbatim, await := await);
      }
    }
  }
}
