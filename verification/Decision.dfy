/**
 The schema that constrains a model's output and the parser that reads it back
 (internal/llm/openai/schema.go, internal/llm/openai/provider.go).
 */
module Decision {
  import opened Wrappers
  import opened JsonValues
  import opened Schema

  // ---------- Documents ----------

  // JSON text as parsed: members in order, repeats and all.
  datatype Doc =
    | DNull
    | DBool(b: bool)
    | DNum(n: real)
    | DStr(s: Word)
    | DArr(a: seq<Doc>)
    | DObj(members: seq<Member>)

  datatype Member = Member(name: Word, value: Doc)

  /** The value a document denotes. */
  function Value(d: Doc): Json
    decreases d
  {
    match d
    case DNull => Null
    case DBool(b) => Bool(b)
    case DNum(n) => Num(n)
    case DStr(s) => Str(s)
    case DArr(a) => Arr(Values(a))
    case DObj(ms) => Obj(ValueMap(ms))
  }

  function Values(a: seq<Doc>): (r: seq<Json>)
    ensures |r| == |a|
    decreases a
  {
    if a == [] then [] else [Value(a[0])] + Values(a[1..])
  }

  function ValueMap(ms: seq<Member>): (r: map<Word, Json>)
    ensures forall k :: k in r <==> exists i :: 0 <= i < |ms| && ms[i].name == k
    decreases ms
  {
    if ms == [] then map[]
    else
      var rest := ValueMap(ms[1..]);
      if ms[0].name in rest then rest else rest[ms[0].name := MemberValueOf(ms[0])]
  }

  function MemberValueOf(m: Member): Json
    decreases m
  {
    Value(m.value)
  }

  ghost predicate DistinctNames(ms: seq<Member>) {
    forall i, j :: 0 <= i < j < |ms| ==> ms[i].name != ms[j].name
  }

  /** No name appears twice at the two levels the parser reads. */
  ghost predicate Unambiguous(d: Doc) {
    d.DObj? ==>
      DistinctNames(d.members)
      && forall i :: 0 <= i < |d.members| && d.members[i].value.DObj? ==> DistinctNames(d.members[i].value.members)
  }

  lemma {:induction false} MemberValue(ms: seq<Member>, i: nat)
    requires DistinctNames(ms) && i < |ms|
    ensures ms[i].name in ValueMap(ms) && ValueMap(ms)[ms[i].name] == Value(ms[i].value)
  {
    if i == 0 {
      forall j | 0 <= j < |ms[1..]| ensures ms[1..][j].name != ms[0].name {
      }
    } else {
      MemberValue(ms[1..], i - 1);
    }
  }

  /** Every value has a document. */
  lemma {:induction false} DocOf(v: Json) returns (d: Doc)
    ensures Value(d) == v
    decreases v
  {
    match v {
      case Null => d := DNull;
      case Bool(b) => d := DBool(b);
      case Num(n) => d := DNum(n);
      case Str(s) => d := DStr(s);
      case Arr(a) =>
        var ds := DocsOf(a);
        d := DArr(ds);
      case Obj(m) =>
        var ms: seq<Member> := [];
        var rest := m.Keys;
        while rest != {}
          invariant rest <= m.Keys
          invariant ValueMap(ms) == map k | k in m && k !in rest :: m[k]
          decreases rest
        {
          var k :| k in rest;
          var dk := DocOf(m[k]);
          var ms' := [Member(k, dk)] + ms;
          assert ms'[0].name == k && ms'[1..] == ms && k !in ValueMap(ms);
          ms, rest := ms', rest - {k};
        }
        d := DObj(ms);
    }
  }

  lemma {:induction false} DocsOf(a: seq<Json>) returns (ds: seq<Doc>)
    ensures Values(ds) == a
    decreases a
  {
    ds := [];
    if a != [] {
      var d := DocOf(a[0]);
      var rest := DocsOf(a[1..]);
      ds := [d] + rest;
      assert ds[1..] == rest;
    }
  }

  // ---------- The generated schema ----------

  // A tool's input schema as sent by its server: nothing, unreadable, or a JSON value.
  datatype Input = Absent | Unreadable | Given(schema: Json)

  datatype ToolSpec = ToolSpec(name: Word, input: Input)

  /** Go decodes a schema into a map: null counts as none, anything but an object fails. */
  function InputMap(input: Input): Option<Json> {
    match input
    case Absent => Some(Obj(map[]))
    case Unreadable => None
    case Given(Obj(m)) => Some(Obj(m))
    case Given(Null) => Some(Obj(map[]))
    case Given(_) => None
  }

  /** A schema that names no type is for an object. */
  function Typed(clean: Json): Json
    requires clean.Obj?
  {
    if Type in clean.m then clean else Obj(clean.m[Type := Str(Object)])
  }

  ghost predicate ToolSchema(input: Input, out: Json) {
    InputMap(input).Some? && exists clean ::
      Simplified(InputMap(input).value, clean)
      && out == Typed(clean)
  }

  function Closed(props: map<Word, Json>, required: seq<Json>): Json {
    Obj(map[Type := Str(Object), Properties := Obj(props), Required := Arr(required), AdditionalProperties := Bool(false)])
  }

  function CallProperties(name: Word, args: Json): (m: map<Word, Json>)
    ensures m.Keys == {Tool, Arguments} && m[Tool] == Obj(map[Const := Str(name)]) && m[Arguments] == args
  {
    map[Tool := Obj(map[Const := Str(name)]), Arguments := args]
  }

  function Branch(name: Word, args: Json): Json {
    Closed(CallProperties(name, args), [Str(Tool), Str(Arguments)])
  }

  function CallSchema(branches: seq<Json>): Json
    requires branches != []
  {
    if |branches| > 1 then Obj(map[AnyOf := Arr(branches)]) else branches[0]
  }

  function RootSchema(branches: seq<Json>): Json
    requires branches != []
  {
    Closed(map[Call := CallSchema(branches)], [Str(Call)])
  }

  /** branches[i] constrains a call of tools[i], with args[i] for its arguments. */
  ghost predicate Branches(tools: seq<ToolSpec>, args: seq<Json>, branches: seq<Json>) {
    |branches| == |args| == |tools|
    && forall i :: 0 <= i < |tools| ==> ToolBranch(tools[i], args[i], branches[i])
  }

  ghost predicate ToolBranch(t: ToolSpec, args: Json, branch: Json) {
    ToolSchema(t.input, args) && branch == Branch(t.name, args)
  }

  predicate Readable(tools: seq<ToolSpec>) {
    forall i :: 0 <= i < |tools| ==> InputMap(tools[i].input).Some?
  }

  lemma {:induction false} BranchesSnoc(
      tools: seq<ToolSpec>, args: seq<Json>, branches: seq<Json>, t: ToolSpec, a: Json, b: Json)
    requires Branches(tools, args, branches) && ToolBranch(t, a, b)
    ensures Branches(tools + [t], args + [a], branches + [b])
  {
  }

  lemma {:induction false} ReadableSnoc(tools: seq<ToolSpec>, t: ToolSpec)
    ensures Readable(tools + [t]) <==> Readable(tools) && InputMap(t.input).Some?
  {
    assert (tools + [t])[..|tools|] == tools && (tools + [t])[|tools|] == t;
    if Readable(tools + [t]) {
      forall i | 0 <= i < |tools| ensures InputMap(tools[i].input).Some? {
        assert (tools + [t])[i] == tools[i];
      }
    }
  }

  method SanitizeTool(input: Input) returns (r: Result<Json, string>)
    ensures r.Ok? <==> InputMap(input).Some?
    ensures r.Err? <==> input.Unreadable? || (input.Given? && !input.schema.Obj? && !input.schema.Null?)
    ensures r.Ok? ==> ToolSchema(input, r.value)
    ensures r.Ok? ==> r.value.Obj? && Type in r.value.m && (r.value.m[Type] == Str(Object)
                                                           || (input.Given? && Type in input.schema.m && r.value.m[Type] == input.schema.m[Type]))
  {
    var m := InputMap(input);
    if m.None? {
      return Err("input schema is not an object");
    }
    var out := Sanitize(m.value);
    if Type !in out.m {
      return Ok(Obj(out.m[Type := Str(Object)]));
    }
    r := Ok(out);
  }

  /** Fails exactly when some input schema cannot be read; the tools are never empty (provider.go checks). */
  method DecisionSchema(tools: seq<ToolSpec>) returns (r: Result<Json, string>, ghost args: seq<Json>, ghost branches: seq<Json>)
    requires tools != []
    ensures r.Ok? <==> Readable(tools)
    ensures r.Ok? ==> Branches(tools, args, branches) && branches != [] && r.value == RootSchema(branches)
  {
    var built: seq<Json> := [];
    args, branches := [], [];
    for i := 0 to |tools|
      invariant Branches(tools[..i], args, built) && Readable(tools[..i])
    {
      var a := SanitizeTool(tools[i].input);
      assert tools[..i + 1] == tools[..i] + [tools[i]];
      if a.Err? {
        assert InputMap(tools[i].input).None?;
        return Err(a.error), args, branches;
      }
      var branch := Branch(tools[i].name, a.value);
      BranchesSnoc(tools[..i], args, built, tools[i], a.value, branch);
      ReadableSnoc(tools[..i], tools[i]);
      built, args := built + [branch], args + [a.value];
    }
    assert tools[..|tools|] == tools;
    branches := built;
    r := Ok(RootSchema(built));
  }

  // ---------- The parser ----------

  datatype NativeCall = NativeCall(id: string, name: Word, arguments: string)

  datatype Content = NotJson | Text(doc: Doc)

  datatype Response = Response(native: seq<NativeCall>, content: Content)

  // A native call's arguments are text as sent; a document's are the text of its object.
  datatype CallArguments = RawText(text: string) | Document(doc: Doc)

  datatype ToolCall = ToolCall(id: string, name: Word, arguments: CallArguments)

  // What the parser decodes content into; the zero value is an empty name and no arguments.
  datatype Fields = Fields(tool: Word, arguments: Option<Doc>)

  const ZERO: Fields := Fields(Other(""), None)

  /** encoding/json takes an exact field name first, then one equal under case folding. */
  function FieldFor(k: Word, fold: Word -> Word): Word {
    if k == Call || k == Tool || k == Arguments then k else fold(k)
  }

  /** None is a type mismatch, which encoding/json reports after reading on. */
  function DecodeCall(ms: seq<Member>, f: Fields, fold: Word -> Word): Option<Fields>
    decreases |ms|
  {
    if ms == [] then Some(f)
    else
      match FieldFor(ms[0].name, fold)
      case Tool =>
        (match ms[0].value
         case DStr(w) => DecodeCall(ms[1..], f.(tool := w), fold)
         case DNull => DecodeCall(ms[1..], f, fold)
         case _ => None)
      case Arguments => DecodeCall(ms[1..], f.(arguments := Some(ms[0].value)), fold)
      case _ => DecodeCall(ms[1..], f, fold)
  }

  function DecodeTop(ms: seq<Member>, f: Fields, fold: Word -> Word): Option<Fields>
    decreases |ms|
  {
    if ms == [] then Some(f)
    else if FieldFor(ms[0].name, fold) == Call then
      match ms[0].value
      case DObj(inner) =>
        (match DecodeCall(inner, f, fold)
         case Some(g) => DecodeTop(ms[1..], g, fold)
         case None => None)
      case DNull => DecodeTop(ms[1..], f, fold)
      case _ => None
    else DecodeTop(ms[1..], f, fold)
  }

  function Decode(content: Content, fold: Word -> Word): Option<Fields> {
    match content
    case NotJson => None
    case Text(DObj(ms)) => DecodeTop(ms, ZERO, fold)
    case Text(DNull) => Some(ZERO)
    case Text(_) => None
  }

  predicate Offered(tools: seq<ToolSpec>, name: Word) {
    exists i :: 0 <= i < |tools| && tools[i].name == name
  }

  /** The content names an offered tool and carries an object for it. */
  ghost predicate Accepts(tools: seq<ToolSpec>, content: Content, fold: Word -> Word) {
    var f := Decode(content, fold);
    f.Some? && Offered(tools, f.value.tool) && f.value.arguments.Some? && f.value.arguments.value.DObj?
  }

  /** The value of the first member named k. */
  function Get(ms: seq<Member>, k: Word): Option<Doc> {
    if ms == [] then None else if ms[0].name == k then Some(ms[0].value) else Get(ms[1..], k)
  }

  /** No name is taken for a field but the field's own. */
  ghost predicate OwnFields(ms: seq<Member>, fold: Word -> Word) {
    forall i :: 0 <= i < |ms| && ms[i].name !in {Call, Tool, Arguments} ==> fold(ms[i].name) !in {Call, Tool, Arguments}
  }

  /** What content calls: a tool by name with an object of arguments, in the object under call. */
  ghost predicate Calls(d: Doc, name: Word, args: Doc) {
    d.DObj? && match Get(d.members, Call)
               case Some(DObj(inner)) => Get(inner, Tool) == Some(DStr(name)) && Get(inner, Arguments) == Some(args) && args.DObj?
               case _ => false
  }

  lemma {:induction false} RestHasNo(ms: seq<Member>)
    requires ms != [] && DistinctNames(ms)
    ensures DistinctNames(ms[1..]) && Get(ms[1..], ms[0].name) == None
  {
    forall i | 0 <= i < |ms[1..]| ensures ms[1..][i].name != ms[0].name {
      assert ms[1..][i] == ms[i + 1];
    }
    GetsNothing(ms[1..], ms[0].name);
  }

  lemma {:induction false} GetsNothing(ms: seq<Member>, k: Word)
    requires forall i :: 0 <= i < |ms| ==> ms[i].name != k
    ensures Get(ms, k) == None
  {
    if ms != [] {
      GetsNothing(ms[1..], k);
    }
  }

  lemma {:induction false} DecodeCallIs(ms: seq<Member>, f: Fields, fold: Word -> Word)
    requires DistinctNames(ms) && OwnFields(ms, fold)
    ensures var t, a := Get(ms, Tool), Get(ms, Arguments);
            DecodeCall(ms, f, fold)
            == if t.Some? && !t.value.DStr? && !t.value.DNull? then None
               else Some(Fields(if t.Some? && t.value.DStr? then t.value.s else f.tool, if a.Some? then a else f.arguments))
    decreases |ms|
  {
    if ms != [] {
      RestHasNo(ms);
      var rest := ms[1..];
      assert forall i :: 0 <= i < |rest| ==> rest[i] == ms[i + 1];
      match ms[0].name {
        case Tool =>
          DecodeCallIs(rest, if ms[0].value.DStr? then f.(tool := ms[0].value.s) else f, fold);
        case Arguments => DecodeCallIs(rest, f.(arguments := Some(ms[0].value)), fold);
        case _ => DecodeCallIs(rest, f, fold);
      }
    }
  }

  lemma {:induction false} DecodeTopIs(ms: seq<Member>, f: Fields, fold: Word -> Word)
    requires DistinctNames(ms) && OwnFields(ms, fold)
    ensures var c := Get(ms, Call);
            DecodeTop(ms, f, fold)
            == if c.None? || c.value.DNull? then Some(f)
               else if c.value.DObj? then DecodeCall(c.value.members, f, fold) else None
    decreases |ms|
  {
    if ms != [] {
      RestHasNo(ms);
      var rest := ms[1..];
      assert forall i :: 0 <= i < |rest| ==> rest[i] == ms[i + 1];
      if ms[0].name == Call {
        if ms[0].value.DObj? && DecodeCall(ms[0].value.members, f, fold).Some? {
          DecodeTopIs(rest, DecodeCall(ms[0].value.members, f, fold).value, fold);
        } else {
          DecodeTopIs(rest, f, fold);
        }
      } else {
        DecodeTopIs(rest, f, fold);
      }
    }
  }

  /**
   What the parser makes of any document without repeated or oddly cased names, valid or not:
   it is accepted exactly if it calls an offered tool with an object, and as that call.
   */
  lemma {:induction false} AcceptsWhatCalls(tools: seq<ToolSpec>, d: Doc, fold: Word -> Word)
    requires Unambiguous(d) && (d.DObj? ==> OwnFields(d.members, fold))
    requires d.DObj? ==> forall i :: 0 <= i < |d.members| && d.members[i].value.DObj? ==> OwnFields(d.members[i].value.members, fold)
    requires !Offered(tools, Other(""))
    ensures Accepts(tools, Text(d), fold) <==> exists name, args :: Calls(d, name, args) && Offered(tools, name)
    ensures forall name, args :: Calls(d, name, args) ==> Decode(Text(d), fold) == Some(Fields(name, Some(args)))
  {
    if d.DObj? {
      DecodeTopIs(d.members, ZERO, fold);
      var c := Get(d.members, Call);
      if c.Some? && c.value.DObj? {
        GetsAMember(d.members, Call);
        DecodeCallIs(c.value.members, ZERO, fold);
      }
      if Accepts(tools, Text(d), fold) {
        var f := Decode(Text(d), fold).value;
        assert Calls(d, f.tool, f.arguments.value);
      }
    }
  }

  lemma {:induction false} GetsAMember(ms: seq<Member>, k: Word)
    requires Get(ms, k).Some?
    ensures exists i :: 0 <= i < |ms| && ms[i].name == k && ms[i].value == Get(ms, k).value
  {
    if ms[0].name == k {
      assert ms[0].value == Get(ms, k).value;
    } else {
      GetsAMember(ms[1..], k);
      var i :| 0 <= i < |ms[1..]| && ms[1..][i].name == k && ms[1..][i].value == Get(ms[1..], k).value;
      assert ms[i + 1] == ms[1..][i];
    }
  }

  method ParseDecision(m: Response, tools: seq<ToolSpec>, freshId: string, fold: Word -> Word)
      returns (r: Result<ToolCall, string>)
    ensures r.Ok? ==> Offered(tools, r.value.name)
    ensures m.native != [] ==>
              var c := m.native[0];
              && (r.Ok? <==> Offered(tools, c.name))
              && (r.Ok? ==> r.value == ToolCall(if c.id == "" then freshId else c.id, c.name, RawText(c.arguments)))
    ensures m.native == [] ==>
              && (r.Ok? <==> Accepts(tools, m.content, fold))
              && (r.Ok? ==> var f := Decode(m.content, fold).value;
                            r.value == ToolCall(freshId, f.tool, Document(f.arguments.value)))
  {
    var offered: set<Word> := {};
    for i := 0 to |tools|
      invariant forall name :: name in offered <==> Offered(tools[..i], name)
    {
      offered := offered + {tools[i].name};
      assert forall name :: Offered(tools[..i + 1], name) <==> Offered(tools[..i], name) || name == tools[i].name by {
        forall name ensures Offered(tools[..i + 1], name) <==> Offered(tools[..i], name) || name == tools[i].name {
          OfferedSnoc(tools, i, name);
        }
      }
    }
    assert tools[..|tools|] == tools;
    if |m.native| > 0 {
      var tc := m.native[0];
      if tc.name !in offered {
        return Err("native call to an unoffered tool");
      }
      return Ok(ToolCall(if tc.id == "" then freshId else tc.id, tc.name, RawText(tc.arguments)));
    }
    var out := Decode(m.content, fold);
    if out.None? {
      return Err("not a call");
    }
    if out.value.tool !in offered {
      return Err("unoffered tool");
    }
    if out.value.arguments.None? || !out.value.arguments.value.DObj? {
      return Err("arguments are not an object");
    }
    r := Ok(ToolCall(freshId, out.value.tool, Document(out.value.arguments.value)));
  }

  lemma {:induction false} OfferedSnoc(tools: seq<ToolSpec>, i: nat, name: Word)
    requires i < |tools|
    ensures Offered(tools[..i + 1], name) <==> Offered(tools[..i], name) || name == tools[i].name
  {
    var a, b := tools[..i + 1], tools[..i];
    if Offered(b, name) {
      var j :| 0 <= j < |b| && b[j].name == name;
      assert a[j].name == name;
    }
    if name == tools[i].name {
      assert a[i].name == name;
    }
    if Offered(a, name) {
      var j :| 0 <= j < |a| && a[j].name == name;
      assert j < i ==> b[j].name == name;
    }
  }

  // ---------- Schema and parser agree ----------

  /** What a closed schema over the required properties a and b admits. */
  lemma {:induction false} ClosedMeans(sem: Semantics, s: Json, props: map<Word, Json>, required: seq<Json>, v: Json)
    requires s == Closed(props, required) && Valid(sem, s, v)
    requires forall k :: k in props <==> Str(k) in required
    ensures v.Obj? && v.m.Keys == props.Keys && forall k :: k in props ==> Valid(sem, props[k], v.m[k])
  {
    var m := s.m;
    assert Type in m && m[Type] == Str(Object) && Properties in m && m[Properties] == Obj(props);
    assert Required in m && m[Required] == Arr(required);
    assert AdditionalProperties in m && m[AdditionalProperties] == Bool(false) && PatternProperties !in m;
    OnlyCovered(sem, m, props, required, v);
  }

  lemma {:induction false} OnlyCovered(
      sem: Semantics, m: map<Word, Json>, props: map<Word, Json>, required: seq<Json>, v: Json)
    requires Valid(sem, Obj(m), v)
    requires Type in m && m[Type] == Str(Object) && Properties in m && m[Properties] == Obj(props)
    requires Required in m && m[Required] == Arr(required)
    requires AdditionalProperties in m && m[AdditionalProperties] == Bool(false) && PatternProperties !in m
    requires forall k :: k in props <==> Str(k) in required
    ensures v.Obj? && v.m.Keys == props.Keys && forall k :: k in props ==> Valid(sem, props[k], v.m[k])
  {
    assert v.Obj?;
    forall k ensures k in v.m <==> k in props {
      if k in props {
        var i :| 0 <= i < |required| && required[i] == Str(k);
      }
      if k in v.m {
        assert Covered(sem, m, k);
      }
    }
  }

  lemma ClosedParts(props: map<Word, Json>, required: seq<Json>)
    ensures var m := Closed(props, required).m;
            && m.Keys == {Type, Properties, Required, AdditionalProperties} && Unseen(m) == map[]
            && m[Type] == Str(Object) && m[Properties] == Obj(props) && m[Required] == Arr(required)
  {
  }

  lemma {:induction false} ClosedAllows(sem: Semantics, s: Json, props: map<Word, Json>, required: seq<Json>, v: Json)
    requires Sane(sem) && s == Closed(props, required)
    requires forall k :: Str(k) in required ==> k in props
    requires v.Obj? && v.m.Keys == props.Keys && forall k :: k in props ==> Valid(sem, props[k], v.m[k])
    ensures Valid(sem, s, v)
  {
    ClosedParts(props, required);
    CoveredAllows(sem, s.m, props, required, v);
  }

  lemma {:induction false} CoveredAllows(
      sem: Semantics, m: map<Word, Json>, props: map<Word, Json>, required: seq<Json>, v: Json)
    requires sem.others(m, v)
    requires Type in m && m[Type] == Str(Object) && Properties in m && m[Properties] == Obj(props)
    requires Required in m && m[Required] == Arr(required) && AdditionalProperties in m
    requires Enum !in m && Const !in m && AnyOf !in m && OneOf !in m && PatternProperties !in m
    requires forall k :: Str(k) in required ==> k in props
    requires v.Obj? && v.m.Keys == props.Keys && forall k :: k in props ==> Valid(sem, props[k], v.m[k])
    ensures Valid(sem, Obj(m), v)
  {
    assert MapOf(m, Properties) == props;
    assert forall k :: k in v.m ==> Covered(sem, m, k);
    assert HasRequired(required, v.m) by {
      forall i | 0 <= i < |required| && required[i].Str? ensures required[i].s in v.m {
        assert Str(required[i].s) in required;
      }
    }
    assert Assertions(m, v);
  }

  lemma {:induction false} OneMember(ms: seq<Member>, k: Word)
    requires DistinctNames(ms) && ValueMap(ms).Keys == {k}
    ensures |ms| == 1 && ms[0].name == k && ValueMap(ms)[k] == Value(ms[0].value)
  {
    assert k in ValueMap(ms);
    forall i | 0 <= i < |ms| ensures ms[i].name == k {
      assert ms[i].name in ValueMap(ms);
    }
    MemberValue(ms, 0);
  }

  lemma {:induction false} RestKeys(ms: seq<Member>)
    requires ms != [] && DistinctNames(ms)
    ensures DistinctNames(ms[1..]) && ValueMap(ms[1..]).Keys == ValueMap(ms).Keys - {ms[0].name}
  {
    forall k ensures k in ValueMap(ms[1..]) <==> k in ValueMap(ms) && k != ms[0].name {
      if k in ValueMap(ms[1..]) {
        var i :| 0 <= i < |ms[1..]| && ms[1..][i].name == k;
        assert ms[i + 1].name == k;
      }
    }
  }

  lemma {:induction false} TwoMembers(ms: seq<Member>, a: Word, b: Word) returns (i: nat)
    requires a != b && DistinctNames(ms) && ValueMap(ms).Keys == {a, b}
    ensures |ms| == 2 && i < 2 && ms[i].name == a && ms[1 - i].name == b
    ensures ValueMap(ms)[a] == Value(ms[i].value) && ValueMap(ms)[b] == Value(ms[1 - i].value)
  {
    assert a in ValueMap(ms);
    assert ms[0].name in ValueMap(ms);
    i := if ms[0].name == a then 0 else 1;
    RestKeys(ms);
    OneMember(ms[1..], if i == 0 then b else a);
    MemberValue(ms, 0);
    MemberValue(ms, 1);
  }

  ghost predicate OnlyObjects(sem: Semantics, args: Json) {
    forall v :: Valid(sem, args, v) ==> v.Obj?
  }

  lemma {:induction false} CallBranch(sem: Semantics, branches: seq<Json>, v: Json) returns (i: nat)
    requires branches != [] && Valid(sem, CallSchema(branches), v)
    ensures i < |branches| && Valid(sem, branches[i], v)
  {
    if |branches| > 1 {
      var s := CallSchema(branches);
      assert s.m[AnyOf].a == branches;
      i :| 0 <= i < |s.m[AnyOf].a| && Valid(sem, s.m[AnyOf].a[i], v);
    } else {
      i := 0;
    }
  }

  lemma {:induction false} BranchMeans(sem: Semantics, name: Word, args: Json, v: Json)
    requires Valid(sem, Branch(name, args), v)
    ensures v.Obj? && v.m.Keys == {Tool, Arguments} && v.m[Tool] == Str(name) && Valid(sem, args, v.m[Arguments])
  {
    var props := CallProperties(name, args);
    ClosedMeans(sem, Branch(name, args), props, [Str(Tool), Str(Arguments)], v);
    ConstMeans(sem, name, v.m[Tool]);
  }

  lemma {:induction false} ConstMeans(sem: Semantics, name: Word, v: Json)
    requires Valid(sem, Obj(map[Const := Str(name)]), v)
    ensures v == Str(name)
  {
    var m := map[Const := Str(name)];
    assert Const in m && m[Const] == Str(name);
  }

  lemma {:induction false} DecodesCall(inner: seq<Member>, i: nat, w: Word, fold: Word -> Word)
    requires |inner| == 2 && i < 2 && inner[i] == Member(Tool, DStr(w)) && inner[1 - i].name == Arguments
    ensures Decode(Text(DObj([Member(Call, DObj(inner))])), fold) == Some(Fields(w, Some(inner[1 - i].value)))
  {
    var g := Fields(w, Some(inner[1 - i].value));
    var f := if i == 0 then ZERO.(tool := w) else ZERO.(arguments := Some(inner[0].value));
    assert inner[1..] == [inner[1]] && [inner[1]][1..] == [];
    assert DecodeCall([inner[1]], f, fold) == DecodeCall([], g, fold) == Some(g);
    assert DecodeCall(inner, ZERO, fold) == DecodeCall([inner[1]], f, fold);
    var top := [Member(Call, DObj(inner))];
    assert top[1..] == [];
    assert DecodeTop([], g, fold) == Some(g);
  }

  /** The arguments of the call a value holds. */
  function ArgumentsOf(v: Json): Option<Json> {
    if v.Obj? && Call in v.m && v.m[Call].Obj? && Arguments in v.m[Call].m then Some(v.m[Call].m[Arguments]) else None
  }

  lemma {:induction false} RootMeans(sem: Semantics, branches: seq<Json>, v: Json)
    requires branches != [] && Valid(sem, RootSchema(branches), v)
    ensures v.Obj? && v.m.Keys == {Call} && Valid(sem, CallSchema(branches), v.m[Call])
  {
    ClosedMeans(sem, RootSchema(branches), map[Call := CallSchema(branches)], [Str(Call)], v);
  }

  lemma {:induction false} TopDocument(sem: Semantics, branches: seq<Json>, doc: Doc) returns (d: Doc)
    requires branches != [] && Unambiguous(doc) && Valid(sem, RootSchema(branches), Value(doc))
    ensures doc == DObj([Member(Call, d)]) && Valid(sem, CallSchema(branches), Value(d))
    ensures d.DObj? ==> DistinctNames(d.members)
    ensures Value(doc) == Obj(map[Call := Value(d)])
  {
    RootMeans(sem, branches, Value(doc));
    assert Value(doc) == Obj(ValueMap(doc.members));
    OneMember(doc.members, Call);
    d := doc.members[0].value;
    assert doc.members == [Member(Call, d)];
  }

  lemma {:induction false} CallShape(d: Doc, name: Word) returns (inner: seq<Member>, k: nat)
    requires d.DObj? && DistinctNames(d.members)
    requires ValueMap(d.members).Keys == {Tool, Arguments} && ValueMap(d.members)[Tool] == Str(name)
    ensures d == DObj(inner) && |inner| == 2 && k < 2
    ensures inner[k] == Member(Tool, DStr(name)) && inner[1 - k].name == Arguments
    ensures ValueMap(d.members)[Arguments] == Value(inner[1 - k].value)
  {
    inner := d.members;
    k := TwoMembers(inner, Tool, Arguments);
    assert Value(inner[k].value) == Str(name);
  }

  lemma {:induction false} CallMembers(sem: Semantics, name: Word, args: Json, d: Doc) returns (inner: seq<Member>, k: nat)
    requires Valid(sem, Branch(name, args), Value(d)) && (d.DObj? ==> DistinctNames(d.members))
    ensures d == DObj(inner) && |inner| == 2 && k < 2
    ensures inner[k] == Member(Tool, DStr(name)) && inner[1 - k].name == Arguments
    ensures Valid(sem, args, Value(inner[1 - k].value))
    ensures Value(d).m.Keys == {Tool, Arguments} && Value(d).m[Arguments] == Value(inner[1 - k].value)
  {
    BranchMeans(sem, name, args, Value(d));
    assert Value(d) == Obj(ValueMap(d.members));
    inner, k := CallShape(d, name);
  }

  /** What a valid document is, member by member. */
  lemma {:induction false} ValidDocument(sem: Semantics, branches: seq<Json>, names: seq<Word>, args: seq<Json>, doc: Doc)
      returns (i: nat, inner: seq<Member>, k: nat)
    requires |branches| == |names| == |args| && branches != []
    requires forall j :: 0 <= j < |branches| ==> branches[j] == Branch(names[j], args[j])
    requires Unambiguous(doc) && Valid(sem, RootSchema(branches), Value(doc))
    ensures i < |branches| && doc == DObj([Member(Call, DObj(inner))])
    ensures |inner| == 2 && k < 2 && inner[k] == Member(Tool, DStr(names[i])) && inner[1 - k].name == Arguments
    ensures Valid(sem, args[i], Value(inner[1 - k].value))
    ensures ArgumentsOf(Value(doc)) == Some(Value(inner[1 - k].value))
  {
    var d := TopDocument(sem, branches, doc);
    i := CallBranch(sem, branches, Value(d));
    inner, k := CallMembers(sem, names[i], args[i], d);
  }

  /**
   Generated schema and parser agree: a document valid under the decision schema is
   accepted, as a call of an offered tool with the same arguments object, so a rejected
   one means the server did not enforce the schema.
   */
  lemma {:induction false} ValidIsAccepted(
      sem: Semantics, tools: seq<ToolSpec>, args: seq<Json>, branches: seq<Json>, doc: Doc, fold: Word -> Word)
      returns (i: nat)
    requires Branches(tools, args, branches) && branches != []
    requires forall j :: 0 <= j < |tools| ==> OnlyObjects(sem, args[j])
    requires Unambiguous(doc) && Valid(sem, RootSchema(branches), Value(doc))
    ensures Accepts(tools, Text(doc), fold)
    ensures var f := Decode(Text(doc), fold).value;
            && ArgumentsOf(Value(doc)) == Some(Value(f.arguments.value))
            && i < |tools| && tools[i].name == f.tool && Valid(sem, args[i], Value(f.arguments.value))
  {
    var names := NamesOf(tools);
    var inner, k;
    i, inner, k := ValidDocument(sem, branches, names, args, doc);
    assert OnlyObjects(sem, args[i]);
    AcceptsCall(tools, i, inner, k, fold);
  }

  function NamesOf(tools: seq<ToolSpec>): (r: seq<Word>)
    ensures |r| == |tools| && forall j :: 0 <= j < |tools| ==> r[j] == tools[j].name
  {
    seq(|tools|, j requires 0 <= j < |tools| => tools[j].name)
  }

  lemma {:induction false} AcceptsCall(tools: seq<ToolSpec>, i: nat, inner: seq<Member>, k: nat, fold: Word -> Word)
    requires i < |tools| && |inner| == 2 && k < 2
    requires inner[k] == Member(Tool, DStr(tools[i].name)) && inner[1 - k].name == Arguments
    requires Value(inner[1 - k].value).Obj?
    ensures var content := Text(DObj([Member(Call, DObj(inner))]));
            && Accepts(tools, content, fold)
            && Decode(content, fold) == Some(Fields(tools[i].name, Some(inner[1 - k].value)))
  {
    DecodesCall(inner, k, tools[i].name, fold);
    assert Offered(tools, tools[i].name);
    assert inner[1 - k].value.DObj?;
  }

  lemma {:induction false} CallAllows(sem: Semantics, branches: seq<Json>, i: nat, v: Json)
    requires Sane(sem) && i < |branches| && Valid(sem, branches[i], v)
    ensures Valid(sem, CallSchema(branches), v)
  {
    if |branches| > 1 {
      var m := map[AnyOf := Arr(branches)];
      assert CallSchema(branches) == Obj(m) && Unseen(m) == map[];
      assert Valid(sem, m[AnyOf].a[i], v);
    }
  }

  function CallDoc(name: Word, a: Doc): Doc {
    DObj([Member(Tool, DStr(name)), Member(Arguments, a)])
  }

  lemma {:induction false} ValueMapCons(m: Member, ms: seq<Member>)
    requires m.name !in ValueMap(ms)
    ensures ValueMap([m] + ms) == ValueMap(ms)[m.name := Value(m.value)]
  {
    assert ([m] + ms)[1..] == ms && ([m] + ms)[0] == m;
  }

  lemma {:induction false} CallDocValue(name: Word, a: Doc)
    ensures Value(CallDoc(name, a)) == Obj(map[Tool := Str(name), Arguments := Value(a)])
  {
    var second := Member(Arguments, a);
    ValueMapCons(second, []);
    ValueMapCons(Member(Tool, DStr(name)), [second]);
    assert [second] + [] == [second];
    assert [Member(Tool, DStr(name))] + [second] == [Member(Tool, DStr(name)), second];
    assert ValueMap([second]) == map[Arguments := Value(a)];
  }

  lemma {:induction false} RootAllows(sem: Semantics, branches: seq<Json>, d: Doc)
    requires Sane(sem) && branches != [] && Valid(sem, CallSchema(branches), Value(d))
    ensures Valid(sem, RootSchema(branches), Value(DObj([Member(Call, d)])))
  {
    var props := map[Call := CallSchema(branches)];
    var v := Obj(map[Call := Value(d)]);
    ValueMapCons(Member(Call, d), []);
    assert [Member(Call, d)] + [] == [Member(Call, d)];
    assert Value(DObj([Member(Call, d)])) == v;
    ClosedAllows(sem, RootSchema(branches), props, [Str(Call)], v);
  }

  lemma {:induction false} BranchAllows(sem: Semantics, name: Word, args: Json, v: Json)
    requires Sane(sem) && Valid(sem, args, v)
    ensures Valid(sem, Branch(name, args), Obj(map[Tool := Str(name), Arguments := v]))
  {
    var ctag := map[Const := Str(name)];
    assert Unseen(ctag) == map[] && Valid(sem, Obj(ctag), Str(name));
    ClosedAllows(sem, Branch(name, args), CallProperties(name, args), [Str(Tool), Str(Arguments)],
                 Obj(map[Tool := Str(name), Arguments := v]));
  }

  lemma {:induction false} CallIsUnambiguous(name: Word, a: Doc)
    ensures Unambiguous(DObj([Member(Call, CallDoc(name, a))]))
  {
    assert DistinctNames(CallDoc(name, a).members);
  }

  /** The document that calls name with arguments a is valid when a is. */
  lemma {:induction false} CallDocument(sem: Semantics, branches: seq<Json>, i: nat, name: Word, args: Json, a: Doc)
      returns (doc: Doc)
    requires Sane(sem) && i < |branches| && branches[i] == Branch(name, args) && Valid(sem, args, Value(a))
    ensures doc == DObj([Member(Call, CallDoc(name, a))])
    ensures Unambiguous(doc) && Valid(sem, RootSchema(branches), Value(doc))
  {
    var d := CallDoc(name, a);
    doc := DObj([Member(Call, d)]);
    assert Valid(sem, CallSchema(branches), Value(d)) by {
      CallDocValue(name, a);
      BranchAllows(sem, name, args, Value(a));
      CallAllows(sem, branches, i, Value(d));
    }
    RootAllows(sem, branches, d);
    CallIsUnambiguous(name, a);
  }

  /** Every valid document the parser can read unambiguously is accepted. */
  ghost predicate Agrees(sem: Semantics, tools: seq<ToolSpec>, branches: seq<Json>, fold: Word -> Word)
    requires branches != []
  {
    forall doc :: Unambiguous(doc) && Valid(sem, RootSchema(branches), Value(doc)) ==> Accepts(tools, Text(doc), fold)
  }

  /** Agreement holds exactly when no tool's argument schema admits anything but objects. */
  lemma {:induction false} AgreementIff(
      sem: Semantics, tools: seq<ToolSpec>, args: seq<Json>, branches: seq<Json>, fold: Word -> Word)
    requires Sane(sem) && Branches(tools, args, branches) && branches != []
    ensures Agrees(sem, tools, branches, fold) <==> forall i :: 0 <= i < |tools| ==> OnlyObjects(sem, args[i])
  {
    if forall i :: 0 <= i < |tools| ==> OnlyObjects(sem, args[i]) {
      forall doc | Unambiguous(doc) && Valid(sem, RootSchema(branches), Value(doc))
        ensures Accepts(tools, Text(doc), fold)
      {
        var _ := ValidIsAccepted(sem, tools, args, branches, doc, fold);
      }
    } else {
      var i :| 0 <= i < |tools| && !OnlyObjects(sem, args[i]);
      NonObjectIsRejected(sem, tools, args, branches, i, fold);
    }
  }

  lemma {:induction false} NonObjectIsRejected(
      sem: Semantics, tools: seq<ToolSpec>, args: seq<Json>, branches: seq<Json>, i: nat, fold: Word -> Word)
    requires Sane(sem) && Branches(tools, args, branches) && i < |tools| && !OnlyObjects(sem, args[i])
    ensures !Agrees(sem, tools, branches, fold)
  {
    var v :| Valid(sem, args[i], v) && !v.Obj?;
    var a := DocOf(v);
    var doc := CallDocument(sem, branches, i, tools[i].name, args[i], a);
    RefusesNonObject(tools, tools[i].name, a, fold);
  }

  // ---------- By the declared type ----------

  /** A type name some value other than an object has. */
  predicate NamesNonObject(name: Word) {
    name in {Other("null"), Other("boolean"), Other("number"), Other("integer"), Other("string"), Other("array")}
  }

  function NonObject(name: Word): Json {
    if name == Other("null") then Null
    else if name == Other("boolean") then Bool(false)
    else if name == Other("string") then Str(Other(""))
    else if name == Other("array") then Arr([])
    else Num(0.0)
  }

  lemma {:induction false} NonObjectHasType(name: Word)
    requires NamesNonObject(name)
    ensures HasType(name, NonObject(name)) && !NonObject(name).Obj?
  {
    assert |"null"| == 4 && |"boolean"| == 7 && |"number"| == 6 && |"integer"| == 7 && |"string"| == 6 && |"array"| == 5;
    assert "boolean"[0] == 'b' && "integer"[0] == 'i' && "number"[0] == 'n' && "string"[0] == 's';
    assert (0.0).Floor as real == 0.0;
  }

  /** What a tool's server declares in its schema's type leaves room for objects only, or for nothing. */
  predicate OnlyObjectsDeclared(m: map<Word, Json>) {
    Type in m ==>
      match m[Type]
      case Str(name) => !NamesNonObject(name)
      case Arr(names) => forall i :: 0 <= i < |names| && names[i].Str? ==> !NamesNonObject(names[i].s)
      case _ => false
  }

  /** No keyword but type says anything about values that are not objects. */
  predicate TypeAlone(m: map<Word, Json>) {
    m.Keys !! {Enum, Const, MinItems, MaxItems, MinLength, MaxLength, Minimum, Maximum, AnyOf, OneOf}
  }

  /** An input schema that declares type object, or none, meets the condition, whatever else it says. */
  lemma {:induction false} ObjectTypesAgree(sem: Semantics, input: Input, out: Json)
    requires ToolSchema(input, out) && OnlyObjectsDeclared(InputMap(input).value.m)
    ensures OnlyObjects(sem, out)
  {
    var m := InputMap(input).value;
    var clean :| Simplified(m, clean) && out == Typed(clean);
    assert Kept(Type);
    assert OnlyObjectsDeclared(out.m) && Type in out.m;
    forall v | Valid(sem, out, v) ensures v.Obj? {
      assert TypeHolds(out.m[Type], v);
      DeclaredHolds(out.m[Type], v);
    }
  }

  lemma {:induction false} DeclaredHolds(t: Json, v: Json)
    requires OnlyObjectsDeclared(map[Type := t]) && TypeHolds(t, v)
    ensures v.Obj?
  {
    var m := map[Type := t];
    assert m[Type] == t;
  }

  lemma {:induction false} TypeAdmits(sem: Semantics, input: Input, m: map<Word, Json>, out: Json, v: Json)
    requires Sane(sem) && InputMap(input) == Some(Obj(m)) && ToolSchema(input, out)
    requires TypeAlone(m) && Type in m && TypeHolds(m[Type], v) && !v.Obj? && (v.Arr? ==> v.a == [])
    ensures Valid(sem, out, v)
  {
    var clean :| Simplified(Obj(m), clean) && out == Typed(clean);
    SimplifiedTypeAlone(Obj(m), clean);
    NonObjectIsValid(sem, out.m, v);
  }

  lemma {:induction false} DeclaredIsNeeded(sem: Semantics, input: Input, out: Json) returns (v: Json)
    requires Sane(sem) && ToolSchema(input, out)
    requires TypeAlone(InputMap(input).value.m) && !OnlyObjectsDeclared(InputMap(input).value.m)
    ensures Valid(sem, out, v) && !v.Obj?
  {
    var m := InputMap(input).value.m;
    v := DeclaredWitness(m[Type]);
    TypeAdmits(sem, input, m, out, v);
  }

  lemma {:induction false} DeclaredWitness(t: Json) returns (v: Json)
    requires !OnlyObjectsDeclared(map[Type := t])
    ensures TypeHolds(t, v) && !v.Obj? && (v.Arr? ==> v.a == [])
  {
    var m := map[Type := t];
    assert m[Type] == t;
    v := Null;
    match t {
      case Str(name) =>
        NonObjectHasType(name);
        v := NonObject(name);
      case Arr(names) =>
        var i :| 0 <= i < |names| && names[i].Str? && NamesNonObject(names[i].s);
        NonObjectHasType(names[i].s);
        v := NonObject(names[i].s);
      case _ =>
    }
  }

  lemma {:induction false} SimplifiedTypeAlone(s: Json, clean: Json)
    requires Simplified(s, clean) && TypeAlone(s.m)
    ensures TypeAlone(clean.m) && Unseen(clean.m) == map[] && PrefixItems !in clean.m && PatternProperties !in clean.m
    ensures Type in s.m ==> Type in clean.m && clean.m[Type] == s.m[Type]
  {
    AssertionsKept(s.m, clean.m, Null);
    assert Kept(Enum) && Kept(Const) && Kept(MinItems) && Kept(MaxItems) && Kept(MinLength) && Kept(MaxLength)
           && Kept(Minimum) && Kept(Maximum) && Kept(Type);
  }

  lemma {:induction false} NonObjectIsValid(sem: Semantics, m: map<Word, Json>, v: Json)
    requires Sane(sem) && TypeAlone(m) && Unseen(m) == map[] && Type in m && TypeHolds(m[Type], v)
    requires !v.Obj? && (v.Arr? ==> v.a == []) && PrefixItems !in m && PatternProperties !in m
    ensures Valid(sem, Obj(m), v)
  {
    assert Enum !in m && Const !in m && AnyOf !in m && OneOf !in m;
    assert Assertions(m, v);
  }

  /**
   When no other keyword speaks of values that are not objects, agreement can be read off
   the declared types: it holds exactly when every tool declares objects only, or no type.
   */
  lemma {:induction false} AgreementByType(
      sem: Semantics, tools: seq<ToolSpec>, args: seq<Json>, branches: seq<Json>, fold: Word -> Word)
    requires Sane(sem) && Branches(tools, args, branches) && branches != []
    requires forall i :: 0 <= i < |tools| ==> TypeAlone(InputMap(tools[i].input).value.m)
    ensures Agrees(sem, tools, branches, fold)
            <==> forall i :: 0 <= i < |tools| ==> OnlyObjectsDeclared(InputMap(tools[i].input).value.m)
  {
    AgreementIff(sem, tools, args, branches, fold);
    forall i | 0 <= i < |tools|
      ensures OnlyObjects(sem, args[i]) <==> OnlyObjectsDeclared(InputMap(tools[i].input).value.m)
    {
      assert ToolBranch(tools[i], args[i], branches[i]);
      if OnlyObjectsDeclared(InputMap(tools[i].input).value.m) {
        ObjectTypesAgree(sem, tools[i].input, args[i]);
      } else {
        var _ := DeclaredIsNeeded(sem, tools[i].input, args[i]);
      }
    }
  }

  const TEXT_TOOL: Input := Given(Obj(map[Type := Str(Other("string"))]))

  /** One tool that declares text is enough: this document is valid, and the parser refuses it. */
  lemma {:induction false} TextArgumentsAreRefused(
      sem: Semantics, name: Word, args: seq<Json>, branches: seq<Json>, fold: Word -> Word) returns (doc: Doc)
    requires Sane(sem) && Branches([ToolSpec(name, TEXT_TOOL)], args, branches)
    ensures doc == DObj([Member(Call, CallDoc(name, DStr(Other(""))))])
    ensures Valid(sem, RootSchema(branches), Value(doc)) && !Accepts([ToolSpec(name, TEXT_TOOL)], Text(doc), fold)
  {
    var tools := [ToolSpec(name, TEXT_TOOL)];
    assert ToolBranch(tools[0], args[0], branches[0]);
    TextIsAdmitted(sem, args[0]);
    doc := CallDocument(sem, branches, 0, name, args[0], DStr(Other("")));
    RefusesNonObject(tools, name, DStr(Other("")), fold);
  }

  lemma {:induction false} TextIsAdmitted(sem: Semantics, out: Json)
    requires Sane(sem) && ToolSchema(TEXT_TOOL, out)
    ensures Valid(sem, out, Str(Other("")))
  {
    var m := map[Type := Str(Other("string"))];
    assert InputMap(TEXT_TOOL) == Some(Obj(m)) && m[Type] == Str(Other("string"));
    assert HasType(Other("string"), Str(Other("")));
    TypeAdmits(sem, TEXT_TOOL, m, out, Str(Other("")));
  }

  lemma {:induction false} RefusesNonObject(tools: seq<ToolSpec>, name: Word, a: Doc, fold: Word -> Word)
    requires !a.DObj?
    ensures !Accepts(tools, Text(DObj([Member(Call, CallDoc(name, a))])), fold)
  {
    DecodesCall([Member(Tool, DStr(name)), Member(Arguments, a)], 0, name, fold);
  }

  lemma {:induction false} AddingTheTypeAdmits(sem: Semantics, m: map<Word, Json>, v: Json)
    requires Sane(sem) && Unseen(m) == map[] && Type !in m && v.Obj? && Valid(sem, Obj(m), v)
    ensures Valid(sem, Obj(m[Type := Str(Object)]), v)
  {
    var m' := m[Type := Str(Object)];
    assert Kept(Type) && Unseen(m') == Unseen(m);
    assert forall k :: Covered(sem, m', k) <==> Covered(sem, m, k) by {
      assert MapOf(m', Properties) == MapOf(m, Properties) && MapOf(m', PatternProperties) == MapOf(m, PatternProperties);
    }
    assert Assertions(m', v);
  }

  /**
   Constraining the output costs nothing legitimate: whatever arguments object a tool's own
   schema allows, the call that carries it is valid under the generated schema.
   */
  lemma {:induction false} LegitimateCallsAreAdmitted(
      sem: Semantics, tools: seq<ToolSpec>, args: seq<Json>, branches: seq<Json>, i: nat, a: Doc) returns (doc: Doc)
    requires Sane(sem) && Branches(tools, args, branches) && i < |tools|
    requires Relaxable(InputMap(tools[i].input).value)
    requires a.DObj? && Valid(sem, InputMap(tools[i].input).value, Value(a))
    ensures doc == DObj([Member(Call, CallDoc(tools[i].name, a))])
    ensures Unambiguous(doc) && Valid(sem, RootSchema(branches), Value(doc))
  {
    var s := InputMap(tools[i].input).value;
    assert ToolSchema(tools[i].input, args[i]);
    var clean :| Simplified(s, clean) && args[i] == Typed(clean);
    SanitizeRelaxes(sem, s, clean, Value(a));
    if Type !in clean.m {
      AssertionsKept(s.m, clean.m, Value(a));
      AddingTheTypeAdmits(sem, clean.m, Value(a));
    }
    doc := CallDocument(sem, branches, i, tools[i].name, args[i], a);
  }
}
