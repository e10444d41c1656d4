/**
 The schema simplifier (internal/llm/openai/schema.go), against the meaning of JSON Schema 2020-12: Core
 sections 10.2.1 and 10.3 for the applicators and Validation section 6 for the rest.
 */
module Schema {
  import opened JsonValues

  // ---------- What a schema means ----------

  /**
   The parts of JSON Schema the simplifier does not look into: how a pattern matches a
   property name, and what all keywords outside this file require together. Those may read
   the keywords beside them, as unevaluatedProperties and unevaluatedItems do.
   */
  datatype Semantics = Semantics(
    matches: (Word, Word) -> bool,
    others: (map<Word, Json>, Json) -> bool)

  ghost predicate Sane(sem: Semantics) {
    forall m, v :: Unseen(m) == map[] ==> sem.others(m, v) // no such keywords, no such constraint
  }

  predicate Kept(k: Word) {
    k.Type? || k.Enum? || k.Const? || k.Required? || k.MinItems? || k.MaxItems? || k.MinLength? || k.MaxLength?
    || k.Minimum? || k.Maximum?
  }

  predicate Applicator(k: Word) {
    k.Properties? || k.PatternProperties? || k.AdditionalProperties? || k.Items? || k.PrefixItems? || k.AnyOf? || k.OneOf?
  }

  function MapOf(m: map<Word, Json>, k: Word): map<Word, Json> {
    if k in m && m[k].Obj? then m[k].m else map[]
  }

  function ListOf(m: map<Word, Json>, k: Word): seq<Json> {
    if k in m && m[k].Arr? then m[k].a else []
  }

  predicate HasType(name: Word, v: Json) {
    match v
    case Null => name == Other("null")
    case Bool(_) => name == Other("boolean")
    case Num(n) => name == Other("number") || (name == Other("integer") && n == n.Floor as real)
    case Str(_) => name == Other("string")
    case Arr(_) => name == Other("array")
    case Obj(_) => name == Object
  }

  predicate TypeHolds(t: Json, v: Json) {
    match t
    case Str(name) => HasType(name, v)
    case Arr(names) => exists i :: 0 <= i < |names| && names[i].Str? && HasType(names[i].s, v)
    case _ => true
  }

  predicate AtLeast(m: map<Word, Json>, k: Word, n: real) {
    k in m && m[k].Num? ==> m[k].n <= n
  }

  predicate AtMost(m: map<Word, Json>, k: Word, n: real) {
    k in m && m[k].Num? ==> n <= m[k].n
  }

  predicate HasRequired(names: seq<Json>, v: map<Word, Json>) {
    forall i :: 0 <= i < |names| && names[i].Str? ==> names[i].s in v
  }

  /** The assertions the simplifier keeps (Validation section 6). */
  predicate Assertions(m: map<Word, Json>, v: Json) {
    && (Type in m ==> TypeHolds(m[Type], v))
    && (Enum in m && m[Enum].Arr? ==> v in m[Enum].a)
    && (Const in m ==> v == m[Const])
    && (v.Obj? ==> HasRequired(ListOf(m, Required), v.m))
    && (v.Arr? ==> AtLeast(m, MinItems, |v.a| as real) && AtMost(m, MaxItems, |v.a| as real))
    && (v.Str? ==> AtLeast(m, MinLength, |Spelling(v.s)| as real) && AtMost(m, MaxLength, |Spelling(v.s)| as real))
    && (v.Num? ==> AtLeast(m, Minimum, v.n) && AtMost(m, Maximum, v.n))
  }

  function Unseen(m: map<Word, Json>): map<Word, Json> {
    map k | k in m && !Kept(k) && !Applicator(k) :: m[k]
  }

  ghost predicate Covered(sem: Semantics, m: map<Word, Json>, name: Word) {
    name in MapOf(m, Properties)
    || exists p :: p in MapOf(m, PatternProperties) && sem.matches(p, name)
  }

  /** v is valid under schema s. A keyword whose value has the wrong shape constrains nothing. */
  ghost predicate Valid(sem: Semantics, s: Json, v: Json)
    decreases s
  {
    match s
    case Bool(b) => b
    case Obj(m) =>
      && Assertions(m, v)
      && sem.others(m, v)
      && (v.Obj? && Properties in m && m[Properties].Obj? ==>
            forall k :: k in v.m && k in m[Properties].m ==> Valid(sem, m[Properties].m[k], v.m[k]))
      && (v.Obj? && PatternProperties in m && m[PatternProperties].Obj? ==>
            forall k, p :: k in v.m && p in m[PatternProperties].m && sem.matches(p, k) ==>
                             Valid(sem, m[PatternProperties].m[p], v.m[k]))
      && (v.Obj? && AdditionalProperties in m ==>
            forall k :: k in v.m && !Covered(sem, m, k) ==> Valid(sem, m[AdditionalProperties], v.m[k]))
      && (v.Arr? && PrefixItems in m && m[PrefixItems].Arr? ==>
            forall i :: 0 <= i < |v.a| && i < |m[PrefixItems].a| ==> Valid(sem, m[PrefixItems].a[i], v.a[i]))
      && (v.Arr? && Items in m ==>
            forall i :: |ListOf(m, PrefixItems)| <= i < |v.a| ==> Valid(sem, m[Items], v.a[i]))
      && (AnyOf in m && m[AnyOf].Arr? ==>
            exists i :: 0 <= i < |m[AnyOf].a| && Valid(sem, m[AnyOf].a[i], v))
      && (OneOf in m && m[OneOf].Arr? ==>
            exists i :: 0 <= i < |m[OneOf].a| && Valid(sem, m[OneOf].a[i], v)
                        && forall j :: 0 <= j < |m[OneOf].a| && Valid(sem, m[OneOf].a[j], v) ==> j == i)
    case _ => true
  }

  // ---------- What the simplifier produces ----------

  /** The keywords of m visited so far. */
  function Part(m: map<Word, Json>, done: set<Word>): map<Word, Json> {
    map k | k in m && k in done :: m[k]
  }

  ghost predicate KeptAsWritten(m: map<Word, Json>, out: map<Word, Json>) {
    && (forall k :: k in out ==> Kept(k) || k.Properties? || k.Items? || k.AnyOf? || k.AdditionalProperties?)
    && (forall k :: Kept(k) ==> (k in out <==> k in m) && (k in out ==> out[k] == m[k]))
    && (AdditionalProperties in out <==> AdditionalProperties in m && m[AdditionalProperties].Bool?)
    && (AdditionalProperties in out ==> out[AdditionalProperties] == m[AdditionalProperties])
  }

  /** list without its non-object members, each simplified. */
  ghost predicate SimplifiedList(list: seq<Json>, out: seq<Json>)
    decreases list
  {
    if list == [] then out == []
    else if list[0].Obj? then out != [] && Simplified(list[0], out[0]) && SimplifiedList(list[1..], out[1..])
    else SimplifiedList(list[1..], out)
  }

  /**
   out is what sanitize can leave for s. The keyword order is Go's map order, so when
   both anyOf and oneOf are lists either one may be the last to set anyOf.
   */
  ghost predicate Simplified(s: Json, out: Json)
    decreases s
  {
    && s.Obj? && out.Obj?
    && KeptAsWritten(s.m, out.m)
    && (Properties in out.m <==> Properties in s.m && s.m[Properties].Obj?)
    && (Properties in out.m ==>
          && out.m[Properties].Obj?
          && (forall k :: k in out.m[Properties].m <==> k in s.m[Properties].m && s.m[Properties].m[k].Obj?)
          && (forall k :: k in out.m[Properties].m ==> Simplified(s.m[Properties].m[k], out.m[Properties].m[k])))
    && (Items in out.m <==> Items in s.m && s.m[Items].Obj?)
    && (Items in out.m ==> Simplified(s.m[Items], out.m[Items]))
    && (AnyOf in out.m <==> (AnyOf in s.m && s.m[AnyOf].Arr?) || (OneOf in s.m && s.m[OneOf].Arr?))
    && (AnyOf in out.m ==>
          out.m[AnyOf].Arr?
          && ((AnyOf in s.m && s.m[AnyOf].Arr? && SimplifiedList(s.m[AnyOf].a, out.m[AnyOf].a))
              || (OneOf in s.m && s.m[OneOf].Arr? && SimplifiedList(s.m[OneOf].a, out.m[AnyOf].a))))
  }

  // ---------- Simplifying only relaxes ----------

  predicate ObjectOrNever(s: Json) {
    s.Obj? || s == Bool(false)
  }

  /**
   The shape under which dropping keywords cannot tighten anything: alternatives are
   object schemas (or false); a closed object leaves no property to patterns or to a
   non-object subschema; an item schema does not start after a prefix.
   */
  ghost predicate Relaxable(s: Json)
    decreases s
  {
    s.Obj? ==>
      && (AdditionalProperties in s.m && s.m[AdditionalProperties] == Bool(false) ==>
            && MapOf(s.m, PatternProperties) == map[]
            && forall k :: k in MapOf(s.m, Properties) ==> ObjectOrNever(MapOf(s.m, Properties)[k]))
      && (Items in s.m && s.m[Items].Obj? ==> ListOf(s.m, PrefixItems) == [] && Relaxable(s.m[Items]))
      && (Properties in s.m && s.m[Properties].Obj? ==>
            forall k :: k in s.m[Properties].m ==> Relaxable(s.m[Properties].m[k]))
      && (AnyOf in s.m && s.m[AnyOf].Arr? ==>
            forall i :: 0 <= i < |s.m[AnyOf].a| ==> ObjectOrNever(s.m[AnyOf].a[i]) && Relaxable(s.m[AnyOf].a[i]))
      && (OneOf in s.m && s.m[OneOf].Arr? ==>
            forall i :: 0 <= i < |s.m[OneOf].a| ==> ObjectOrNever(s.m[OneOf].a[i]) && Relaxable(s.m[OneOf].a[i]))
  }

  lemma {:induction false} AssertionsKept(m: map<Word, Json>, out: map<Word, Json>, v: Json)
    requires KeptAsWritten(m, out)
    ensures Assertions(out, v) == Assertions(m, v)
    ensures Unseen(out) == map[]
  {
    assert Kept(Type) && Kept(Enum) && Kept(Const) && Kept(Required) && Kept(MinItems);
    assert Kept(MaxItems) && Kept(MinLength) && Kept(MaxLength) && Kept(Minimum) && Kept(Maximum);
  }

  lemma {:induction false} AlternativeSurvives(sem: Semantics, list: seq<Json>, out: seq<Json>, i: nat, v: Json)
      returns (j: nat)
    requires Sane(sem) && SimplifiedList(list, out)
    requires i < |list| && list[i].Obj? && Relaxable(list[i]) && Valid(sem, list[i], v)
    ensures j < |out| && Valid(sem, out[j], v)
    decreases list, 0
  {
    if i == 0 {
      j := 0;
      SanitizeRelaxes(sem, list[0], out[0], v);
    } else if list[0].Obj? {
      j := AlternativeSurvives(sem, list[1..], out[1..], i - 1, v);
      j := j + 1;
    } else {
      j := AlternativeSurvives(sem, list[1..], out, i - 1, v);
    }
  }

  /** sanitize only relaxes: what was valid stays valid. */
  lemma {:induction false} SanitizeRelaxes(sem: Semantics, s: Json, out: Json, v: Json)
    requires Sane(sem) && Simplified(s, out) && Relaxable(s) && Valid(sem, s, v)
    ensures Valid(sem, out, v)
    decreases s, 1
  {
    AssertionsKept(s.m, out.m, v);
    if v.Obj? {
      PropertiesRelax(sem, s, out, v);
    }
    if v.Arr? && Items in out.m {
      forall i | 0 <= i < |v.a| ensures Valid(sem, out.m[Items], v.a[i]) {
        SanitizeRelaxes(sem, s.m[Items], out.m[Items], v.a[i]);
      }
    }
    if AnyOf in out.m {
      AlternativesRelax(sem, s, out, v);
    }
  }

  lemma {:induction false} PropertiesRelax(sem: Semantics, s: Json, out: Json, v: Json)
    requires Sane(sem) && Simplified(s, out) && Relaxable(s) && Valid(sem, s, v) && v.Obj?
    ensures Properties in out.m ==>
              forall k :: k in v.m && k in out.m[Properties].m ==> Valid(sem, out.m[Properties].m[k], v.m[k])
    ensures AdditionalProperties in out.m ==>
              forall k :: k in v.m && !Covered(sem, out.m, k) ==> Valid(sem, out.m[AdditionalProperties], v.m[k])
    decreases s, 0
  {
    if Properties in out.m {
      forall k | k in v.m && k in out.m[Properties].m ensures Valid(sem, out.m[Properties].m[k], v.m[k]) {
        SanitizeRelaxes(sem, s.m[Properties].m[k], out.m[Properties].m[k], v.m[k]);
      }
    }
    if AdditionalProperties in out.m && out.m[AdditionalProperties] == Bool(false) {
      forall k | k in v.m ensures Covered(sem, out.m, k) {
        assert Covered(sem, s.m, k);
        assert k in MapOf(s.m, Properties);
        assert MapOf(s.m, Properties)[k].Obj?;
      }
    }
  }

  lemma {:induction false} AlternativesRelax(sem: Semantics, s: Json, out: Json, v: Json)
    requires Sane(sem) && Simplified(s, out) && Relaxable(s) && Valid(sem, s, v) && AnyOf in out.m
    ensures out.m[AnyOf].Arr? && AnyHolds(sem, out.m[AnyOf].a, v)
    decreases s, 0
  {
    if AnyOf in s.m && s.m[AnyOf].Arr? && SimplifiedList(s.m[AnyOf].a, out.m[AnyOf].a) {
      AlternativeRelaxes(sem, s.m[AnyOf].a, out.m[AnyOf].a, v);
    } else {
      AlternativeRelaxes(sem, s.m[OneOf].a, out.m[AnyOf].a, v);
    }
  }

  lemma {:induction false} AlternativeRelaxes(sem: Semantics, list: seq<Json>, out: seq<Json>, v: Json)
    requires Sane(sem) && SimplifiedList(list, out) && AnyHolds(sem, list, v)
    requires forall i :: 0 <= i < |list| ==> ObjectOrNever(list[i]) && Relaxable(list[i])
    ensures AnyHolds(sem, out, v)
    decreases list, 1
  {
    var i :| 0 <= i < |list| && Valid(sem, list[i], v);
    var j := AlternativeSurvives(sem, list, out, i, v);
  }

  ghost predicate AnyHolds(sem: Semantics, list: seq<Json>, v: Json) {
    exists i :: 0 <= i < |list| && Valid(sem, list[i], v)
  }

  // ---------- Simplifying takes nothing else away ----------

  /** A schema with no keyword and no subschema for the simplifier to drop or rewrite. */
  ghost predicate Simple(s: Json)
    decreases s
  {
    && s.Obj?
    && (forall k :: k in s.m ==> Kept(k) || k in {Properties, Items, AnyOf, AdditionalProperties})
    && (Properties in s.m ==> s.m[Properties].Obj? && forall k :: k in s.m[Properties].m ==> Simple(s.m[Properties].m[k]))
    && (Items in s.m ==> Simple(s.m[Items]))
    && (AnyOf in s.m ==> s.m[AnyOf].Arr? && forall i :: 0 <= i < |s.m[AnyOf].a| ==> Simple(s.m[AnyOf].a[i]))
    && (AdditionalProperties in s.m ==> s.m[AdditionalProperties].Bool?)
  }

  /** These constraints come out word for word, whatever else a schema holds, and but for four keywords nothing else does. */
  lemma ConstraintsStay(s: Json, out: Json)
    requires Simplified(s, out)
    ensures forall k | k in {Type, Enum, Const, Required, MinItems, MaxItems, MinLength, MaxLength, Minimum, Maximum} ::
              (k in out.m <==> k in s.m) && (k in out.m ==> out.m[k] == s.m[k])
    ensures out.m.Keys - {Properties, Items, AnyOf, AdditionalProperties}
         <= {Type, Enum, Const, Required, MinItems, MaxItems, MinLength, MaxLength, Minimum, Maximum}
    ensures AdditionalProperties in s.m && s.m[AdditionalProperties].Bool? <==> AdditionalProperties in out.m
    ensures AdditionalProperties in out.m ==> out.m[AdditionalProperties] == s.m[AdditionalProperties]
  {
    assert Kept(Type) && Kept(Enum) && Kept(Const) && Kept(Required) && Kept(MinItems) && Kept(MaxItems);
    assert Kept(MinLength) && Kept(MaxLength) && Kept(Minimum) && Kept(Maximum);
  }

  /** Such a schema comes out as it went in. */
  lemma {:induction false} SimpleStays(s: Json, out: Json)
    requires Simple(s) && Simplified(s, out)
    ensures out == s
    decreases s, 1
  {
    assert OneOf !in s.m && forall k :: k in out.m <==> k in s.m;
    if Properties in s.m {
      PropertiesStay(s, out);
    }
    if Items in s.m {
      SimpleStays(s.m[Items], out.m[Items]);
    }
    if AnyOf in s.m {
      SimpleListStays(s.m[AnyOf].a, out.m[AnyOf].a);
    }
    assert out.m == s.m;
  }

  lemma {:induction false} PropertiesStay(s: Json, out: Json)
    requires Simple(s) && Simplified(s, out) && Properties in s.m
    ensures out.m[Properties] == s.m[Properties]
    decreases s, 0
  {
    var props, clean := s.m[Properties].m, out.m[Properties].m;
    forall k | k in props ensures k in clean && clean[k] == props[k] {
      assert Simple(props[k]);
      SimpleStays(props[k], clean[k]);
    }
    assert clean == props;
  }

  lemma {:induction false} SimpleListStays(list: seq<Json>, out: seq<Json>)
    requires SimplifiedList(list, out) && forall i :: 0 <= i < |list| ==> Simple(list[i])
    ensures out == list
    decreases list, 0
  {
    if list != [] {
      assert Simple(list[0]);
      SimpleStays(list[0], out[0]);
      SimpleListStays(list[1..], out[1..]);
      assert list == [list[0]] + list[1..] && out == [out[0]] + out[1..];
    }
  }

  lemma {:induction false} SimplifiedIsSimple(s: Json, out: Json)
    requires Simplified(s, out)
    ensures Simple(out)
    decreases s, 1
  {
    if Properties in out.m {
      forall k | k in out.m[Properties].m ensures Simple(out.m[Properties].m[k]) {
        SimplifiedIsSimple(s.m[Properties].m[k], out.m[Properties].m[k]);
      }
    }
    if Items in out.m {
      SimplifiedIsSimple(s.m[Items], out.m[Items]);
    }
    if AnyOf in out.m {
      if AnyOf in s.m && s.m[AnyOf].Arr? && SimplifiedList(s.m[AnyOf].a, out.m[AnyOf].a) {
        SimplifiedListIsSimple(s.m[AnyOf].a, out.m[AnyOf].a);
      } else {
        SimplifiedListIsSimple(s.m[OneOf].a, out.m[AnyOf].a);
      }
    }
  }

  lemma {:induction false} SimplifiedListIsSimple(list: seq<Json>, out: seq<Json>)
    requires SimplifiedList(list, out)
    ensures forall i :: 0 <= i < |out| ==> Simple(out[i])
    decreases list, 0
  {
    if list != [] {
      if list[0].Obj? {
        SimplifiedIsSimple(list[0], out[0]);
        SimplifiedListIsSimple(list[1..], out[1..]);
        forall i | 0 <= i < |out| ensures Simple(out[i]) {
          assert i > 0 ==> out[i] == out[1..][i - 1];
        }
      } else {
        SimplifiedListIsSimple(list[1..], out);
      }
    }
  }

  /** Simplifying is done once: what it leaves it leaves alone, and that is just what has nothing to drop. */
  lemma {:induction false} SimplifyingTwiceIsOnce(s: Json, once: Json, twice: Json)
    requires Simplified(s, once) && Simplified(once, twice)
    ensures twice == once && Simple(once)
    ensures Simple(s) <==> once == s
  {
    SimplifiedIsSimple(s, once);
    SimpleStays(once, twice);
    if Simple(s) {
      SimpleStays(s, once);
    }
  }

  /** Alternatives of which exactly one had to hold become alternatives of which any may. */
  lemma {:induction false} OneOfBecomesAnyOf(sem: Semantics, list: seq<Json>, out: Json, v: Json)
    requires Sane(sem) && Simplified(Obj(map[OneOf := Arr(list)]), out)
    requires forall i :: 0 <= i < |list| ==> Simple(list[i])
    ensures out == Obj(map[AnyOf := Arr(list)])
    ensures Valid(sem, out, v) <==> AnyHolds(sem, list, v)
  {
    var m := map[OneOf := Arr(list)];
    assert m[OneOf].a == list && Unseen(map[AnyOf := Arr(list)]) == map[];
    SimpleListStays(list, out.m[AnyOf].a);
    assert out.m == map[AnyOf := Arr(list)];
    AlternativesAlone(sem, out.m, v);
  }

  // ---------- The simplifier ----------

  method Sanitize(s: Json) returns (out: Json)
    requires s.Obj?
    ensures Simplified(s, out)
    decreases s, 1
  {
    var m: map<Word, Json> := map[];
    var rest := s.m.Keys;
    while rest != {}
      invariant rest <= s.m.Keys
      invariant Simplified(Obj(Part(s.m, s.m.Keys - rest)), Obj(m))
      decreases |rest|
    {
      var k :| k in rest;
      ghost var done := s.m.Keys - rest;
      m := Visit(s, k, m, done);
      rest := rest - {k};
      assert s.m.Keys - rest == done + {k};
    }
    out := Obj(m);
    assert Part(s.m, s.m.Keys - rest) == s.m;
  }

  lemma {:induction false} KeptKeyword(m: map<Word, Json>, k: Word, v: Json, out: map<Word, Json>)
    requires Simplified(Obj(m), Obj(out)) && k !in m && Kept(k)
    ensures Simplified(Obj(m[k := v]), Obj(out[k := v]))
  {
  }

  lemma {:induction false} AdditionalKeyword(m: map<Word, Json>, v: Json, out: map<Word, Json>)
    requires Simplified(Obj(m), Obj(out)) && AdditionalProperties !in m && v.Bool?
    ensures Simplified(Obj(m[AdditionalProperties := v]), Obj(out[AdditionalProperties := v]))
  {
  }

  /** No keyword of the simplified schema, or one whose value is not simplified. */
  predicate Ignored(k: Word, v: Json) {
    match k
    case Properties => !v.Obj?
    case Items => !v.Obj?
    case AnyOf => !v.Arr?
    case OneOf => !v.Arr?
    case AdditionalProperties => !v.Bool?
    case _ => !Kept(k)
  }

  lemma {:induction false} IgnoredKeyword(m: map<Word, Json>, k: Word, v: Json, out: map<Word, Json>)
    requires Simplified(Obj(m), Obj(out)) && k !in m && Ignored(k, v)
    ensures Simplified(Obj(m[k := v]), Obj(out))
  {
  }

  lemma {:induction false} NestedKeyword(m: map<Word, Json>, k: Word, v: Json, out: map<Word, Json>, clean: Json)
    requires Simplified(Obj(m), Obj(out)) && k !in m && v.Obj?
    requires k.Items? || k.Properties?
    requires k.Items? ==> Simplified(v, clean)
    requires k.Properties? ==>
               && clean.Obj? && (forall x :: x in clean.m <==> x in v.m && v.m[x].Obj?)
               && forall x :: x in clean.m ==> Simplified(v.m[x], clean.m[x])
    ensures Simplified(Obj(m[k := v]), Obj(out[k := clean]))
  {
  }

  lemma {:induction false} ListKeyword(m: map<Word, Json>, k: Word, v: Json, out: map<Word, Json>, clean: seq<Json>)
    requires Simplified(Obj(m), Obj(out)) && k !in m && (k.AnyOf? || k.OneOf?)
    requires v.Arr? && SimplifiedList(v.a, clean)
    ensures Simplified(Obj(m[k := v]), Obj(out[AnyOf := Arr(clean)]))
  {
  }

  /** One turn of the loop over a schema's keywords. */
  method Visit(s: Json, k: Word, m: map<Word, Json>, ghost done: set<Word>) returns (m': map<Word, Json>)
    requires s.Obj? && k in s.m && k !in done && Simplified(Obj(Part(s.m, done)), Obj(m))
    ensures Simplified(Obj(Part(s.m, done + {k})), Obj(m'))
    decreases s, 0
  {
    var v := s.m[k];
    m' := m;
    ghost var p := Part(s.m, done);
    assert Part(s.m, done + {k}) == p[k := v];
    if Ignored(k, v) {
      IgnoredKeyword(p, k, v, m);
    }
    if Kept(k) {
      KeptKeyword(p, k, v, m);
      m' := m[k := v];
    } else if k.Properties? {
      if v.Obj? {
        var clean := SanitizeMembers(v);
        NestedKeyword(p, k, v, m, clean);
        m' := m[k := clean];
      }
    } else if k.Items? {
      if v.Obj? {
        var clean := Sanitize(v);
        NestedKeyword(p, k, v, m, clean);
        m' := m[k := clean];
      }
    } else if k.AnyOf? || k.OneOf? {
      if v.Arr? {
        var clean := SanitizeList(v.a);
        ListKeyword(p, k, v, m, clean);
        m' := m[AnyOf := Arr(clean)];
      }
    } else if k.AdditionalProperties? {
      if v.Bool? {
        AdditionalKeyword(p, v, m);
        m' := m[k := v];
      }
    }
  }

  method SanitizeMembers(props: Json) returns (out: Json)
    requires props.Obj?
    ensures out.Obj? && (forall k :: k in out.m <==> k in props.m && props.m[k].Obj?)
    ensures forall k :: k in out.m ==> Simplified(props.m[k], out.m[k])
    decreases props, 0
  {
    var clean: map<Word, Json> := map[];
    var rest := props.m.Keys;
    while rest != {}
      invariant rest <= props.m.Keys
      invariant forall k :: k in clean <==> k in props.m && k !in rest && props.m[k].Obj?
      invariant forall k :: k in clean ==> Simplified(props.m[k], clean[k])
      decreases |rest|
    {
      var name :| name in rest;
      rest := rest - {name};
      if props.m[name].Obj? {
        var c := Sanitize(props.m[name]);
        clean := clean[name := c];
      }
    }
    out := Obj(clean);
  }

  method SanitizeList(list: seq<Json>) returns (out: seq<Json>)
    ensures SimplifiedList(list, out)
    decreases list, 0
  {
    out := [];
    for i := 0 to |list|
      invariant SimplifiedList(list[..i], out)
    {
      if list[i].Obj? {
        var c := Sanitize(list[i]);
        SimplifiedSnoc(list[..i], out, list[i], [c]);
        out := out + [c];
      } else {
        SimplifiedSnoc(list[..i], out, list[i], []);
        assert out + [] == out;
      }
      assert list[..i + 1] == list[..i] + [list[i]];
    }
    assert list[..|list|] == list;
  }

  lemma {:induction false} SimplifiedSnoc(list: seq<Json>, out: seq<Json>, last: Json, tail: seq<Json>)
    requires SimplifiedList(list, out)
    requires if last.Obj? then |tail| == 1 && Simplified(last, tail[0]) else tail == []
    ensures SimplifiedList(list + [last], out + tail)
  {
    if list == [] {
      assert list + [last] == [last] && out + tail == tail;
      assert [last][1..] == [] && (last.Obj? ==> tail[1..] == []);
    } else {
      assert (list + [last])[1..] == list[1..] + [last];
      if list[0].Obj? {
        SimplifiedSnoc(list[1..], out[1..], last, tail);
        assert (out + tail)[1..] == out[1..] + tail;
      } else {
        SimplifiedSnoc(list[1..], out, last, tail);
      }
    }
  }

  // ---------- Why the shape is needed ----------

  /** If no alternative is an object schema, nothing at all stays valid. */
  lemma {:induction false} BooleanAlternativesTighten(sem: Semantics, s: Json, out: Json, v: Json)
    requires Simplified(s, out) && AnyOf in s.m && s.m[AnyOf].Arr? && !(OneOf in s.m && s.m[OneOf].Arr?)
    requires forall i :: 0 <= i < |s.m[AnyOf].a| ==> !s.m[AnyOf].a[i].Obj?
    ensures !Valid(sem, out, v)
  {
    NoObjectsNothingLeft(s.m[AnyOf].a, out.m[AnyOf].a);
  }

  lemma {:induction false} NoObjectsNothingLeft(list: seq<Json>, out: seq<Json>)
    requires SimplifiedList(list, out) && forall i :: 0 <= i < |list| ==> !list[i].Obj?
    ensures out == []
  {
    if list != [] {
      NoObjectsNothingLeft(list[1..], out);
    }
  }

  /** A closed object loses every property that only a pattern or a boolean subschema allowed. */
  lemma {:induction false} ClosedObjectTightens(sem: Semantics, s: Json, out: Json, v: Json, k: Word)
    requires Simplified(s, out) && AdditionalProperties in s.m && s.m[AdditionalProperties] == Bool(false)
    requires v.Obj? && k in v.m && !(k in MapOf(s.m, Properties) && MapOf(s.m, Properties)[k].Obj?)
    ensures !Valid(sem, out, v)
  {
    assert out.m[AdditionalProperties] == Bool(false) && !Covered(sem, out.m, k);
  }

  /** Items that followed a prefix come to constrain the prefix too. */
  lemma {:induction false} PrefixTightens(sem: Semantics, s: Json, out: Json, v: Json, i: nat)
    requires Simplified(s, out) && Items in s.m && s.m[Items].Obj?
    requires v.Arr? && i < |v.a| && !Valid(sem, out.m[Items], v.a[i])
    ensures !Valid(sem, out, v)
  {
    assert ListOf(out.m, PrefixItems) == [];
  }

  /** A true among the alternatives admits everything, and is dropped: what only it admitted is lost. */
  lemma {:induction false} MixedAlternativesTighten(sem: Semantics, list: seq<Json>, i: nat, out: Json, v: Json)
    requires Sane(sem) && i < |list| && list[i] == Bool(true)
    requires Simplified(Obj(map[AnyOf := Arr(list)]), out)
    ensures Valid(sem, Obj(map[AnyOf := Arr(list)]), v)
    ensures Valid(sem, out, v) <==> AnyHolds(sem, out.m[AnyOf].a, v)
  {
    var m := map[AnyOf := Arr(list)];
    assert Unseen(m) == map[] && m[AnyOf].a[i] == Bool(true);
    AssertionsKept(m, out.m, v);
    AlternativesAlone(sem, out.m, v);
  }

  lemma {:induction false} AlternativesAlone(sem: Semantics, m: map<Word, Json>, v: Json)
    requires Sane(sem) && Unseen(m) == map[] && m.Keys == {AnyOf} && m[AnyOf].Arr?
    ensures Valid(sem, Obj(m), v) <==> AnyHolds(sem, m[AnyOf].a, v)
  {
    assert Assertions(m, v);
  }

  /** None of the three families is empty: before simplifying, these values were valid. */
  lemma {:induction false} PrefixAllows(sem: Semantics, items: Json, v: Json)
    requires Sane(sem)
    ensures Valid(sem, Obj(map[PrefixItems := Arr([Bool(true)]), Items := items]), Arr([v]))
  {
    var m := map[PrefixItems := Arr([Bool(true)]), Items := items];
    assert Unseen(m) == map[];
    assert ListOf(m, PrefixItems) == [Bool(true)];
  }

  const TEXT: Json := Obj(map[Type := Str(Other("string"))])

  /** One schema and one value: a list of anything and then text, and a list of a null. */
  lemma {:induction false} PrefixIsLost(sem: Semantics, out: Json)
    requires Sane(sem) && Simplified(Obj(map[PrefixItems := Arr([Bool(true)]), Items := TEXT]), out)
    ensures Valid(sem, Obj(map[PrefixItems := Arr([Bool(true)]), Items := TEXT]), Arr([Null]))
    ensures !Valid(sem, out, Arr([Null]))
  {
    var m := map[PrefixItems := Arr([Bool(true)]), Items := TEXT];
    PrefixAllows(sem, TEXT, Null);
    assert Items in m && m[Items] == TEXT;
    TextRefusesNull(sem, out.m[Items]);
    PrefixTightens(sem, Obj(m), out, Arr([Null]), 0);
  }

  lemma {:induction false} TextRefusesNull(sem: Semantics, out: Json)
    requires Simplified(TEXT, out)
    ensures !Valid(sem, out, Null)
  {
    assert Kept(Type) && TEXT.m[Type] == Str(Other("string"));
    assert |"string"| == 6 && |"null"| == 4;
    assert !TypeHolds(out.m[Type], Null);
  }

  /** One schema and one value: a closed object whose only property is named by a pattern. */
  lemma {:induction false} PatternIsLost(sem: Semantics, name: Word, v: Json, out: Json)
    requires Sane(sem) && sem.matches(name, name)
    requires var s := Obj(map[PatternProperties := Obj(map[name := Bool(true)]), AdditionalProperties := Bool(false)]);
             Simplified(s, out)
    ensures Valid(sem, Obj(map[PatternProperties := Obj(map[name := Bool(true)]), AdditionalProperties := Bool(false)]),
                  Obj(map[name := v]))
    ensures !Valid(sem, out, Obj(map[name := v]))
  {
    PatternAllows(sem, name, v);
    var m := map[PatternProperties := Obj(map[name := Bool(true)]), AdditionalProperties := Bool(false)];
    assert AdditionalProperties in m && MapOf(m, Properties) == map[];
    ClosedObjectTightens(sem, Obj(m), out, Obj(map[name := v]), name);
  }

  lemma {:induction false} AnythingGoes(sem: Semantics, v: Json)
    requires Sane(sem)
    ensures Valid(sem, Obj(map[AnyOf := Arr([Bool(true)])]), v)
  {
    var m := map[AnyOf := Arr([Bool(true)])];
    assert Unseen(m) == map[];
    assert m[AnyOf].a[0] == Bool(true);
  }

  lemma {:induction false} PatternAllows(sem: Semantics, name: Word, v: Json)
    requires Sane(sem) && sem.matches(name, name)
    ensures Valid(sem, Obj(map[PatternProperties := Obj(map[name := Bool(true)]), AdditionalProperties := Bool(false)]),
                  Obj(map[name := v]))
  {
    var m := map[PatternProperties := Obj(map[name := Bool(true)]), AdditionalProperties := Bool(false)];
    assert Unseen(m) == map[];
    var patterns := map[name := Bool(true)];
    assert MapOf(m, PatternProperties) == patterns && name in patterns;
    PatternsAllow(sem, m, patterns, Obj(map[name := v]));
  }

  lemma {:induction false} PatternsAllow(sem: Semantics, m: map<Word, Json>, patterns: map<Word, Json>, v: Json)
    requires m.Keys == {PatternProperties, AdditionalProperties} && m[PatternProperties] == Obj(patterns)
    requires v.Obj? && sem.others(m, v) && forall k :: k in v.m ==> Covered(sem, m, k)
    requires forall p :: p in patterns ==> patterns[p] == Bool(true)
    ensures Valid(sem, Obj(m), v)
  {
    assert Assertions(m, v);
    assert forall p, x :: p in patterns ==> Valid(sem, patterns[p], x);
  }
}
