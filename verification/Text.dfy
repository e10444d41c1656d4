/**
 The parts of Go's strings package the system leans on. A char is one Unicode code
 point, so a string is any valid UTF-8 text; ByteLen is what Go's len() reports.
 */
module Text {
  import opened Wrappers

  function CharBytes(c: char): nat {
    if c as int < 0x80 then 1
    else if c as int < 0x800 then 2
    else if c as int < 0x1_0000 then 3
    else 4
  }

  function ByteLen(s: string): (n: nat)
    ensures n >= |s|
  {
    if s == "" then 0 else CharBytes(s[0]) + ByteLen(s[1..])
  }

  /** unicode.IsSpace */
  predicate IsSpace(c: char) {
    var u := c as int;
    9 <= u <= 13 || u == 0x20 || u == 0x85 || u == 0xA0 || u == 0x1680 || 0x2000 <= u <= 0x200A
    || u == 0x2028 || u == 0x2029 || u == 0x202F || u == 0x205F || u == 0x3000
  }

  function TrimLeft(s: string, drop: char -> bool): (r: string) {
    if s != "" && drop(s[0]) then TrimLeft(s[1..], drop) else s
  }

  function TrimRight(s: string, drop: char -> bool): (r: string) {
    if s != "" && drop(s[|s| - 1]) then TrimRight(s[..|s| - 1], drop) else s
  }

  function TrimSpace(s: string): string {
    TrimRight(TrimLeft(s, IsSpace), IsSpace)
  }

  ghost predicate Every(s: string, p: char -> bool) {
    forall i :: 0 <= i < |s| ==> p(s[i])
  }

  /** s is core with a run of dropped characters before it. */
  ghost predicate CutFront(s: string, drop: char -> bool, pre: string, core: string) {
    s == pre + core && Every(pre, drop) && (core != "" ==> !drop(core[0]))
  }

  ghost predicate CutBack(s: string, drop: char -> bool, core: string, post: string) {
    s == core + post && Every(post, drop) && (core != "" ==> !drop(core[|core| - 1]))
  }

  /** Trimming takes a run of dropped characters off one end, and the longest one. */
  lemma {:induction false} TrimLeftCuts(s: string, drop: char -> bool) returns (pre: string)
    ensures CutFront(s, drop, pre, TrimLeft(s, drop))
  {
    pre := "";
    if s != "" && drop(s[0]) {
      pre := TrimLeftCuts(s[1..], drop);
      pre := [s[0]] + pre;
    }
  }

  lemma {:induction false} CutFrontTrims(s: string, drop: char -> bool, pre: string, core: string)
    requires CutFront(s, drop, pre, core)
    ensures TrimLeft(s, drop) == core
  {
    if pre == "" {
      assert s == core;
    } else {
      assert s[0] == pre[0] && s[1..] == pre[1..] + core;
      CutFrontTrims(s[1..], drop, pre[1..], core);
    }
  }

  lemma {:induction false} TrimRightCuts(s: string, drop: char -> bool) returns (post: string)
    ensures CutBack(s, drop, TrimRight(s, drop), post)
  {
    post := "";
    if s != "" && drop(s[|s| - 1]) {
      post := TrimRightCuts(s[..|s| - 1], drop);
      post := post + [s[|s| - 1]];
    } else {
      assert s == s + "";
    }
  }

  lemma {:induction false} CutBackTrims(s: string, drop: char -> bool, core: string, post: string)
    requires CutBack(s, drop, core, post)
    ensures TrimRight(s, drop) == core
  {
    if post == "" {
      assert s == core;
    } else {
      var n := |post| - 1;
      assert s[|s| - 1] == post[n] && s[..|s| - 1] == core + post[..n];
      CutBackTrims(s[..|s| - 1], drop, core, post[..n]);
    }
  }

  /** unicode.ToLower, exact for every character whose lower case is an ASCII letter. */
  function Lower(c: char): char {
    if 'A' <= c <= 'Z' then (c as int + 32) as char
    else if c == '\U{130}' then 'i'
    else if c == '\U{212A}' then 'k'
    else c
  }

  function ToLower(s: string): (r: string)
    ensures |r| == |s| && forall i :: 0 <= i < |s| ==> r[i] == Lower(s[i])
  {
    seq(|s|, i requires 0 <= i < |s| => Lower(s[i]))
  }

  // ---------- Splitting and joining ----------

  /** strings.Split on one character: never empty. */
  function SplitOn(s: string, c: char): (r: seq<string>)
    ensures r != []
  {
    if s == "" then [""]
    else
      var rest := SplitOn(s[1..], c);
      if s[0] == c then [""] + rest else [[s[0]] + rest[0]] + rest[1..]
  }

  function JoinWith(parts: seq<string>, c: char): string {
    if parts == [] then "" else if |parts| == 1 then parts[0] else parts[0] + [c] + JoinWith(parts[1..], c)
  }

  ghost predicate Without(parts: seq<string>, c: char) {
    forall i :: 0 <= i < |parts| ==> c !in parts[i]
  }

  lemma {:induction false} SplitConcat(a: string, b: string, c: char)
    ensures SplitOn(a + [c] + b, c) == SplitOn(a, c) + SplitOn(b, c)
  {
    var s := a + [c] + b;
    if a == "" {
      assert s[1..] == b && SplitOn(a, c) + SplitOn(b, c) == [""] + SplitOn(b, c);
    } else {
      assert s[0] == a[0] && s[1..] == a[1..] + [c] + b;
      SplitConcat(a[1..], b, c);
    }
  }

  lemma {:induction false} SplitWhole(s: string, c: char)
    requires c !in s
    ensures SplitOn(s, c) == [s]
  {
    if s != "" {
      SplitWhole(s[1..], c);
      assert [s[0]] + s[1..] == s;
    }
  }

  /** Splitting undoes joining. */
  lemma {:induction false} SplitOfJoin(parts: seq<string>, c: char)
    requires parts != [] && Without(parts, c)
    ensures SplitOn(JoinWith(parts, c), c) == parts
  {
    SplitWhole(parts[0], c);
    if |parts| > 1 {
      SplitConcat(parts[0], JoinWith(parts[1..], c), c);
      SplitOfJoin(parts[1..], c);
    }
  }

  lemma {:induction false} SplitIsWithout(s: string, c: char)
    ensures Without(SplitOn(s, c), c)
  {
    if s != "" {
      SplitIsWithout(s[1..], c);
    }
  }

  /** strings.Cut at the first occurrence of c. */
  function Cut(s: string, c: char): Option<(string, string)> {
    if s == "" then None
    else if s[0] == c then Some(("", s[1..]))
    else
      match Cut(s[1..], c)
      case None => None
      case Some((a, b)) => Some(([s[0]] + a, b))
  }

  lemma {:induction false} CutSplits(s: string, c: char)
    requires c in s
    ensures Cut(s, c).Some? && c !in Cut(s, c).value.0 && s == Cut(s, c).value.0 + [c] + Cut(s, c).value.1
  {
    if s[0] == c {
      assert s == "" + [c] + s[1..];
    } else {
      CutSplits(s[1..], c);
      var cut := Cut(s[1..], c).value;
      assert s == [s[0]] + (cut.0 + [c] + cut.1);
    }
  }

  lemma {:induction false} CutAt(a: string, b: string, c: char)
    requires c !in a
    ensures Cut(a + [c] + b, c) == Some((a, b)) && Cut(a, c) == None
  {
    var s := a + [c] + b;
    if a == "" {
      assert s[1..] == b;
    } else {
      assert s[1..] == a[1..] + [c] + b && [a[0]] + a[1..] == a;
      CutAt(a[1..], b, c);
    }
  }
}
