/**
 Line ranges in resource URIs: the parser, the printer, and the reader that cuts a text
 to them (internal/mcphost/resources.go).
 */
module Ranges {
  import opened Wrappers
  import opened Text

  const MAX_INT: int := 0x7FFF_FFFF_FFFF_FFFF
  const MIN_INT: int := -0x8000_0000_0000_0000

  // Lines first to last, both in it, where 1 is the first line of a text.
  datatype LineRange = LineRange(first: int, last: int)

  datatype Bad = UnknownFragment(fragment: string) | BadLine(part: string) | BadRange(part: string)

  // ---------- Numbers ----------

  predicate IsDigit(c: char) {
    '0' <= c <= '9'
  }

  function DigitChar(d: int): char
    requires 0 <= d < 10
  {
    ('0' as int + d) as char
  }

  function Digits(n: nat): (s: string)
    ensures s != "" && forall i :: 0 <= i < |s| ==> IsDigit(s[i])
  {
    if n < 10 then [DigitChar(n)] else Digits(n / 10) + [DigitChar(n % 10)]
  }

  function DigitsValue(s: string): int
    requires forall i :: 0 <= i < |s| ==> IsDigit(s[i])
  {
    if s == "" then 0 else DigitsValue(s[..|s| - 1]) * 10 + (s[|s| - 1] as int - '0' as int)
  }

  /** fmt's %d of a number that is not negative. */
  function Decimal(n: int): string {
    if n < 0 then "-" + Digits(-n) else Digits(n)
  }

  /** strconv.Atoi: an optional sign, digits, and a value that fits an int. */
  function Atoi(s: string): Option<int> {
    var body := if s != "" && (s[0] == '+' || s[0] == '-') then s[1..] else s;
    if body == "" || exists i :: 0 <= i < |body| && !IsDigit(body[i]) then None
    else
      var v := if s[0] == '-' then -DigitsValue(body) else DigitsValue(body);
      if MIN_INT <= v <= MAX_INT then Some(v) else None
  }

  lemma {:induction false} DigitsRead(n: nat)
    ensures DigitsValue(Digits(n)) == n
  {
    if n >= 10 {
      DigitsRead(n / 10);
      assert Digits(n)[..|Digits(n)| - 1] == Digits(n / 10);
    } else {
      assert Digits(n)[..0] == "";
    }
  }

  lemma {:induction false} AtoiOfDecimal(n: int)
    requires 0 <= n <= MAX_INT
    ensures Atoi(Decimal(n)) == Some(n)
  {
    DigitsRead(n);
    assert IsDigit(Digits(n)[0]);
  }

  // ---------- Parsing ----------

  function ParsePart(part: string): Result<LineRange, Bad> {
    if part == "" || (part[0] != 'L' && part[0] != 'l') then Err(UnknownFragment(part))
    else
      var cut := Cut(part[1..], '-');
      var from := Atoi(TrimSpace(if cut.Some? then cut.value.0 else part[1..]));
      if from.None? || from.value < 1 then Err(BadLine(part))
      else if cut.None? then Ok(LineRange(from.value, from.value))
      else
        var to := Atoi(TrimSpace(cut.value.1));
        if to.None? || to.value < from.value then Err(BadRange(part)) else Ok(LineRange(from.value, to.value))
  }

  function ParseParts(frag: string, parts: seq<string>): Result<seq<LineRange>, Bad> {
    if parts == [] then Ok([])
    else
      match ParsePart(TrimSpace(parts[0]))
      case Err(UnknownFragment(_)) => Err(UnknownFragment(frag))
      case Err(e) => Err(e)
      case Ok(r) =>
        match ParseParts(frag, parts[1..])
        case Ok(rest) => Ok([r] + rest)
        case Err(e) => Err(e)
  }

  /** What comes before the first '#', and the spans after it; no spans without a '#' or with blanks after it. */
  function Parsed(uri: string): Result<(string, seq<LineRange>), Bad> {
    match Cut(uri, '#')
    case None => Ok((uri, []))
    case Some((base, frag)) =>
      if TrimSpace(frag) == "" then Ok((uri, []))
      else
        match ParseParts(frag, SplitOn(frag, ','))
        case Ok(rs) => Ok((base, rs))
        case Err(e) => Err(e)
  }

  method CutRanges(uri: string) returns (r: Result<(string, seq<LineRange>), Bad>)
    ensures r == Parsed(uri)
  {
    var cut := Cut(uri, '#');
    if cut.None? || TrimSpace(cut.value.1) == "" {
      return Ok((uri, []));
    }
    var frag := cut.value.1;
    var parts := SplitOn(frag, ',');
    var out: seq<LineRange> := [];
    assert parts[0..] == parts && forall rest: seq<LineRange> :: out + rest == rest;
    for i := 0 to |parts|
      invariant ParseParts(frag, parts) ==
                match ParseParts(frag, parts[i..])
                case Ok(rest) => Ok(out + rest)
                case Err(e) => Err(e)
    {
      assert parts[i..][1..] == parts[i + 1..];
      var p := ParsePart(TrimSpace(parts[i]));
      match p {
        case Err(UnknownFragment(_)) => return Err(UnknownFragment(frag));
        case Err(e) => return Err(e);
        case Ok(span) => out := out + [span];
      }
      assert forall rest: seq<LineRange> :: out[..|out| - 1] + ([p.value] + rest) == out + rest;
    }
    assert out + [] == out;
    r := Ok((cut.value.0, out));
  }

  // ---------- Printing ----------

  function RangeText(r: LineRange): string {
    if r.first == r.last then "L" + Decimal(r.first) else "L" + Decimal(r.first) + "-" + Decimal(r.last)
  }

  function RangeTexts(rs: seq<LineRange>): (texts: seq<string>)
    ensures |texts| == |rs|
  {
    if rs == [] then [] else [RangeText(rs[0])] + RangeTexts(rs[1..])
  }

  function WithRanges(base: string, rs: seq<LineRange>): string {
    base + ['#'] + JoinWith(RangeTexts(rs), ',')
  }

  ghost predicate Proper(r: LineRange) {
    1 <= r.first <= r.last <= MAX_INT
  }

  lemma {:induction false} TrimIsIdle(s: string)
    requires s != "" && !IsSpace(s[0]) && !IsSpace(s[|s| - 1])
    ensures TrimSpace(s) == s
  {
  }

  lemma {:induction false} DecimalIsPlain(n: int)
    requires 0 <= n
    ensures var d := Decimal(n);
            d != "" && TrimSpace(d) == d && '-' !in d && ',' !in d && '#' !in d
            && IsDigit(d[|d| - 1])
  {
    var d := Decimal(n);
    assert forall i :: 0 <= i < |d| ==> IsDigit(d[i]);
    TrimIsIdle(d);
  }

  lemma {:induction false} TextIsPlain(r: LineRange)
    requires Proper(r)
    ensures var t := RangeText(r); t != "" && t[0] == 'L' && TrimSpace(t) == t && ',' !in t && !IsSpace(t[|t| - 1])
  {
    DecimalIsPlain(r.first);
    DecimalIsPlain(r.last);
    var t := RangeText(r);
    if r.first == r.last {
      assert t[|t| - 1] == Decimal(r.first)[|Decimal(r.first)| - 1];
    } else {
      assert t[|t| - 1] == Decimal(r.last)[|Decimal(r.last)| - 1];
    }
    TrimIsIdle(t);
  }

  /** The parser reads back what the printer wrote for one range. */
  lemma {:induction false} PartReadsBack(r: LineRange)
    requires Proper(r)
    ensures ParsePart(RangeText(r)) == Ok(r)
  {
    var t, from, to := RangeText(r), Decimal(r.first), Decimal(r.last);
    DecimalIsPlain(r.first);
    DecimalIsPlain(r.last);
    AtoiOfDecimal(r.first);
    AtoiOfDecimal(r.last);
    if r.first == r.last {
      assert t[1..] == from;
      CutAt(from, "", '-');
    } else {
      assert t[1..] == from + ['-'] + to;
      CutAt(from, to, '-');
    }
  }

  lemma {:induction false} FirstPartReads(frag: string, parts: seq<string>, rs: seq<LineRange>)
    requires parts != [] && rs != [] && ParsePart(TrimSpace(parts[0])) == Ok(rs[0])
    requires ParseParts(frag, parts[1..]) == Ok(rs[1..])
    ensures ParseParts(frag, parts) == Ok(rs)
  {
    assert [rs[0]] + rs[1..] == rs;
  }

  lemma {:induction false} PartsReadBack(frag: string, rs: seq<LineRange>)
    requires forall i :: 0 <= i < |rs| ==> Proper(rs[i])
    ensures ParseParts(frag, RangeTexts(rs)) == Ok(rs) && Without(RangeTexts(rs), ',')
  {
    if rs != [] {
      var texts, rest := RangeTexts(rs), RangeTexts(rs[1..]);
      PartsReadBack(frag, rs[1..]);
      assert texts[0] == RangeText(rs[0]) && texts[1..] == rest;
      assert ParsePart(TrimSpace(texts[0])) == Ok(rs[0]) && ',' !in texts[0] by {
        TextIsPlain(rs[0]);
        PartReadsBack(rs[0]);
      }
      FirstPartReads(frag, texts, rs);
    }
  }

  /** Printer and parser undo each other, for any base without a fragment and any ranges. */
  lemma {:induction false} RangesReadBack(base: string, rs: seq<LineRange>)
    requires '#' !in base && rs != [] && forall i :: 0 <= i < |rs| ==> Proper(rs[i])
    ensures Parsed(WithRanges(base, rs)) == Ok((base, rs))
  {
    var texts := RangeTexts(rs);
    var frag := JoinWith(texts, ',');
    CutAt(base, frag, '#');
    PartsReadBack(frag, rs);
    SplitOfJoin(texts, ',');
    TextIsPlain(rs[0]);
    assert texts[0] == RangeText(rs[0]) && frag[0] == 'L';
    NotBlank(frag);
  }

  lemma {:induction false} NotBlank(s: string)
    requires s != "" && !IsSpace(s[0])
    ensures TrimSpace(s) != ""
  {
    assert TrimLeft(s, IsSpace) == s;
    var post := TrimRightCuts(s, IsSpace);
    assert TrimSpace(s) == "" ==> s == post;
  }

  /** And whatever the parser accepts is proper: the printer could have written it. */
  lemma {:induction false} ParsedIsProper(frag: string, parts: seq<string>)
    requires ParseParts(frag, parts).Ok?
    ensures |ParseParts(frag, parts).value| == |parts|
    ensures forall i :: 0 <= i < |parts| ==> Proper(ParseParts(frag, parts).value[i])
  {
    if parts != [] {
      ParsedIsProper(frag, parts[1..]);
    }
  }

  // ---------- Reading ranges ----------

  /** r cut to a text of n lines, or nothing when it starts beyond them. */
  function Clipped(r: LineRange, n: nat): (c: Option<LineRange>)
    ensures c.Some? && 1 <= r.first ==> 1 <= c.value.first <= c.value.last <= n
  {
    var to := if r.last > n then n else r.last;
    if r.first > n || to < r.first then None else Some(LineRange(r.first, to))
  }

  function Selected(lines: seq<string>, r: LineRange): seq<string>
    requires 1 <= r.first <= r.last <= |lines|
  {
    lines[r.first - 1..r.last]
  }

  function Header(base: string, c: LineRange): string {
    base + "#" + RangeText(c)
  }

  /** One span as the reader prints it: its header, then its lines. */
  function Section(base: string, lines: seq<string>, c: LineRange): string
    requires 1 <= c.first <= c.last <= |lines|
  {
    Header(base, c) + "\n" + JoinWith(Selected(lines, c), '\n') + "\n"
  }

  /** What the reader prints for one range, after text or first. */
  function PrintedOne(base: string, lines: seq<string>, first: bool, r: LineRange): string
    requires Proper(r)
  {
    match Clipped(r, |lines|)
    case None => Header(base, r) + "  (file has " + Decimal(|lines|) + " lines)\n"
    case Some(c) => (if first then "" else "\n") + Section(base, lines, c)
  }

  /** What the reader prints after acc. */
  function Printed(base: string, lines: seq<string>, acc: string, rs: seq<LineRange>): string
    requires forall i :: 0 <= i < |rs| ==> Proper(rs[i])
    decreases |rs|
  {
    if rs == [] then acc
    else
      assert Proper(rs[0]);
      Printed(base, lines, acc + PrintedOne(base, lines, acc == "", rs[0]), rs[1..])
  }

  /** Without the newlines at its end. */
  function Trimmed(s: string): string {
    TrimRight(s, IsNewline)
  }

  predicate IsNewline(c: char) {
    c == '\n'
  }

  function Sliced(base: string, text: string, rs: seq<LineRange>): string
    requires forall i :: 0 <= i < |rs| ==> Proper(rs[i])
  {
    Trimmed(Printed(base, SplitOn(text, '\n'), "", rs))
  }

  method PrintSpan(base: string, lines: seq<string>, first: bool, r: LineRange) returns (one: string)
    requires Proper(r)
    ensures one == PrintedOne(base, lines, first, r)
  {
    var from, to := r.first, r.last;
    if to > |lines| {
      to := |lines|;
    }
    if from > |lines| || to < from {
      return base + "#" + RangeText(r) + "  (file has " + Decimal(|lines|) + " lines)\n";
    }
    one := base + "#" + RangeText(LineRange(from, to)) + "\n" + JoinWith(lines[from - 1..to], '\n') + "\n";
    if !first {
      one := "\n" + one;
    }
  }

  method SliceRanges(base: string, text: string, ranges: seq<LineRange>) returns (out: string)
    requires forall i :: 0 <= i < |ranges| ==> Proper(ranges[i])
    ensures out == Sliced(base, text, ranges)
  {
    var lines := SplitOn(text, '\n');
    var b := "";
    for i := 0 to |ranges|
      invariant Printed(base, lines, b, ranges[i..]) == Printed(base, lines, "", ranges)
    {
      assert ranges[i..][1..] == ranges[i + 1..] && ranges[i..][0] == ranges[i];
      var one := PrintSpan(base, lines, b == "", ranges[i]);
      b := b + one;
    }
    out := Trimmed(b);
  }

  lemma {:induction false} HeaderIs(base: string, c: LineRange)
    ensures Header(base, c) == WithRanges(base, [c])
  {
    assert RangeTexts([c]) == [RangeText(c)];
  }

  lemma {:induction false} OneSpanPrints(base: string, lines: seq<string>, r: LineRange)
    requires Proper(r) && r.first <= |lines|
    ensures Printed(base, lines, "", [r]) == Section(base, lines, Clipped(r, |lines|).value)
  {
    var section := Section(base, lines, Clipped(r, |lines|).value);
    assert [r][1..] == [] && "" + ("" + section) == section;
  }

  lemma {:induction false} SpanPrintsTheSame(base: string, text: string, r: LineRange, c: LineRange)
    requires Proper(r) && r.first <= |SplitOn(text, '\n')| && Clipped(r, |SplitOn(text, '\n')|) == Some(c)
    ensures Proper(c) && Sliced(base, text, [c]) == Sliced(base, text, [r])
  {
    var lines := SplitOn(text, '\n');
    assert Clipped(c, |lines|) == Some(c);
    OneSpanPrints(base, lines, r);
    OneSpanPrints(base, lines, c);
  }

  lemma {:induction false} PrintedExtends(base: string, lines: seq<string>, acc: string, rs: seq<LineRange>) returns (post: string)
    requires forall i :: 0 <= i < |rs| ==> Proper(rs[i])
    ensures Printed(base, lines, acc, rs) == acc + post
    decreases |rs|
  {
    post := "";
    if rs != [] {
      var one := PrintedOne(base, lines, acc == "", rs[0]);
      post := PrintedExtends(base, lines, acc + one, rs[1..]);
      Regrouped(acc, one, post);
      post := one + post;
    }
  }

  lemma {:induction false} PrintedInTwo(
      base: string, lines: seq<string>, acc: string, a: seq<LineRange>, b: seq<LineRange>)
    requires forall j :: 0 <= j < |a + b| ==> Proper((a + b)[j])
    ensures forall j :: 0 <= j < |a| ==> Proper(a[j])
    ensures forall j :: 0 <= j < |b| ==> Proper(b[j])
    ensures Printed(base, lines, acc, a + b) == Printed(base, lines, Printed(base, lines, acc, a), b)
    decreases |a|
  {
    assert forall j :: 0 <= j < |a| ==> a[j] == (a + b)[j];
    assert forall j :: 0 <= j < |b| ==> b[j] == (a + b)[|a| + j];
    if a == [] {
      assert a + b == b;
    } else {
      assert (a + b)[0] == a[0] && (a + b)[1..] == a[1..] + b;
      PrintedInTwo(base, lines, acc + PrintedOne(base, lines, acc == "", a[0]), a[1..], b);
    }
  }

  lemma {:induction false} SectionInList(base: string, lines: seq<string>, rs: seq<LineRange>, i: nat)
      returns (pre: string, post: string)
    requires i < |rs| && (forall j :: 0 <= j < |rs| ==> Proper(rs[j])) && rs[i].first <= |lines|
    ensures Printed(base, lines, "", rs) == pre + Section(base, lines, Clipped(rs[i], |lines|).value) + post
  {
    var a, b := rs[..i], rs[i..];
    assert rs == a + b && b[0] == rs[i];
    PrintedInTwo(base, lines, "", a, b);
    pre, post := SectionFirst(base, lines, Printed(base, lines, "", a), b);
  }

  lemma {:induction false} SectionFirst(base: string, lines: seq<string>, acc: string, rs: seq<LineRange>)
      returns (pre: string, post: string)
    requires rs != [] && (forall j :: 0 <= j < |rs| ==> Proper(rs[j])) && rs[0].first <= |lines|
    ensures Printed(base, lines, acc, rs) == pre + Section(base, lines, Clipped(rs[0], |lines|).value) + post
  {
    var gap, section := if acc == "" then "" else "\n", Section(base, lines, Clipped(rs[0], |lines|).value);
    assert PrintedOne(base, lines, acc == "", rs[0]) == gap + section;
    post := PrintedExtends(base, lines, acc + (gap + section), rs[1..]);
    pre := acc + gap;
    Regrouped(acc, gap, section);
  }

  lemma {:induction false} SpanReadsBack(base: string, text: string, r: LineRange) returns (c: LineRange)
    requires '#' !in base && Proper(r) && r.first <= |SplitOn(text, '\n')|
    ensures Clipped(r, |SplitOn(text, '\n')|) == Some(c) && Proper(c)
    ensures Parsed(Header(base, c)) == Ok((base, [c]))
    ensures Sliced(base, text, [c]) == Sliced(base, text, [r])
  {
    c := Clipped(r, |SplitOn(text, '\n')|).value;
    SpanPrintsTheSame(base, text, r, c);
    HeaderIs(base, c);
    RangesReadBack(base, [c]);
  }

  lemma {:induction false} TrimRightKeeps(a: string, b: string, drop: char -> bool)
    requires TrimRight(b, drop) != "" || (a != "" && !drop(a[|a| - 1]))
    ensures TrimRight(a + b, drop) == a + TrimRight(b, drop)
  {
    if b == "" {
      assert a + b == a;
    } else {
      var n := |b| - 1;
      assert (a + b)[|a + b| - 1] == b[n] && (a + b)[..|a + b| - 1] == a + b[..n];
      if drop(b[n]) {
        TrimRightKeeps(a, b[..n], drop);
      }
    }
  }

  lemma {:induction false} HeaderEndsInDigit(base: string, c: LineRange)
    requires Proper(c)
    ensures var h := Header(base, c); h != "" && !IsNewline(h[|h| - 1])
  {
    DecimalIsPlain(c.first);
    DecimalIsPlain(c.last);
    var t := RangeText(c);
    assert t == "L" + Decimal(c.first) || t == "L" + Decimal(c.first) + "-" + Decimal(c.last);
    assert Header(base, c)[|Header(base, c)| - 1] == t[|t| - 1];
    assert IsDigit(t[|t| - 1]);
  }

  /** The lines a header announces, as they stand in what the reader returns. */
  function Body(lines: seq<string>, c: LineRange): string
    requires 1 <= c.first <= c.last <= |lines|
  {
    "\n" + JoinWith(Selected(lines, c), '\n') + "\n"
  }

  lemma {:induction false} TrimmedAfter(pre: string, base: string, lines: seq<string>, c: LineRange, post: string)
    requires Proper(c) && c.last <= |lines|
    ensures Trimmed(pre + Section(base, lines, c) + post)
         == pre + Header(base, c) + Trimmed(Body(lines, c) + post)
    ensures Trimmed(post) != "" ==>
              Trimmed(Body(lines, c) + post) == Body(lines, c) + Trimmed(post)
  {
    var h, body := Header(base, c), Body(lines, c);
    HeaderEndsInDigit(base, c);
    assert Section(base, lines, c) == h + body;
    assert pre + (h + body) + post == (pre + h) + (body + post);
    assert (pre + h)[|pre + h| - 1] == h[|h| - 1];
    TrimRightKeeps(pre + h, body + post, IsNewline);
    if Trimmed(post) != "" {
      TrimRightKeeps(body, post, IsNewline);
    }
  }

  /** Between pre and post, out has c's header and its lines, in full unless only newlines follow. */
  ghost predicate StandsIn(out: string, base: string, lines: seq<string>, c: LineRange, pre: string, post: string)
    requires 1 <= c.first <= c.last <= |lines|
  {
    && out == pre + Header(base, c) + Trimmed(Body(lines, c) + post)
    && (Trimmed(post) != "" ==> Trimmed(Body(lines, c) + post) == Body(lines, c) + Trimmed(post))
  }

  /** Reading c alone and reading r alone give the same. */
  ghost predicate ReadAlike(base: string, text: string, c: LineRange, r: LineRange)
    requires Proper(c) && Proper(r)
  {
    Sliced(base, text, [c]) == Sliced(base, text, [r])
  }

  /**
   Every header the reader returns can be used as it stands: the ith range that starts in
   the text is there as a header and the lines it selects, in full unless only newlines
   follow them; the header parses to a span of exactly those lines; and reading that span
   alone gives what reading the range gives.
   */
  lemma {:induction false} HeadersReadBack(base: string, text: string, lines: seq<string>, rs: seq<LineRange>, i: nat)
      returns (c: LineRange, pre: string, post: string)
    requires '#' !in base && i < |rs| && forall j :: 0 <= j < |rs| ==> Proper(rs[j])
    requires lines == SplitOn(text, '\n') && rs[i].first <= |lines|
    ensures c == LineRange(rs[i].first, if rs[i].last > |lines| then |lines| else rs[i].last) && Proper(c) && c.last <= |lines|
    ensures StandsIn(Sliced(base, text, rs), base, lines, c, pre, post)
    ensures Parsed(Header(base, c)) == Ok((base, [c]))
    ensures Proper(rs[i]) && ReadAlike(base, text, c, rs[i])
  {
    c := SpanReadsBack(base, text, rs[i]);
    pre, post := SectionInList(base, lines, rs, i);
    TrimmedAfter(pre, base, lines, c, post);
  }

  // ---------- Any spelling, any list ----------

  /** A range in either case, with blanks around the part and its numbers, and a single line as a line or a span. */
  ghost predicate Spells(part: string, r: LineRange, letter: char, a: string, b: string) {
    && (letter == 'L' || letter == 'l') && TrimSpace(a) == Decimal(r.first) && '-' !in a
    && ((TrimSpace(part) == [letter] + a && r.first == r.last)
        || (TrimSpace(part) == [letter] + a + "-" + b && TrimSpace(b) == Decimal(r.last)))
  }

  ghost predicate IsSpelled(part: string, r: LineRange) {
    exists letter, a, b :: Spells(part, r, letter, a, b)
  }

  lemma {:induction false} SpelledPartReads(part: string, r: LineRange, letter: char, a: string, b: string)
    requires Proper(r) && Spells(part, r, letter, a, b)
    ensures ParsePart(TrimSpace(part)) == Ok(r)
  {
    var t := TrimSpace(part);
    AtoiOfDecimal(r.first);
    AtoiOfDecimal(r.last);
    if t == [letter] + a {
      assert t[1..] == a;
      CutAt(a, "", '-');
    } else {
      assert t[1..] == a + ['-'] + b;
      CutAt(a, b, '-');
    }
  }

  lemma {:induction false} AnySpellingReads(part: string, r: LineRange)
    requires Proper(r) && IsSpelled(part, r)
    ensures ParsePart(TrimSpace(part)) == Ok(r)
  {
    var letter, a, b :| Spells(part, r, letter, a, b);
    SpelledPartReads(part, r, letter, a, b);
  }

  lemma {:induction false} SpelledPartsRead(frag: string, parts: seq<string>, rs: seq<LineRange>)
    requires |parts| == |rs| && forall i :: 0 <= i < |rs| ==> Proper(rs[i])
    requires forall i :: 0 <= i < |rs| ==> IsSpelled(parts[i], rs[i])
    ensures ParseParts(frag, parts) == Ok(rs)
  {
    if rs != [] {
      AnySpellingReads(parts[0], rs[0]);
      SpelledPartsRead(frag, parts[1..], rs[1..]);
      FirstPartReads(frag, parts, rs);
    }
  }

  /** The parser reads every such spelling of a list of ranges, and a text without a fragment, or with a blank one, whole. */
  lemma {:induction false} SpellingsRead(base: string, parts: seq<string>, rs: seq<LineRange>)
    requires '#' !in base && parts != [] && |parts| == |rs| && Without(parts, ',')
    requires forall i :: 0 <= i < |rs| ==> Proper(rs[i]) && IsSpelled(parts[i], rs[i])
    requires TrimSpace(JoinWith(parts, ',')) != ""
    ensures Parsed(base + "#" + JoinWith(parts, ',')) == Ok((base, rs))
    ensures Parsed(base) == Ok((base, []))
    ensures forall blank :: TrimSpace(blank) == "" ==> Parsed(base + "#" + blank) == Ok((base + "#" + blank, []))
  {
    var frag := JoinWith(parts, ',');
    CutAt(base, frag, '#');
    SplitOfJoin(parts, ',');
    SpelledPartsRead(frag, parts, rs);
    forall blank | TrimSpace(blank) == "" ensures Parsed(base + "#" + blank) == Ok((base + "#" + blank, [])) {
      CutAt(base, blank, '#');
    }
  }

  function Concat(pieces: seq<string>): string {
    if pieces == [] then "" else pieces[0] + Concat(pieces[1..])
  }

  /** What is printed for r, after something else or first: its lines under a header of its own, or how long the text is. */
  ghost predicate PieceFor(base: string, lines: seq<string>, r: LineRange, first: bool, piece: string)
    requires Proper(r)
  {
    var last := if r.last > |lines| then |lines| else r.last;
    piece == if r.first > |lines| then base + "#" + RangeText(r) + "  (file has " + Decimal(|lines|) + " lines)\n"
             else (if first then "" else "\n")
                  + (base + "#" + RangeText(LineRange(r.first, last)) + "\n" + JoinWith(lines[r.first - 1..last], '\n') + "\n")
  }

  ghost predicate PiecesFor(base: string, lines: seq<string>, rs: seq<LineRange>, first: bool, pieces: seq<string>)
    requires forall i :: 0 <= i < |rs| ==> Proper(rs[i])
  {
    |pieces| == |rs| && forall i :: 0 <= i < |rs| ==> PieceFor(base, lines, rs[i], first && i == 0, pieces[i])
  }

  lemma {:induction false} PrintedInOrder(base: string, lines: seq<string>, acc: string, rs: seq<LineRange>)
      returns (pieces: seq<string>)
    requires forall i :: 0 <= i < |rs| ==> Proper(rs[i])
    ensures PiecesFor(base, lines, rs, acc == "", pieces) && Printed(base, lines, acc, rs) == acc + Concat(pieces)
    decreases |rs|
  {
    pieces := [];
    if rs == [] {
      assert acc + "" == acc;
    } else {
      var one := PrintedOne(base, lines, acc == "", rs[0]);
      assert PieceFor(base, lines, rs[0], acc == "", one);
      var rest := PrintedInOrder(base, lines, acc + one, rs[1..]);
      assert one != "";
      pieces := [one] + rest;
      assert pieces[1..] == rest;
      Regrouped(acc, one, Concat(rest));
      forall i | 0 <= i < |rs| ensures PieceFor(base, lines, rs[i], acc == "" && i == 0, pieces[i]) {
        assert i > 0 ==> pieces[i] == rest[i - 1] && rs[i] == rs[1..][i - 1];
      }
    }
  }

  /** Every range asked for is answered, in the order asked, with its lines or a note, and nothing else is printed. */
  lemma {:induction false} SlicesInOrder(base: string, text: string, rs: seq<LineRange>) returns (pieces: seq<string>)
    requires forall i :: 0 <= i < |rs| ==> Proper(rs[i])
    ensures PiecesFor(base, SplitOn(text, '\n'), rs, true, pieces)
    ensures Sliced(base, text, rs) == Trimmed(Concat(pieces))
  {
    pieces := PrintedInOrder(base, SplitOn(text, '\n'), "", rs);
    assert "" + Concat(pieces) == Concat(pieces);
  }
}
