/**
 The bounded lessons file (internal/servers/memory/server.go). Here a string is a
 sequence of bytes, as in Go, because a long lesson is cut between bytes; what depends
 on Unicode (white space, case, runs of spaces) is a parameter.
 */
module Lessons {
  import opened Text

  const MAX_BYTES: nat := 1024
  const MAX_PER_RUN: nat := 3
  const LINE_MAX: nat := 200
  const STAMP_LENGTH: nat := 10 // YYYY-MM-DD
  const ELLIPSIS: string := ['\U{E2}', '\U{80}', '\U{A6}']

  // strings.TrimSpace, and the folding that ends lessonKey.
  datatype Unicode = Unicode(trim: string -> string, fold: string -> string)

  /** All that is asked of trimming: it adds no newline, leaves no blank at the end, and keeps a dash. */
  ghost predicate TrimsWell(u: Unicode, s: string) {
    && ('\n' !in s ==> '\n' !in u.trim(s))
    && (u.trim(s) != "" ==> !Blank(u.trim(s)[|u.trim(s)| - 1]))
    && ('-' in s ==> u.trim(s) != "")
  }

  ghost predicate Sane(u: Unicode) {
    u.trim("") == "" && forall s :: TrimsWell(u, s)
  }

  predicate Blank(c: char) {
    c == ' ' || c == '\t'
  }

  function WithoutNewlines(s: string): (r: string)
    ensures |r| == |s| && '\n' !in r
  {
    seq(|s|, i requires 0 <= i < |s| => if s[i] == '\n' then ' ' else s[i])
  }

  function Bounded(l: string): string {
    if |l| > LINE_MAX then l[..LINE_MAX] + ELLIPSIS else l
  }

  function DropDash(s: string): string {
    if s != "" && s[0] == '-' then s[1..] else s
  }

  /** What two lines must share to count as one lesson. */
  function LessonKey(u: Unicode, line: string): string {
    var s := u.trim(DropDash(u.trim(line)));
    u.fold(if |s| > STAMP_LENGTH && s[4] == '-' && s[7] == '-' then u.trim(s[STAMP_LENGTH..]) else s)
  }

  function LineFor(stamp: string, l: string): string {
    "- " + stamp + " " + Bounded(l)
  }

  /** The lines that lessons add when the keys in seen are taken and room more fit. */
  function Added(u: Unicode, stamp: string, seen: set<string>, lessons: seq<string>, room: nat): seq<string>
    decreases |lessons|
  {
    if room == 0 || lessons == [] then []
    else
      var l := u.trim(WithoutNewlines(lessons[0]));
      var key := LessonKey(u, LineFor(stamp, l));
      if l == "" || key == "" || key in seen then Added(u, stamp, seen, lessons[1..], room)
      else [LineFor(stamp, l)] + Added(u, stamp, seen + {key}, lessons[1..], room - 1)
  }

  function TextOf(lines: seq<string>): string {
    JoinWith(lines, '\n') + "\n"
  }

  /** The longest tail whose text is within max, or the last line alone. */
  function Newest(lines: seq<string>, max: nat): seq<string> {
    if |TextOf(lines)| <= max || |lines| <= 1 then lines else Newest(lines[1..], max)
  }

  function NonBlank(u: Unicode, parts: seq<string>): seq<string> {
    if parts == [] then []
    else (if u.trim(parts[0]) != "" then [TrimRight(parts[0], Blank)] else []) + NonBlank(u, parts[1..])
  }

  function SplitLines(u: Unicode, body: string): seq<string> {
    NonBlank(u, SplitOn(body, '\n'))
  }

  function Keys(u: Unicode, lines: seq<string>): set<string> {
    set i | 0 <= i < |lines| :: LessonKey(u, lines[i])
  }

  function AppendTo(u: Unicode, body: string, lessons: seq<string>, stamp: string): string {
    if lessons == [] then body
    else
      var lines := SplitLines(u, body);
      TextOf(Newest(lines + Added(u, stamp, Keys(u, lines), lessons, MAX_PER_RUN), MAX_BYTES))
  }

  // ---------- What the file keeps ----------

  ghost predicate GoodLine(u: Unicode, l: string) {
    '\n' !in l && u.trim(l) != "" && l != "" && !Blank(l[|l| - 1]) && |l| <= LINE_MAX + |ELLIPSIS| + STAMP_LENGTH + 3
  }

  ghost predicate DistinctKeys(u: Unicode, lines: seq<string>) {
    forall i, j :: 0 <= i < j < |lines| ==> LessonKey(u, lines[i]) != LessonKey(u, lines[j])
  }

  ghost predicate GoodLines(u: Unicode, lines: seq<string>) {
    (forall i :: 0 <= i < |lines| ==> GoodLine(u, lines[i])) && DistinctKeys(u, lines)
  }

  /** A file within its cap, no lesson twice, that reads back as it was written. */
  ghost predicate WellKept(u: Unicode, body: string) {
    var lines := SplitLines(u, body);
    GoodLines(u, lines) && |body| <= MAX_BYTES && (body == "" || body == TextOf(lines))
  }

  lemma {:induction false} KeysSnoc(u: Unicode, lines: seq<string>, l: string)
    ensures Keys(u, lines + [l]) == Keys(u, lines) + {LessonKey(u, l)}
  {
    var all := lines + [l];
    forall k ensures k in Keys(u, all) <==> k in Keys(u, lines) + {LessonKey(u, l)} {
      if k in Keys(u, lines) {
        var i :| 0 <= i < |lines| && LessonKey(u, lines[i]) == k;
        assert all[i] == lines[i];
      }
      if k == LessonKey(u, l) {
        assert all[|lines|] == l;
      }
      if k in Keys(u, all) {
        var i :| 0 <= i < |all| && LessonKey(u, all[i]) == k;
        assert i < |lines| ==> all[i] == lines[i];
      }
    }
  }

  lemma {:induction false} InEither(u: Unicode, a: seq<string>, b: seq<string>, key: string)
    requires key in Keys(u, a) || exists j :: 0 <= j < |b| && LessonKey(u, b[j]) == key
    ensures key in Keys(u, a + b)
  {
    if key in Keys(u, a) {
      var i :| 0 <= i < |a| && LessonKey(u, a[i]) == key;
      assert (a + b)[i] == a[i];
    } else {
      var j :| 0 <= j < |b| && LessonKey(u, b[j]) == key;
      assert (a + b)[|a| + j] == b[j];
    }
  }

  lemma {:induction false} LineIsGood(u: Unicode, stamp: string, l: string)
    requires Sane(u) && |stamp| == STAMP_LENGTH && '\n' !in stamp
    requires l != "" && '\n' !in l && !Blank(l[|l| - 1])
    ensures GoodLine(u, LineFor(stamp, l))
  {
    var line := LineFor(stamp, l);
    assert line[0] == '-' && TrimsWell(u, line);
    assert line[|line| - 1] == Bounded(l)[|Bounded(l)| - 1];
    assert '\n' !in Bounded(l);
  }

  /** What is added is new, good, and at most room lines. */
  lemma {:induction false} AddedIsGood(u: Unicode, stamp: string, lines: seq<string>, lessons: seq<string>, room: nat)
    requires Sane(u) && |stamp| == STAMP_LENGTH && '\n' !in stamp && GoodLines(u, lines)
    ensures var more := Added(u, stamp, Keys(u, lines), lessons, room);
            |more| <= room && GoodLines(u, lines + more)
    decreases |lessons|
  {
    if room == 0 || lessons == [] {
      assert lines + [] == lines;
    } else {
      var l := u.trim(WithoutNewlines(lessons[0]));
      var line := LineFor(stamp, l);
      if l == "" || LessonKey(u, line) == "" || LessonKey(u, line) in Keys(u, lines) {
        AddedIsGood(u, stamp, lines, lessons[1..], room);
      } else {
        var next := lines + [line];
        LineExtends(u, stamp, lines, WithoutNewlines(lessons[0]));
        AddedIsGood(u, stamp, next, lessons[1..], room - 1);
        Regroup(lines, line, Added(u, stamp, Keys(u, next), lessons[1..], room - 1));
      }
    }
  }

  lemma Regroup(a: seq<string>, b: string, c: seq<string>)
    ensures a + ([b] + c) == a + [b] + c
  {
  }

  lemma {:induction false} LineExtends(u: Unicode, stamp: string, lines: seq<string>, raw: string)
    requires Sane(u) && |stamp| == STAMP_LENGTH && '\n' !in stamp && GoodLines(u, lines)
    requires '\n' !in raw && u.trim(raw) != "" && LessonKey(u, LineFor(stamp, u.trim(raw))) !in Keys(u, lines)
    ensures var line := LineFor(stamp, u.trim(raw));
            GoodLines(u, lines + [line]) && Keys(u, lines + [line]) == Keys(u, lines) + {LessonKey(u, line)}
  {
    var line := LineFor(stamp, u.trim(raw));
    assert TrimsWell(u, raw);
    LineIsGood(u, stamp, u.trim(raw));
    KeysSnoc(u, lines, line);
    GoodSnoc(u, lines, line);
  }

  lemma {:induction false} GoodSnoc(u: Unicode, lines: seq<string>, line: string)
    requires GoodLines(u, lines) && GoodLine(u, line) && LessonKey(u, line) !in Keys(u, lines)
    ensures GoodLines(u, lines + [line])
  {
    forall i | 0 <= i < |lines| ensures LessonKey(u, lines[i]) != LessonKey(u, line) {
      assert LessonKey(u, lines[i]) in Keys(u, lines);
    }
  }

  /** The line a lesson is written as: dated, on one line, at most 200 bytes of it. */
  ghost predicate WrittenAs(u: Unicode, stamp: string, lesson: string, line: string) {
    var l := u.trim(seq(|lesson|, i requires 0 <= i < |lesson| => if lesson[i] == '\n' then ' ' else lesson[i]));
    l != "" && line == "- " + stamp + " " + if |l| > 200 then l[..200] + ELLIPSIS else l
  }

  ghost predicate Increasing(idx: seq<nat>) {
    forall i, j :: 0 <= i < j < |idx| ==> idx[i] < idx[j]
  }

  /** Each line of more is one of the lessons, in their order. */
  ghost predicate AreLessons(u: Unicode, stamp: string, lessons: seq<string>, idx: seq<nat>, more: seq<string>) {
    |idx| == |more| && Increasing(idx)
    && forall j :: 0 <= j < |idx| ==> idx[j] < |lessons| && WrittenAs(u, stamp, lessons[idx[j]], more[j])
  }

  lemma {:induction false} LaterLessons(
      u: Unicode, stamp: string, lessons: seq<string>, idx: seq<nat>, more: seq<string>) returns (later: seq<nat>)
    requires lessons != [] && AreLessons(u, stamp, lessons[1..], idx, more)
    ensures AreLessons(u, stamp, lessons, later, more) && forall j :: 0 <= j < |later| ==> later[j] > 0
  {
    later := seq(|idx|, j requires 0 <= j < |idx| => idx[j] + 1);
    forall j | 0 <= j < |later| ensures later[j] < |lessons| && WrittenAs(u, stamp, lessons[later[j]], more[j]) {
      assert lessons[later[j]] == lessons[1..][idx[j]];
    }
  }

  lemma {:induction false} FirstLesson(
      u: Unicode, stamp: string, lessons: seq<string>, line: string, later: seq<nat>, more: seq<string>)
    requires lessons != [] && line == LineFor(stamp, u.trim(WithoutNewlines(lessons[0]))) && u.trim(WithoutNewlines(lessons[0])) != ""
    requires AreLessons(u, stamp, lessons, later, more) && forall j :: 0 <= j < |later| ==> later[j] > 0
    ensures AreLessons(u, stamp, lessons, [0] + later, [line] + more)
  {
    assert WrittenAs(u, stamp, lessons[0], line);
  }

  lemma {:induction false} AddedAreLessons(u: Unicode, stamp: string, seen: set<string>, lessons: seq<string>, room: nat)
      returns (idx: seq<nat>)
    ensures AreLessons(u, stamp, lessons, idx, Added(u, stamp, seen, lessons, room))
    decreases |lessons|
  {
    idx := [];
    if room > 0 && lessons != [] {
      var l := u.trim(WithoutNewlines(lessons[0]));
      var key := LessonKey(u, LineFor(stamp, l));
      var skipped := l == "" || key == "" || key in seen;
      var rest := AddedAreLessons(u, stamp, if skipped then seen else seen + {key}, lessons[1..],
                                  if skipped then room else room - 1);
      var more := Added(u, stamp, if skipped then seen else seen + {key}, lessons[1..], if skipped then room else room - 1);
      idx := LaterLessons(u, stamp, lessons, rest, more);
      if !skipped {
        FirstLesson(u, stamp, lessons, LineFor(stamp, l), idx, more);
        idx := [0] + idx;
      }
    }
  }

  /** A lesson is passed over only if it is blank, its key is taken, or there is no room left. */
  lemma {:induction false} FreeLessonIsAdded(
      u: Unicode, stamp: string, seen: set<string>, lessons: seq<string>, room: nat, i: nat, line: string)
    requires i < |lessons| && WrittenAs(u, stamp, lessons[i], line) && LessonKey(u, line) != ""
    ensures var more := Added(u, stamp, seen, lessons, room);
            LessonKey(u, line) in seen || (exists j :: 0 <= j < |more| && LessonKey(u, more[j]) == LessonKey(u, line))
            || |more| == room
    decreases |lessons|
  {
    if room > 0 {
      var l := u.trim(WithoutNewlines(lessons[0]));
      var key := LessonKey(u, LineFor(stamp, l));
      var more := Added(u, stamp, seen, lessons, room);
      if i == 0 {
        assert line == LineFor(stamp, l);
        assert key !in seen ==> LessonKey(u, more[0]) == key;
      } else if l == "" || key == "" || key in seen {
        FreeLessonIsAdded(u, stamp, seen, lessons[1..], room, i - 1, line);
      } else {
        FreeLessonIsAdded(u, stamp, seen + {key}, lessons[1..], room - 1, i - 1, line);
        var rest := Added(u, stamp, seen + {key}, lessons[1..], room - 1);
        assert LessonKey(u, more[0]) == key;
        if j :| 0 <= j < |rest| && LessonKey(u, rest[j]) == LessonKey(u, line) {
          assert more[j + 1] == rest[j];
        }
      }
    }
  }

  // ---------- What makes two lines one lesson ----------

  predicate Ascii(c: char) {
    ' ' <= c <= '~'
  }

  /**
   What more is asked of trimming here: a blank in front goes, and text that starts with a
   visible character and ends in trimmed text or an ellipsis is kept whole.
   */
  ghost predicate TrimsEnds(u: Unicode, a: string, b: string) {
    var visible := a != "" && a[0] != ' ' && forall i :: 0 <= i < |a| ==> Ascii(a[i]);
    var ends := b != "" && (u.trim(b) == b || (|b| >= |ELLIPSIS| && b[|b| - |ELLIPSIS|..] == ELLIPSIS));
    visible && ends ==> u.trim(a + b) == a + b
  }

  ghost predicate TrimsSides(u: Unicode) {
    (forall s :: u.trim(" " + s) == u.trim(s)) && (forall a, b :: TrimsEnds(u, a, b))
  }

  ghost predicate IsDate(stamp: string) {
    |stamp| == STAMP_LENGTH && (forall i :: 0 <= i < |stamp| ==> '0' <= stamp[i] <= '9' || stamp[i] == '-')
    && stamp[0] != '-' && stamp[4] == '-' && stamp[7] == '-'
  }

  /** The key of a line is its lesson's text, folded: neither the bullet nor the date counts. */
  lemma {:induction false} DatesDoNotCount(u: Unicode, stamp: string, l: string)
    requires TrimsSides(u) && IsDate(stamp) && l != "" && u.trim(l) == l
    ensures LessonKey(u, LineFor(stamp, l)) == u.fold(u.trim(Bounded(l)))
  {
    var b := Bounded(l);
    var line, dated := LineFor(stamp, l), stamp + " " + b;
    assert TrimsEnds(u, "- " + stamp + " ", b) && TrimsEnds(u, stamp + " ", b);
    assert line == "- " + stamp + " " + b;
    assert u.trim(line) == line && DropDash(line) == " " + dated;
    assert u.trim(" " + dated) == u.trim(dated) == dated;
    assert dated[4] == '-' && dated[7] == '-' && dated[STAMP_LENGTH..] == " " + b;
  }

  lemma {:induction false} NewestIsSuffix(lines: seq<string>, max: nat) returns (k: nat)
    ensures k <= |lines| && Newest(lines, max) == lines[k..]
    ensures |TextOf(lines[k..])| <= max || |lines[k..]| <= 1
    ensures k > 0 ==> |TextOf(lines[k - 1..])| > max
  {
    if |TextOf(lines)| <= max || |lines| <= 1 {
      k := 0;
      assert lines[0..] == lines;
    } else {
      k := NewestIsSuffix(lines[1..], max);
      assert lines[1..][k..] == lines[k + 1..];
      assert k > 0 ==> lines[1..][k - 1..] == lines[k..];
      assert lines[0..] == lines;
      k := k + 1;
    }
  }

  lemma {:induction false} GoodSuffix(u: Unicode, lines: seq<string>, k: nat)
    requires GoodLines(u, lines) && k <= |lines|
    ensures GoodLines(u, lines[k..])
  {
    forall i, j | 0 <= i < j < |lines[k..]|
      ensures LessonKey(u, lines[k..][i]) != LessonKey(u, lines[k..][j])
    {
      assert lines[k..][i] == lines[k + i] && lines[k..][j] == lines[k + j];
    }
  }

  lemma {:induction false} GoodLinesStay(u: Unicode, lines: seq<string>)
    requires GoodLines(u, lines) && u.trim("") == ""
    ensures NonBlank(u, lines + [""]) == lines
  {
    if lines == [] {
      assert [""][1..] == [];
    } else {
      GoodSuffix(u, lines, 1);
      GoodLinesStay(u, lines[1..]);
      assert (lines + [""])[1..] == lines[1..] + [""];
      assert GoodLine(u, lines[0]);
    }
  }

  lemma {:induction false} BlankReadsAsNothing(u: Unicode)
    requires u.trim("") == ""
    ensures NonBlank(u, [""]) == [] && SplitLines(u, "") == []
  {
    assert [""][1..] == [] && NonBlank(u, []) == [];
  }

  /** Of any lines reading keeps, one by one and in order, those that are not blank, without the blanks at their ends. */
  lemma {:induction false} ReadingKeeps(u: Unicode, before: seq<string>, line: string, after: seq<string>)
    ensures NonBlank(u, before + [line] + after)
         == NonBlank(u, before) + (if u.trim(line) == "" then [] else [TrimRight(line, Blank)]) + NonBlank(u, after)
  {
    var all := before + [line] + after;
    if before == [] {
      assert all[0] == line && all[1..] == after;
    } else {
      assert all[0] == before[0] && all[1..] == before[1..] + [line] + after;
      ReadingKeeps(u, before[1..], line, after);
    }
  }

  /** Lines survive being written, split and read again. */
  lemma {:induction false} LinesReadBack(u: Unicode, lines: seq<string>)
    requires GoodLines(u, lines) && u.trim("") == ""
    ensures SplitLines(u, TextOf(lines)) == lines
  {
    var body := JoinWith(lines, '\n');
    assert TextOf(lines) == body + ['\n'] + "";
    SplitConcat(body, "", '\n');
    if lines == [] {
      BlankReadsAsNothing(u);
      assert ["", ""][1..] == [""];
      assert SplitOn(TextOf(lines), '\n') == ["", ""];
    } else {
      assert forall i :: 0 <= i < |lines| ==> GoodLine(u, lines[i]);
      SplitOfJoin(lines, '\n');
      GoodLinesStay(u, lines);
    }
  }

  /**
   One call: the file stays within its cap with no lesson twice, and it is the newest of
   the old lines followed by at most three new ones. Those are lessons of the call, in
   order, and every lesson of it is there, old or new, unless it is blank or three are.
   */
  lemma {:induction false} AppendKeeps(u: Unicode, body: string, lessons: seq<string>, stamp: string)
      returns (more: seq<string>, k: nat, idx: seq<nat>)
    requires Sane(u) && |stamp| == STAMP_LENGTH && '\n' !in stamp && WellKept(u, body) && lessons != []
    ensures WellKept(u, AppendTo(u, body, lessons, stamp))
    ensures AreLessons(u, stamp, lessons, idx, more)
    ensures forall i, line :: 0 <= i < |lessons| && WrittenAs(u, stamp, lessons[i], line) && LessonKey(u, line) != "" ==>
              |more| == 3 || LessonKey(u, line) in Keys(u, SplitLines(u, body) + more)
    ensures |more| <= 3 && k <= |SplitLines(u, body)| + |more|
    ensures SplitLines(u, AppendTo(u, body, lessons, stamp)) == (SplitLines(u, body) + more)[k..]
    ensures k > 0 ==> |TextOf((SplitLines(u, body) + more)[k - 1..])| > 1024
    ensures |AppendTo(u, body, lessons, stamp)| <= 1024
  {
    var lines := SplitLines(u, body);
    more := Added(u, stamp, Keys(u, lines), lessons, MAX_PER_RUN);
    AddedIsGood(u, stamp, lines, lessons, MAX_PER_RUN);
    idx := AddedAreLessons(u, stamp, Keys(u, lines), lessons, MAX_PER_RUN);
    forall i, line | 0 <= i < |lessons| && WrittenAs(u, stamp, lessons[i], line) && LessonKey(u, line) != ""
      ensures |more| == 3 || LessonKey(u, line) in Keys(u, lines + more)
    {
      FreeLessonIsAdded(u, stamp, Keys(u, lines), lessons, MAX_PER_RUN, i, line);
      if |more| < MAX_PER_RUN {
        InEither(u, lines, more, LessonKey(u, line));
      }
    }
    k := NewestIsSuffix(lines + more, MAX_BYTES);
    GoodSuffix(u, lines + more, k);
    var kept := (lines + more)[k..];
    LinesReadBack(u, kept);
    if |kept| == 1 {
      assert GoodLine(u, kept[0]);
    }
  }

  datatype Call = Call(lessons: seq<string>, stamp: string)

  function AfterAll(u: Unicode, calls: seq<Call>): string {
    if calls == [] then "" else AppendTo(u, AfterAll(u, calls[..|calls| - 1]), calls[|calls| - 1].lessons, calls[|calls| - 1].stamp)
  }

  /** Starting from no file, whatever is appended, the file is at most 1024 bytes and repeats no lesson. */
  lemma {:induction false} AlwaysWellKept(u: Unicode, calls: seq<Call>)
    requires Sane(u) && forall i :: 0 <= i < |calls| ==> |calls[i].stamp| == STAMP_LENGTH && '\n' !in calls[i].stamp
    ensures WellKept(u, AfterAll(u, calls))
  {
    if calls == [] {
      BlankReadsAsNothing(u);
    } else {
      var last := calls[|calls| - 1];
      AlwaysWellKept(u, calls[..|calls| - 1]);
      if last.lessons != [] {
        var _, _, _ := AppendKeeps(u, AfterAll(u, calls[..|calls| - 1]), last.lessons, last.stamp);
      }
    }
  }

  // ---------- The code ----------

  method TrimToBytes(lines: seq<string>, max: nat) returns (out: string)
    ensures out == TextOf(Newest(lines, max))
  {
    var rest := lines;
    while true
      invariant Newest(rest, max) == Newest(lines, max)
      decreases |rest|
    {
      out := JoinWith(rest, '\n') + "\n";
      if |out| <= max || |rest| <= 1 {
        return;
      }
      rest := rest[1..];
    }
  }

  method ReadLines(u: Unicode, body: string) returns (out: seq<string>)
    ensures out == SplitLines(u, body)
  {
    out := [];
    var parts := SplitOn(body, '\n');
    for i := 0 to |parts|
      invariant out + NonBlank(u, parts[i..]) == NonBlank(u, parts)
    {
      assert parts[i..][1..] == parts[i + 1..];
      if u.trim(parts[i]) != "" {
        out := out + [TrimRight(parts[i], Blank)];
      }
    }
    assert parts[|parts|..] == [];
  }

  /** The person's lessons file after drawing these lessons; a missing file reads as empty. */
  method AppendLessons(u: Unicode, body: string, lessons: seq<string>, stamp: string) returns (out: string)
    ensures out == AppendTo(u, body, lessons, stamp)
  {
    if |lessons| == 0 {
      return body;
    }
    var lines := ReadLines(u, body);
    var seen := TakenKeys(u, lines);
    lines := AddNew(u, lines, seen, lessons, stamp);
    out := TrimToBytes(lines, MAX_BYTES);
  }

  method TakenKeys(u: Unicode, lines: seq<string>) returns (seen: set<string>)
    ensures seen == Keys(u, lines)
  {
    seen := {};
    for i := 0 to |lines|
      invariant seen == Keys(u, lines[..i])
    {
      seen := seen + {LessonKey(u, lines[i])};
      assert lines[..i + 1] == lines[..i] + [lines[i]];
      KeysSnoc(u, lines[..i], lines[i]);
    }
    assert lines[..|lines|] == lines;
  }

  lemma {:induction false} AddedNext(u: Unicode, stamp: string, seen: set<string>, lessons: seq<string>, i: nat, room: nat)
    requires i < |lessons| && room > 0
    ensures var l := u.trim(WithoutNewlines(lessons[i]));
            var line := LineFor(stamp, l);
            var key := LessonKey(u, line);
            Added(u, stamp, seen, lessons[i..], room)
            == if l == "" || key == "" || key in seen then Added(u, stamp, seen, lessons[i + 1..], room)
               else [line] + Added(u, stamp, seen + {key}, lessons[i + 1..], room - 1)
  {
    assert lessons[i..][1..] == lessons[i + 1..];
  }

  method AddNew(u: Unicode, was: seq<string>, taken: set<string>, lessons: seq<string>, stamp: string)
      returns (lines: seq<string>)
    ensures lines == was + Added(u, stamp, taken, lessons, MAX_PER_RUN)
  {
    lines := was;
    var seen, kept: nat, i := taken, 0, 0;
    while i < |lessons| && kept < MAX_PER_RUN
      invariant 0 <= i <= |lessons| && kept <= MAX_PER_RUN
      invariant lines + Added(u, stamp, seen, lessons[i..], MAX_PER_RUN - kept)
             == was + Added(u, stamp, taken, lessons, MAX_PER_RUN)
    {
      AddedNext(u, stamp, seen, lessons, i, MAX_PER_RUN - kept);
      var l := u.trim(WithoutNewlines(lessons[i]));
      i := i + 1;
      var line := LineFor(stamp, l);
      var key := LessonKey(u, line);
      if l != "" && key != "" && key !in seen {
        Regroup(lines, line, Added(u, stamp, seen + {key}, lessons[i..], MAX_PER_RUN - kept - 1));
        seen := seen + {key};
        lines := lines + [line];
        kept := kept + 1;
      }
    }
    assert lessons[|lessons|..] == [] && lines + [] == lines;
  }
}
