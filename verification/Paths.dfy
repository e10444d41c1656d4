/**
 Where a path given by the model ends up: the memory server's scope check and the
 sandboxed filesystem's own check (internal/servers/memory/server.go,
 internal/sandboxfs/fs.go), and the scope directory they start from
 (internal/scope/scope.go). Paths are POSIX paths.
 */
module Paths {
  import opened Wrappers
  import opened Text

  const RESERVED := ".tobee"

  // ---------- Segments ----------

  function Split(p: string): (r: seq<string>)
    ensures r != []
  {
    SplitOn(p, '/')
  }

  function Join(segs: seq<string>): string {
    JoinWith(segs, '/')
  }

  predicate Proper(seg: string) {
    seg != "" && seg != "." && seg != ".." && '/' !in seg
  }

  ghost predicate AllProper(segs: seq<string>) {
    forall i :: 0 <= i < |segs| ==> Proper(segs[i])
  }

  // ---------- Clean ----------

  /** path.Clean on segments: acc is what is kept so far. */
  function Reduce(rooted: bool, acc: seq<string>, segs: seq<string>): seq<string>
    decreases |segs|
  {
    if segs == [] then acc
    else if segs[0] == "" || segs[0] == "." then Reduce(rooted, acc, segs[1..])
    else if segs[0] == ".." then
      if acc != [] && acc[|acc| - 1] != ".." then Reduce(rooted, acc[..|acc| - 1], segs[1..])
      else if rooted then Reduce(rooted, acc, segs[1..])
      else Reduce(rooted, acc + [".."], segs[1..])
    else Reduce(rooted, acc + [segs[0]], segs[1..])
  }

  predicate Rooted(p: string) {
    p != "" && p[0] == '/'
  }

  /** The segments p names once it is cleaned. */
  function Segments(p: string): seq<string> {
    Reduce(Rooted(p), [], Split(p))
  }

  function Clean(p: string): string {
    var out := (if Rooted(p) then "/" else "") + Join(Segments(p));
    if out == "" then "." else out
  }

  /** Some ".." that nothing cancels, then proper segments; a rooted path has none. */
  ghost predicate Reduced(rooted: bool, segs: seq<string>) {
    exists n :: 0 <= n <= |segs| && (rooted ==> n == 0) && AllProper(segs[n..])
                && forall i :: 0 <= i < n ==> segs[i] == ".."
  }

  lemma {:induction false} ReduceIsReduced(rooted: bool, acc: seq<string>, segs: seq<string>)
    requires Reduced(rooted, acc) && Without(segs, '/')
    ensures Reduced(rooted, Reduce(rooted, acc, segs))
    decreases |segs|
  {
    if segs != [] {
      var n :| 0 <= n <= |acc| && (rooted ==> n == 0) && AllProper(acc[n..])
               && forall i :: 0 <= i < n ==> acc[i] == "..";
      var s := segs[0];
      assert n < |acc| ==> acc[|acc| - 1] == acc[n..][|acc| - 1 - n];
      if s == "" || s == "." {
        ReduceIsReduced(rooted, acc, segs[1..]);
      } else if s == ".." {
        if acc != [] && acc[|acc| - 1] != ".." {
          var front := acc[..|acc| - 1];
          assert front[n..] == acc[n..][..|acc| - 1 - n];
          assert Reduced(rooted, front);
          ReduceIsReduced(rooted, front, segs[1..]);
        } else if rooted {
          ReduceIsReduced(rooted, acc, segs[1..]);
        } else {
          var more := acc + [".."];
          assert more[|more|..] == [] && n == |acc|;
          assert forall i :: 0 <= i < |more| ==> more[i] == "..";
          assert Reduced(rooted, more);
          ReduceIsReduced(rooted, more, segs[1..]);
        }
      } else {
        var more := acc + [s];
        assert more[n..] == acc[n..] + [s];
        assert Reduced(rooted, more);
        ReduceIsReduced(rooted, more, segs[1..]);
      }
    }
  }

  lemma {:induction false} SegmentsAreReduced(p: string)
    ensures Reduced(Rooted(p), Segments(p))
  {
    SplitIsWithout(p, '/');
    var none: seq<string> := [];
    assert none[0..] == [] && Reduced(Rooted(p), none);
    ReduceIsReduced(Rooted(p), none, Split(p));
  }

  lemma {:induction false} ReducedIsProper(rooted: bool, segs: seq<string>)
    requires Reduced(rooted, segs) && (rooted || segs == [] || segs[0] != "..")
    ensures AllProper(segs)
  {
    var n :| 0 <= n <= |segs| && (rooted ==> n == 0) && AllProper(segs[n..])
             && forall i :: 0 <= i < n ==> segs[i] == "..";
    assert n == 0 && segs[0..] == segs;
  }

  lemma {:induction false} ReduceKeepsProper(rooted: bool, acc: seq<string>, segs: seq<string>)
    requires AllProper(segs)
    ensures Reduce(rooted, acc, segs) == acc + segs
    decreases |segs|
  {
    if segs != [] {
      ReduceKeepsProper(rooted, acc + [segs[0]], segs[1..]);
      assert acc + [segs[0]] + segs[1..] == acc + segs;
    }
  }

  lemma {:induction false} ReduceInTwo(rooted: bool, acc: seq<string>, a: seq<string>, b: seq<string>)
    ensures Reduce(rooted, acc, a + b) == Reduce(rooted, Reduce(rooted, acc, a), b)
    decreases |a|
  {
    if a == [] {
      assert a + b == b;
    } else {
      assert (a + b)[1..] == a[1..] + b && (a + b)[0] == a[0];
      if a[0] == "" || a[0] == "." {
        ReduceInTwo(rooted, acc, a[1..], b);
      } else if a[0] == ".." {
        if acc != [] && acc[|acc| - 1] != ".." {
          ReduceInTwo(rooted, acc[..|acc| - 1], a[1..], b);
        } else if rooted {
          ReduceInTwo(rooted, acc, a[1..], b);
        } else {
          ReduceInTwo(rooted, acc + [".."], a[1..], b);
        }
      } else {
        ReduceInTwo(rooted, acc + [a[0]], a[1..], b);
      }
    }
  }

  /** Cleaning text that Clean produced, after something proper, only appends what it names. */
  lemma {:induction false} ReduceClean(rooted: bool, acc: seq<string>, p: string)
    requires AllProper(Segments(p))
    ensures Reduce(rooted, acc, Split(Clean(p))) == acc + Segments(p)
  {
    var segs := Segments(p);
    if segs == [] {
      assert acc + segs == acc;
      DotAndSlash(rooted, acc);
    } else {
      SplitClean(p);
      ReduceKeepsProper(rooted, acc, segs);
      if Rooted(p) {
        assert ([""] + segs)[1..] == segs;
      }
    }
  }

  lemma {:induction false} SplitClean(p: string)
    requires AllProper(Segments(p)) && Segments(p) != []
    ensures Split(Clean(p)) == if Rooted(p) then [""] + Segments(p) else Segments(p)
  {
    var segs := Segments(p);
    SplitOfJoin(segs, '/');
    JoinIsNotEmpty(segs);
    if Rooted(p) {
      assert Clean(p) == "/" + Join(segs);
      SplitAfterSlash(Join(segs));
    } else {
      assert Clean(p) == Join(segs);
    }
  }

  lemma {:induction false} SplitAfterSlash(s: string)
    ensures Split("/" + s) == [""] + Split(s)
  {
    assert ("/" + s)[0] == '/' && ("/" + s)[1..] == s;
  }

  lemma {:induction false} DotAndSlash(rooted: bool, acc: seq<string>)
    ensures Reduce(rooted, acc, Split("/")) == acc && Reduce(rooted, acc, Split(".")) == acc
  {
    SplitConcat("", "", '/');
    assert "" + ['/'] + "" == "/" && Split("") == [""];
    assert ([""] + [""])[1..] == [""] && [""][1..] == [];
    assert Reduce(rooted, acc, [""]) == acc;
    SplitWhole(".", '/');
    assert ["."][1..] == [];
  }

  lemma {:induction false} JoinIsNotEmpty(segs: seq<string>)
    requires segs != [] && AllProper(segs)
    ensures Join(segs) != ""
  {
    assert Proper(segs[0]);
  }

  // ---------- The checks ----------

  function TrimPrefix(s: string, prefix: string): string {
    if prefix <= s then s[|prefix|..] else s
  }

  /** p, confined to the scope root dir. */
  function JoinScope(dir: string, p: string): Option<string> {
    var q := TrimPrefix(p, "/");
    if q == "" then Some(dir)
    else
      var c := Clean(q);
      if c == ".." || "../" <= c then None else Some(dir + "/" + c)
  }

  predicate UnderReserved(rel: string) {
    var r := TrimPrefix(Clean("/" + rel), "/");
    r == RESERVED || RESERVED + "/" <= r
  }

  predicate Writable(dir: string, full: string) {
    !UnderReserved(TrimPrefix(TrimPrefix(full, dir), "/"))
  }

  /** The filesystem's own check: the segments below its root that rel names. */
  function Resolve(rel: string): Option<seq<string>> {
    if rel == "" || Rooted(rel) then None
    else if ".." <= Clean(rel) then None
    else Some(Segments(rel))
  }

  /** What memory write and append do with a path, from the model's text to the file. */
  function WriteTarget(dir: string, p: string): Option<seq<string>> {
    match JoinScope(dir, p)
    case None => None
    case Some(full) => if Writable(dir, full) then Resolve(full) else None
  }

  /** A directory as the scope hands it out. */
  ghost predicate ScopeDir(dir: string, ds: seq<string>) {
    ds != [] && AllProper(ds) && !(".." <= ds[0]) && dir == Join(ds)
  }

  /** What p names below the scope root, were nothing refused. */
  function Wanted(p: string): seq<string> {
    Segments(TrimPrefix(p, "/"))
  }

  lemma {:induction false} FirstSegment(segs: seq<string>, s: string)
    requires segs != [] && AllProper(segs[1..]) && '/' !in segs[0] && '/' !in s && s != ""
    ensures (Join(segs) == s || s + "/" <= Join(segs)) <==> segs[0] == s
  {
    var j := Join(segs);
    if |segs| > 1 {
      assert j == segs[0] + "/" + Join(segs[1..]);
      if segs[0] == s {
        assert s + "/" <= j;
      }
      assert j[|segs[0]|] == '/';
      assert j[|segs[0]|] in j;
      if s + "/" <= j {
        assert j[|s|] == '/' && j[..|s|] == s;
        assert forall k :: 0 <= k < |segs[0]| ==> j[k] == segs[0][k] && segs[0][k] in segs[0];
        assert forall k :: 0 <= k < |s| ==> j[k] == s[k] && s[k] in s;
        assert |s| == |segs[0]|;
        assert segs[0] == j[..|s|];
      }
    } else {
      assert j == segs[0];
      assert (s + "/")[|s|] == '/' && forall k :: 0 <= k < |j| ==> j[k] in segs[0];
    }
  }

  lemma {:induction false} LeavesScope(q: string)
    requires q != ""
    ensures (Clean(q) == ".." || "../" <= Clean(q)) <==> Segments(q) != [] && Segments(q)[0] == ".."
  {
    var segs := Segments(q);
    SegmentsAreReduced(q);
    var n :| 0 <= n <= |segs| && (Rooted(q) ==> n == 0) && AllProper(segs[n..])
             && forall i :: 0 <= i < n ==> segs[i] == "..";
    if Rooted(q) {
      assert Clean(q)[0] == '/' && segs[0..] == segs;
      assert segs != [] ==> Proper(segs[0]);
    } else if segs != [] {
      JoinDotDot(segs, n);
    }
  }

  lemma {:induction false} JoinDotDot(segs: seq<string>, n: nat)
    requires segs != [] && n <= |segs| && AllProper(segs[n..]) && forall i :: 0 <= i < n ==> segs[i] == ".."
    ensures Join(segs) != ""
    ensures (Join(segs) == ".." || "../" <= Join(segs)) <==> segs[0] == ".."
  {
    if n == 0 {
      assert segs[0..] == segs && Proper(segs[0]);
      assert segs[1..] == segs[0..][1..];
      FirstSegment(segs, "..");
    } else {
      assert |segs| > 1 ==> Join(segs) == ".." + "/" + Join(segs[1..]);
    }
  }

  lemma {:induction false} ReservedIs(p: string)
    requires AllProper(Segments(p))
    ensures UnderReserved(Clean(p)) <==> Segments(p) != [] && Segments(p)[0] == RESERVED
  {
    var segs := Segments(p);
    var slashed := "/" + Clean(p);
    assert slashed == "" + "/" + Clean(p);
    SplitConcat("", Clean(p), '/');
    assert Split("") == [""] && ([""] + Split(Clean(p)))[1..] == Split(Clean(p));
    ReduceClean(true, [], p);
    assert [] + segs == segs;
    assert Segments(slashed) == segs;
    assert TrimPrefix(Clean(slashed), "/") == Join(segs);
    if segs != [] {
      FirstSegment(segs, RESERVED);
    } else {
      assert Join(segs) == "";
    }
  }

  lemma {:induction false} ScopedSegments(dir: string, ds: seq<string>, q: string)
    requires ScopeDir(dir, ds) && AllProper(Segments(q))
    ensures !Rooted(dir + "/" + Clean(q)) && Segments(dir + "/" + Clean(q)) == ds + Segments(q)
  {
    var full := dir + "/" + Clean(q);
    JoinStart(ds);
    assert full[0] == dir[0] && dir[0] in ds[0];
    SplitConcat(dir, Clean(q), '/');
    SplitOfJoin(ds, '/');
    ReduceInTwo(false, [], ds, Split(Clean(q)));
    ReduceKeepsProper(false, [], ds);
    assert [] + ds == ds;
    ReduceClean(false, ds, q);
  }

  lemma {:induction false} JoinStart(ds: seq<string>)
    requires ds != [] && AllProper(ds)
    ensures ds[0] <= Join(ds) && Join(ds) != "" && Join(ds)[0] == ds[0][0] && Join(ds)[0] in ds[0]
    ensures ".." <= Join(ds) ==> ".." <= ds[0]
  {
    assert Proper(ds[0]);
    var j := Join(ds);
    if |ds| > 1 {
      assert j == ds[0] + "/" + Join(ds[1..]);
      assert j[|ds[0]|] == '/';
    }
  }

  lemma {:induction false} ResolvesInside(dir: string, ds: seq<string>, full: string, segs: seq<string>)
    requires ScopeDir(dir, ds) && AllProper(segs) && full != "" && !Rooted(full) && Segments(full) == ds + segs
    ensures Resolve(full) == Some(ds + segs)
  {
    var all := ds + segs;
    assert AllProper(all);
    JoinStart(all);
    assert all[0] == ds[0];
    assert Clean(full) == Join(all);
  }

  /**
   The path check and the filesystem agree. A path is accepted exactly when, cleaned, it
   neither climbs out of the scope nor starts in the reserved directory; and then the
   file is the scope's segments followed by the path's, with no ".." among them.
   */
  lemma {:induction false} WritesStayInScope(dir: string, ds: seq<string>, p: string)
    requires ScopeDir(dir, ds)
    ensures WriteTarget(dir, p).Some? <==>
              Wanted(p) == [] || (Wanted(p)[0] != ".." && Wanted(p)[0] != RESERVED)
    ensures WriteTarget(dir, p).Some? ==> WriteTarget(dir, p).value == ds + Wanted(p) && AllProper(ds + Wanted(p))
  {
    var q := TrimPrefix(p, "/");
    var segs := Wanted(p);
    JoinStart(ds);
    if q == "" {
      assert Split("") == [""] && [""][1..] == [] && segs == [];
      assert ds + segs == ds;
      RootPath(dir, ds);
    } else {
      LeavesScope(q);
      if segs == [] || segs[0] != ".." {
        InnerPath(dir, ds, q);
      }
    }
  }

  lemma {:induction false} InnerPath(dir: string, ds: seq<string>, q: string)
    requires ScopeDir(dir, ds) && q != "" && (Segments(q) == [] || Segments(q)[0] != "..")
    ensures var full := dir + "/" + Clean(q);
            && AllProper(Segments(q)) && Resolve(full) == Some(ds + Segments(q))
            && (Writable(dir, full) <==> Segments(q) == [] || Segments(q)[0] != RESERVED)
  {
    var full := dir + "/" + Clean(q);
    SegmentsAreReduced(q);
    ReducedIsProper(Rooted(q), Segments(q));
    assert TrimPrefix(full, dir) == "/" + Clean(q);
    assert TrimPrefix("/" + Clean(q), "/") == Clean(q);
    ReservedIs(q);
    ScopedSegments(dir, ds, q);
    ResolvesInside(dir, ds, full, Segments(q));
  }

  lemma {:induction false} RootPath(dir: string, ds: seq<string>)
    requires ScopeDir(dir, ds)
    ensures Resolve(dir) == Some(ds) && Writable(dir, dir)
  {
    JoinStart(ds);
    SplitOfJoin(ds, '/');
    ReduceKeepsProper(false, [], ds);
    assert [] + ds == ds && ds + [] == ds;
    assert TrimPrefix(dir, dir) == "";
    RootIsNotReserved();
    ResolvesInside(dir, ds, dir, []);
  }

  lemma {:induction false} RootIsNotReserved()
    ensures !UnderReserved("")
  {
    assert "/" + "" == "/" && "" + "/" + "" == "/";
    SplitConcat("", "", '/');
    assert Split("/") == ["", ""] && ["", ""][1..] == [""] && [""][1..] == [];
    assert Reduce(true, [], [""]) == [];
    assert Segments("/") == [] && Clean("/") == "/";
    assert TrimPrefix("/", "/") == "";
  }

  /** Reads are confined the same way, the reserved directory included. */
  lemma {:induction false} ReadsStayInScope(dir: string, ds: seq<string>, p: string)
    requires ScopeDir(dir, ds) && TrimPrefix(p, "/") != "" && JoinScope(dir, p).Some?
    ensures Resolve(JoinScope(dir, p).value) == Some(ds + Wanted(p)) && AllProper(Wanted(p))
  {
    var q := TrimPrefix(p, "/");
    LeavesScope(q);
    SegmentsAreReduced(q);
    ReducedIsProper(Rooted(q), Segments(q));
    ScopedSegments(dir, ds, q);
    ResolvesInside(dir, ds, dir + "/" + Clean(q), Segments(q));
  }

  // ---------- Where a path leads ----------

  /** From a directory, itself named from the root: a name goes down, ".." goes up, "" and "." stay. */
  function Stepped(at: seq<string>, seg: string): seq<string> {
    if seg == "" || seg == "." then at
    else if seg == ".." then (if at == [] then [] else at[..|at| - 1])
    else at + [seg]
  }

  function Walk(at: seq<string>, segs: seq<string>): seq<string>
    decreases |segs|
  {
    if segs == [] then at else Walk(Stepped(at, segs[0]), segs[1..])
  }

  /** No step of the walk leaves base. */
  ghost predicate StaysBelow(base: seq<string>, at: seq<string>, segs: seq<string>) {
    forall k :: 0 <= k <= |segs| ==> base <= Walk(at, segs[..k])
  }

  lemma {:induction false} WalkInTwo(at: seq<string>, a: seq<string>, b: seq<string>)
    ensures Walk(at, a + b) == Walk(Walk(at, a), b)
    decreases |a|
  {
    if a == [] {
      assert a + b == b;
    } else {
      WalkInTwo(Stepped(at, a[0]), a[1..], b);
      assert (a + b)[0] == a[0] && (a + b)[1..] == a[1..] + b;
    }
  }

  lemma {:induction false} WalkOne(at: seq<string>, a: seq<string>, seg: string)
    ensures Walk(at, a + [seg]) == Stepped(Walk(at, a), seg)
  {
    WalkInTwo(at, a, [seg]);
    assert [seg][1..] == [];
  }

  lemma {:induction false} WalkDown(at: seq<string>, segs: seq<string>)
    requires AllProper(segs)
    ensures Walk(at, segs) == at + segs
    decreases |segs|
  {
    if segs == [] {
      assert at + segs == at;
    } else {
      assert Proper(segs[0]);
      WalkDown(at + [segs[0]], segs[1..]);
      assert at + [segs[0]] + segs[1..] == at + segs;
    }
  }

  /** What Reduce keeps leads where everything read so far did, from any directory, or from the root if rooted. */
  lemma {:induction false} ReduceLeadsThere(rooted: bool, at: seq<string>, acc: seq<string>, segs: seq<string>)
    requires Reduced(rooted, acc) && Without(segs, '/') && (rooted ==> at == [])
    ensures Walk(at, Reduce(rooted, acc, segs)) == Walk(Walk(at, acc), segs)
    decreases |segs|
  {
    if segs != [] {
      var n :| 0 <= n <= |acc| && (rooted ==> n == 0) && AllProper(acc[n..])
               && forall i :: 0 <= i < n ==> acc[i] == "..";
      var s, rest := segs[0], segs[1..];
      assert n < |acc| ==> acc[|acc| - 1] == acc[n..][|acc| - 1 - n];
      if s == "" || s == "." {
        ReduceLeadsThere(rooted, at, acc, rest);
      } else if s == ".." {
        if acc != [] && acc[|acc| - 1] != ".." {
          var front, last := acc[..|acc| - 1], acc[|acc| - 1];
          assert front[n..] == acc[n..][..|acc| - 1 - n] && acc == front + [last];
          assert Reduced(rooted, front) && Proper(last);
          WalkOne(at, front, last);
          assert Stepped(Walk(at, acc), s) == Walk(at, front);
          ReduceLeadsThere(rooted, at, front, rest);
        } else if rooted {
          assert acc[0..] == acc;
          assert acc == [];
          ReduceLeadsThere(rooted, at, acc, rest);
        } else {
          var more := acc + [".."];
          assert more[|more|..] == [] && n == |acc|;
          assert forall i :: 0 <= i < |more| ==> more[i] == "..";
          assert Reduced(rooted, more);
          WalkOne(at, acc, "..");
          ReduceLeadsThere(rooted, at, more, rest);
        }
      } else {
        var more := acc + [s];
        assert more[n..] == acc[n..] + [s];
        assert Reduced(rooted, more);
        WalkOne(at, acc, s);
        ReduceLeadsThere(rooted, at, more, rest);
      }
    }
  }

  /** Cleaning a path changes nothing about where it leads, from whatever directory it is followed. */
  lemma {:induction false} CleaningLeadsThere(p: string, at: seq<string>)
    requires Rooted(p) ==> at == []
    ensures Walk(at, Segments(p)) == Walk(at, Split(p))
  {
    SplitIsWithout(p, '/');
    var none: seq<string> := [];
    assert none[0..] == [] && Reduced(Rooted(p), none);
    ReduceLeadsThere(Rooted(p), at, none, Split(p));
  }

  /** Once ".." is kept in front it stays there. */
  lemma {:induction false} UpStaysUp(acc: seq<string>, segs: seq<string>)
    requires acc != [] && acc[0] == ".."
    ensures Reduce(false, acc, segs) != [] && Reduce(false, acc, segs)[0] == ".."
    decreases |segs|
  {
    if segs != [] {
      var s := segs[0];
      if s == "" || s == "." {
        UpStaysUp(acc, segs[1..]);
      } else if s == ".." {
        if acc[|acc| - 1] != ".." {
          UpStaysUp(acc[..|acc| - 1], segs[1..]);
        } else {
          UpStaysUp(acc + [".."], segs[1..]);
        }
      } else {
        UpStaysUp(acc + [s], segs[1..]);
      }
    }
  }

  lemma {:induction false} StaysBelowNext(base: seq<string>, at: seq<string>, segs: seq<string>)
    requires segs != []
    ensures StaysBelow(base, at, segs) <==> base <= at && StaysBelow(base, Stepped(at, segs[0]), segs[1..])
  {
    var rest, next := segs[1..], Stepped(at, segs[0]);
    forall k | 1 <= k <= |segs| ensures Walk(at, segs[..k]) == Walk(next, rest[..k - 1]) {
      assert segs[..k][0] == segs[0] && segs[..k][1..] == rest[..k - 1];
    }
    assert segs[..0] == [];
    if StaysBelow(base, at, segs) {
      assert base <= Walk(at, segs[..0]);
      forall k | 0 <= k <= |rest| ensures base <= Walk(next, rest[..k]) {
        assert base <= Walk(at, segs[..k + 1]);
      }
    }
  }

  /** A relative path keeps ".." in front exactly when following it climbs above where it started. */
  lemma {:induction false} UpIsClimbing(base: seq<string>, acc: seq<string>, segs: seq<string>)
    requires base != [] && AllProper(acc) && Without(segs, '/')
    ensures var r := Reduce(false, acc, segs); (r != [] && r[0] == "..") <==> !StaysBelow(base, base + acc, segs)
    decreases |segs|
  {
    if segs == [] {
      assert acc != [] ==> Proper(acc[0]);
    } else {
      var s, rest := segs[0], segs[1..];
      StaysBelowNext(base, base + acc, segs);
      if s == "" || s == "." {
        UpIsClimbing(base, acc, rest);
      } else if s == ".." {
        if acc != [] {
          assert Proper(acc[|acc| - 1]);
          assert (base + acc)[..|base + acc| - 1] == base + acc[..|acc| - 1];
          UpIsClimbing(base, acc[..|acc| - 1], rest);
        } else {
          var up := base[..|base| - 1];
          assert base + acc == base && rest[..0] == [];
          assert Walk(up, rest[..0]) == up && !(base <= up);
          UpStaysUp([".."], rest);
          assert [] + [".."] == [".."];
        }
      } else {
        assert base + acc + [s] == base + (acc + [s]);
        UpIsClimbing(base, acc + [s], rest);
      }
    }
  }

  /**
   The check in terms of where the path leads. Without one leading slash, a path is followed
   from the scope, which it must never climb above; one that has another slash starts at its
   root instead, which is the scope too. The file is where it leads, and the only other paths
   refused are those that lead to the reserved directory or into it.
   */
  lemma {:induction false} WritesLeadThere(dir: string, ds: seq<string>, p: string)
    requires ScopeDir(dir, ds)
    ensures var q := TrimPrefix(p, "/");
            var inside := Walk([], Split(q));
            && (WriteTarget(dir, p).Some? <==>
                  (Rooted(q) || StaysBelow(ds, ds, Split(q))) && (inside == [] || inside[0] != ".tobee"))
            && (WriteTarget(dir, p).Some? ==> WriteTarget(dir, p).value == ds + inside)
            && (WriteTarget(dir, p).Some? && !Rooted(q) ==> WriteTarget(dir, p).value == Walk(ds, Split(q)))
  {
    var q := TrimPrefix(p, "/");
    var segs := Wanted(p);
    WritesStayInScope(dir, ds, p);
    SplitIsWithout(q, '/');
    SegmentsAreReduced(q);
    CleaningLeadsThere(q, []);
    if !Rooted(q) {
      CleaningLeadsThere(q, ds);
      UpIsClimbing(ds, [], Split(q));
      assert ds + [] == ds;
    }
    if Rooted(q) || segs == [] || segs[0] != ".." {
      ReducedIsProper(Rooted(q), segs);
      WalkDown([], segs);
      WalkDown(ds, segs);
      assert [] + segs == segs;
    }
  }

  /** Reading is refused for climbing alone, and what is read is where the path leads. */
  lemma {:induction false} ReadsLeadThere(dir: string, ds: seq<string>, p: string)
    requires ScopeDir(dir, ds) && TrimPrefix(p, "/") != ""
    ensures var q := TrimPrefix(p, "/");
            && (JoinScope(dir, p).Some? <==> Rooted(q) || StaysBelow(ds, ds, Split(q)))
            && (JoinScope(dir, p).Some? ==> Resolve(JoinScope(dir, p).value) == Some(ds + Walk([], Split(q))))
  {
    var q := TrimPrefix(p, "/");
    LeavesScope(q);
    SplitIsWithout(q, '/');
    SegmentsAreReduced(q);
    if Rooted(q) {
      ReducedIsProper(true, Segments(q));
    } else {
      UpIsClimbing(ds, [], Split(q));
      assert ds + [] == ds;
    }
    if JoinScope(dir, p).Some? {
      ReadsStayInScope(dir, ds, p);
      CleaningLeadsThere(q, []);
      WalkDown([], Segments(q));
      assert [] + Segments(q) == Segments(q);
    }
  }

  // ---------- The scope directory ----------

  // person is a bare name, or a connector and an account with ':' between them.
  datatype UserScope = UserScope(connector: string, user: string, person: string)

  predicate SafeChar(c: char) {
    'a' <= c <= 'z' || 'A' <= c <= 'Z' || '0' <= c <= '9' || c == '-' || c == '_'
  }

  function Safe(s: string): (r: string)
    ensures |r| == |s| && forall i :: 0 <= i < |s| ==> r[i] == if SafeChar(s[i]) then s[i] else '_'
  {
    seq(|s|, i requires 0 <= i < |s| => if SafeChar(s[i]) then s[i] else '_')
  }

  method Sanitize(s: string) returns (r: string)
    ensures r == Safe(s)
  {
    r := "";
    for i := 0 to |s|
      invariant |r| == i && forall j :: 0 <= j < i ==> r[j] == if SafeChar(s[j]) then s[j] else '_'
    {
      r := r + [if SafeChar(s[i]) then s[i] else '_'];
    }
  }

  function KeyParts(s: UserScope): seq<string> {
    if s.person == "" then [Safe(s.connector), Safe(s.user)]
    else
      match Cut(s.person, ':')
      case None => [Safe(s.person)]
      case Some((conn, acct)) => [Safe(conn), Safe(acct)]
  }

  /** The memory tree of a scope that has a user. */
  function Dir(s: UserScope): string {
    Join(["users"] + KeyParts(s))
  }

  lemma SafeIsProper(s: string)
    ensures s != "" ==> Proper(Safe(s))
    ensures '/' !in Safe(s)
  {
    if s != "" {
      assert SafeChar(Safe(s)[0]);
    }
    assert forall i :: 0 <= i < |s| ==> SafeChar(Safe(s)[i]);
  }

  /**
   The directory a scope hands out is clean, and its own, exactly when no part of the key
   is empty; a person or connector may be any text at all.
   */
  lemma {:induction false} DirIsScopeDir(s: UserScope)
    requires s.user != ""
    ensures ScopeDir(Dir(s), ["users"] + KeyParts(s))
       <==> (s.person == "" ==> s.connector != "") && (Cut(s.person, ':').Some? ==> "" !in KeyParts(s))
  {
    var parts := KeyParts(s);
    var ds := ["users"] + parts;
    SafeIsProper(s.connector);
    SafeIsProper(s.user);
    SafeIsProper(s.person);
    if Cut(s.person, ':').Some? {
      SafeIsProper(Cut(s.person, ':').value.0);
      SafeIsProper(Cut(s.person, ':').value.1);
    }
    assert Proper("users") && ds[0] == "users" && "users"[0] == 'u';
    assert !(".." <= ds[0]);
    if forall i :: 0 <= i < |parts| ==> parts[i] != "" {
      forall i | 0 <= i < |ds| ensures Proper(ds[i]) {
        assert i > 0 ==> ds[i] == parts[i - 1];
      }
    } else {
      var i :| 0 <= i < |parts| && parts[i] == "";
      assert ds[i + 1] == "";
    }
    if s.person == "" {
      assert parts[0] == Safe(s.connector) && parts[1] == Safe(s.user) && |parts| == 2;
      assert |parts[0]| == |s.connector| && |parts[1]| == |s.user|;
      assert Proper(ds[1]) <==> s.connector != "";
      assert ds[1] == parts[0] && ds[2] == parts[1];
    } else if Cut(s.person, ':').None? {
      assert parts == [Safe(s.person)];
    }
  }

  /** Whom the scope belongs to: the person, or the account where there is none. */
  function OwnerOf(s: UserScope): string {
    if s.person != "" then s.person else s.connector + ":" + s.user
  }

  ghost predicate AllSafe(t: string) {
    forall i :: 0 <= i < |t| ==> SafeChar(t[i])
  }

  /** Nothing in the owner's name has to be replaced, but for the first ':' of a person. */
  ghost predicate SafeOwner(s: UserScope) {
    if s.person == "" then AllSafe(s.connector) && AllSafe(s.user)
    else match Cut(s.person, ':')
         case None => AllSafe(s.person)
         case Some((conn, acct)) => AllSafe(conn) && AllSafe(acct)
  }

  lemma SafeStays(t: string)
    requires AllSafe(t)
    ensures Safe(t) == t && ':' !in t && '/' !in t
  {
  }

  lemma {:induction false} PartsSpellTheOwner(s: UserScope)
    requires SafeOwner(s)
    ensures var parts := KeyParts(s);
            parts != [] && JoinWith(parts, ':') == OwnerOf(s) && Without(parts, ':') && Without(parts, '/')
  {
    var parts := KeyParts(s);
    if s.person == "" {
      SafeStays(s.connector);
      SafeStays(s.user);
      assert parts[1..] == [s.user];
    } else if Cut(s.person, ':').None? {
      SafeStays(s.person);
    } else {
      var cut := Cut(s.person, ':').value;
      SafeStays(cut.0);
      SafeStays(cut.1);
      if ':' !in s.person {
        CutAt(s.person, "", ':');
      }
      CutSplits(s.person, ':');
      assert parts[1..] == [cut.1];
    }
  }

  /** Two owners with safe names share a directory exactly when they are the same person or account. */
  lemma {:induction false} DirsAreTheirOwners(s: UserScope, s': UserScope)
    requires SafeOwner(s) && SafeOwner(s')
    ensures Dir(s) == Dir(s') <==> OwnerOf(s) == OwnerOf(s')
  {
    var parts, parts' := KeyParts(s), KeyParts(s');
    PartsSpellTheOwner(s);
    PartsSpellTheOwner(s');
    SplitOfJoin(parts, ':');
    SplitOfJoin(parts', ':');
    if Dir(s) == Dir(s') {
      assert '/' !in "users";
      SplitOfJoin(["users"] + parts, '/');
      SplitOfJoin(["users"] + parts', '/');
      assert (["users"] + parts)[1..] == parts && (["users"] + parts')[1..] == parts';
    }
  }
}
