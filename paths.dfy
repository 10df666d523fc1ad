/** Lexical path handling of Go's path/filepath (and path) packages on a
    system whose separator is '/': Split, Clean, Join, Base, Ext, Rel, Abs.
    ToSlash is the identity there, so it does not appear. */
module Paths {
  import opened Outcomes
  import opened Strs

  const Separator: char := '/'

  /** filepath.IsAbs on a Unix system. */
  predicate IsAbs(p: string) {
    |p| > 0 && p[0] == Separator
  }

  // ---------------------------------------------------------------------
  // Splitting on and joining with the separator

  /** strings.Split(s, "/"): never empty, no part holds a separator. */
  function Split(s: string): (parts: seq<string>)
    ensures |parts| >= 1
    ensures forall i :: 0 <= i < |parts| ==> Separator !in parts[i]
  {
    if |s| == 0 then [""]
    else
      var rest := Split(s[1..]);
      if s[0] == Separator then [""] + rest
      else [[s[0]] + rest[0]] + rest[1..]
  }

  lemma {:induction false} JoinSplit(s: string)
    ensures JoinWith(Split(s), "/") == s
  {
    if |s| > 0 {
      JoinSplit(s[1..]);
      var rest := Split(s[1..]);
      if s[0] == Separator {
        assert ([""] + rest)[1..] == rest;
      } else {
        var parts := [[s[0]] + rest[0]] + rest[1..];
        if |rest| > 1 {
          assert parts[1..] == rest[1..];
        }
      }
      assert s == [s[0]] + s[1..];
    }
  }

  lemma {:induction false} SplitPrefix(a: string, b: string)
    requires Separator !in a
    ensures Split(a + b) == [a + Split(b)[0]] + Split(b)[1..]
  {
    if |a| == 0 {
      assert a + b == b;
      assert a + Split(b)[0] == Split(b)[0];
      assert Split(b) == [Split(b)[0]] + Split(b)[1..];
    } else {
      SplitPrefix(a[1..], b);
      assert (a + b)[1..] == a[1..] + b;
      assert [a[0]] + (a[1..] + Split(b)[0]) == a + Split(b)[0];
    }
  }

  /** Splitting undoes joining when no part holds a separator. */
  lemma {:induction false} SplitJoin(parts: seq<string>)
    requires |parts| >= 1
    requires forall i :: 0 <= i < |parts| ==> Separator !in parts[i]
    ensures Split(JoinWith(parts, "/")) == parts
  {
    if |parts| == 1 {
      SplitPrefix(parts[0], "");
      assert parts[0] + "" == parts[0];
    } else {
      var tail := JoinWith(parts[1..], "/");
      SplitJoin(parts[1..]);
      SplitPrefix(parts[0], "/" + tail);
      assert ("/" + tail)[1..] == tail;
      assert Split("/" + tail) == [""] + Split(tail);
      assert parts[0] + "/" + tail == parts[0] + ("/" + tail);
      assert JoinWith(parts, "/") == parts[0] + "/" + tail;
      assert parts[0] + "" == parts[0];
      assert parts == [parts[0]] + parts[1..];
    }
  }

  lemma SplitConcat(a: string, b: string)
    ensures Split(a + "/" + b) == Split(a) + Split(b)
  {
    var xs, ys := Split(a), Split(b);
    JoinSplit(a);
    JoinSplit(b);
    JoinConcat(xs, ys);
    assert forall i :: 0 <= i < |xs + ys| ==> (xs + ys)[i] in xs || (xs + ys)[i] in ys;
    SplitJoin(xs + ys);
  }

  lemma {:induction false} JoinConcat(xs: seq<string>, ys: seq<string>)
    requires |xs| >= 1 && |ys| >= 1
    ensures JoinWith(xs + ys, "/") == JoinWith(xs, "/") + "/" + JoinWith(ys, "/")
  {
    if |xs| == 1 {
      assert (xs + ys)[1..] == ys;
    } else {
      JoinConcat(xs[1..], ys);
      assert (xs + ys)[1..] == xs[1..] + ys;
    }
  }

  lemma {:induction false} JoinHead(parts: seq<string>)
    requires |parts| >= 1
    ensures HasPrefix(JoinWith(parts, "/"), parts[0])
    ensures |parts| > 1 ==> |JoinWith(parts, "/")| > |parts[0]|
  {
    if |parts| > 1 {
      var j := JoinWith(parts, "/");
      assert j == parts[0] + ("/" + JoinWith(parts[1..], "/"));
      assert j[..|parts[0]|] == parts[0];
    }
  }

  // ---------------------------------------------------------------------
  // Clean

  /** An element of a cleaned path: non-empty, not ".", no separator. */
  predicate IsSegment(e: string) {
    e != "" && e != "." && Separator !in e
  }

  /** The elements Clean leaves: ".." only as a leading run, and never
      below the root. */
  predicate CleanSegs(rooted: bool, segs: seq<string>) {
    && (forall i :: 0 <= i < |segs| ==> IsSegment(segs[i]))
    && (rooted ==> forall i :: 0 <= i < |segs| ==> segs[i] != "..")
    && (forall i, j :: 0 <= i < j < |segs| && segs[j] == ".." ==> segs[i] == "..")
  }

  /** One step of Clean's scan: empty and "." elements vanish, ".." removes
      the previous real element, or stays at the front of a relative path,
      or vanishes at the root. */
  function Push(rooted: bool, stack: seq<string>, e: string): seq<string> {
    if e == "" || e == "." then stack
    else if e == ".." then
      if |stack| > 0 && stack[|stack| - 1] != ".." then stack[..|stack| - 1]
      else if rooted then stack
      else stack + [".."]
    else stack + [e]
  }

  /** Clean's scan from left to right over all elements. */
  function Resolve(rooted: bool, stack: seq<string>, parts: seq<string>): seq<string>
    decreases |parts|
  {
    if |parts| == 0 then stack
    else Resolve(rooted, Push(rooted, stack, parts[0]), parts[1..])
  }

  /** Writes cleaned elements back as a path; a relative path without
      elements is ".". */
  function Render(rooted: bool, segs: seq<string>): string {
    if rooted then "/" + JoinWith(segs, "/")
    else if |segs| == 0 then "."
    else JoinWith(segs, "/")
  }

  /** filepath.Clean. */
  function Clean(p: string): string {
    Render(IsAbs(p), Resolve(IsAbs(p), [], Split(p)))
  }

  /** The elements of a path below its root; "/" and "." have none. */
  function Segments(p: string): seq<string> {
    if p == "/" || p == "." then []
    else if IsAbs(p) then Split(p[1..])
    else Split(p)
  }

  /** The lexically shortest form of a path, as Clean produces it: no empty
      or "." elements, no ".." after a real element or below the root, no
      trailing separator, and "." for the empty relative path. */
  predicate IsClean(p: string) {
    p != "" && CleanSegs(IsAbs(p), Segments(p))
  }

  lemma PushClean(rooted: bool, stack: seq<string>, e: string)
    requires CleanSegs(rooted, stack)
    requires Separator !in e
    ensures CleanSegs(rooted, Push(rooted, stack, e))
  {
    if e == ".." && !(|stack| > 0 && stack[|stack| - 1] != "..") && !rooted {
      var s := stack + [".."];
      forall i, j | 0 <= i < j < |s| && s[j] == ".."
        ensures s[i] == ".."
      {
        if j < |stack| {
          assert stack[j] == "..";
        } else if |stack| > 0 {
          assert stack[|stack| - 1] == "..";
        }
      }
    }
  }

  lemma {:induction false} ResolveClean(rooted: bool, stack: seq<string>, parts: seq<string>)
    requires CleanSegs(rooted, stack)
    requires forall i :: 0 <= i < |parts| ==> Separator !in parts[i]
    ensures CleanSegs(rooted, Resolve(rooted, stack, parts))
    decreases |parts|
  {
    if |parts| > 0 {
      PushClean(rooted, stack, parts[0]);
      ResolveClean(rooted, Push(rooted, stack, parts[0]), parts[1..]);
    }
  }

  /** Scanning elements that are already clean changes nothing. */
  lemma {:induction false} ResolveIdentity(rooted: bool, stack: seq<string>, parts: seq<string>)
    requires CleanSegs(rooted, stack + parts)
    ensures Resolve(rooted, stack, parts) == stack + parts
    decreases |parts|
  {
    if |parts| > 0 {
      var e := parts[0];
      assert (stack + parts)[|stack|] == e;
      if e == ".." {
        if |stack| > 0 {
          assert (stack + parts)[|stack| - 1] == stack[|stack| - 1];
        }
      }
      assert Push(rooted, stack, e) == stack + [e];
      assert (stack + [e]) + parts[1..] == stack + parts;
      ResolveIdentity(rooted, stack + [e], parts[1..]);
    }
  }

  lemma RenderSegments(rooted: bool, segs: seq<string>)
    requires CleanSegs(rooted, segs)
    ensures IsAbs(Render(rooted, segs)) == rooted
    ensures Segments(Render(rooted, segs)) == segs
    ensures IsClean(Render(rooted, segs))
  {
    if |segs| > 0 {
      var j := JoinWith(segs, "/");
      JoinHead(segs);
      SplitJoin(segs);
      assert |j| >= |segs[0]| > 0;
      if rooted {
        assert ("/" + j)[1..] == j;
      } else {
        assert j[0] == segs[0][0];
        assert j != "." by {
          if |segs| == 1 {
            assert j == segs[0];
          }
        }
      }
    }
  }

  /** Clean yields a clean path, absolute exactly when its input is. */
  lemma CleanIsClean(p: string)
    ensures IsClean(Clean(p))
    ensures IsAbs(Clean(p)) == IsAbs(p)
    ensures Segments(Clean(p)) == Resolve(IsAbs(p), [], Split(p))
  {
    ResolveClean(IsAbs(p), [], Split(p));
    RenderSegments(IsAbs(p), Resolve(IsAbs(p), [], Split(p)));
  }

  /** Clean leaves a clean path unchanged. */
  lemma CleanOfClean(p: string)
    requires IsClean(p)
    ensures Clean(p) == p
  {
    if p == "/" {
      CleanOfRoot(p);
    } else if p == "." {
      CleanOfDot(p);
    } else if IsAbs(p) {
      CleanOfRooted(p);
    } else {
      CleanOfRelative(p);
    }
  }

  lemma CleanOfRoot(p: string)
    requires p == "/"
    ensures Clean(p) == p
  {
    assert p[1..] == "";
    assert Split(p) == [""] + Split(p[1..]) == ["", ""];
    assert ["", ""][1..] == [""] && [""][1..] == [];
    assert Resolve(true, [], ["", ""]) == Resolve(true, [], [""]) == Resolve(true, [], []);
  }

  lemma CleanOfDot(p: string)
    requires p == "."
    ensures Clean(p) == p
  {
    assert Split(p) == [[p[0]] + Split("")[0]] + Split("")[1..];
    assert Resolve(false, [], Split(p)) == [];
  }

  lemma CleanOfRooted(p: string)
    requires IsClean(p) && IsAbs(p) && p != "/"
    ensures Clean(p) == p
  {
    var s := Segments(p);
    assert Split(p) == [""] + s;
    assert ([""] + s)[1..] == s;
    ResolveIdentity(true, [], s);
    assert [] + s == s;
    JoinSplit(p[1..]);
    assert p == "/" + p[1..];
  }

  lemma CleanOfRelative(p: string)
    requires IsClean(p) && !IsAbs(p) && p != "."
    ensures Clean(p) == p
  {
    ResolveIdentity(false, [], Split(p));
    assert [] + Split(p) == Split(p);
    JoinSplit(p);
  }

  /** Cleaning twice is cleaning once. */
  lemma CleanIdempotent(p: string)
    ensures Clean(Clean(p)) == Clean(p)
  {
    CleanIsClean(p);
    CleanOfClean(Clean(p));
  }

  /** A clean relative path built from real elements. */
  lemma RelativeFromSegments(segs: seq<string>)
    requires |segs| >= 1
    requires forall i :: 0 <= i < |segs| ==> IsSegment(segs[i]) && segs[i] != ".."
    ensures IsClean(JoinWith(segs, "/")) && !IsAbs(JoinWith(segs, "/"))
    ensures JoinWith(segs, "/") != "."
    ensures Segments(JoinWith(segs, "/")) == segs
  {
    RenderSegments(false, segs);
  }

  lemma {:induction false} ResolveConcat(rooted: bool, stack: seq<string>, xs: seq<string>, ys: seq<string>)
    ensures Resolve(rooted, stack, xs + ys) == Resolve(rooted, Resolve(rooted, stack, xs), ys)
    decreases |xs|
  {
    if |xs| > 0 {
      assert (xs + ys)[0] == xs[0];
      assert (xs + ys)[1..] == xs[1..] + ys;
      ResolveConcat(rooted, Push(rooted, stack, xs[0]), xs[1..], ys);
    } else {
      assert xs + ys == ys;
    }
  }

  /** A doubled separator cleans like a single one. */
  lemma CleanDoubleSeparator(a: string, b: string)
    ensures Clean(a + "/" + "/" + b) == Clean(a + "/" + b)
  {
    var p, q := a + "/" + "/" + b, a + "/" + b;
    assert p == a + "/" + ("/" + b);
    SplitConcat(a, "/" + b);
    SplitConcat(a, b);
    SplitConcat("", b);
    assert "" + "/" + b == "/" + b;
    assert Split("") == [""];
    assert IsAbs(p) == IsAbs(q) by {
      if |a| > 0 {
        assert p[0] == a[0] && q[0] == a[0];
      } else {
        assert p[0] == '/' && q[0] == '/';
      }
    }
    var r := IsAbs(p);
    var xs, ys := Split(a), Split(b);
    assert Split(p) == xs + ([""] + ys);
    ResolveConcat(r, [], xs, [""] + ys);
    ResolveConcat(r, [], xs, ys);
    assert ([""] + ys)[1..] == ys;
  }

  // ---------------------------------------------------------------------
  // Join

  /** filepath.Join: joins the elements from the first non-empty one on
      with separators and cleans the result; "" when all are empty. */
  function Join(elems: seq<string>): (r: string)
    ensures r == "" <==> forall i :: 0 <= i < |elems| ==> elems[i] == ""
    ensures r != "" ==> IsClean(r)
  {
    if |elems| == 0 then ""
    else if elems[0] != "" then
      CleanIsClean(JoinWith(elems, "/"));
      Clean(JoinWith(elems, "/"))
    else
      assert forall i :: 1 <= i < |elems| ==> elems[i] == elems[1..][i - 1];
      Join(elems[1..])
  }

  /** A path that starts at the root stays absolute when joined. */
  lemma JoinAbsolute(elems: seq<string>)
    requires |elems| >= 1 && IsAbs(elems[0])
    ensures IsAbs(Join(elems))
  {
    var j := JoinWith(elems, "/");
    JoinHead(elems);
    assert j[0] == elems[0][0];
    CleanIsClean(j);
  }

  lemma CleanBelowRoot(rel: string)
    requires IsClean(rel) && !IsAbs(rel) && rel != "."
    requires forall i :: 0 <= i < |Segments(rel)| ==> Segments(rel)[i] != ".."
    ensures Clean("/" + "/" + rel) == "/" + rel
  {
    var sr := Segments(rel);
    var p := "/" + "/" + rel;
    assert p[1..] == "/" + rel;
    assert ("/" + rel)[1..] == rel;
    assert Split(p) == [""] + Split("/" + rel);
    assert Split("/" + rel) == [""] + sr;
    assert ([""] + ([""] + sr))[1..] == [""] + sr;
    assert ([""] + sr)[1..] == sr;
    assert Resolve(true, [], Split(p)) == Resolve(true, [], sr);
    ResolveIdentity(true, [], sr);
    assert [] + sr == sr;
    JoinSplit(rel);
  }

  lemma CleanSegsConcat(xs: seq<string>, ys: seq<string>)
    requires CleanSegs(true, xs) && CleanSegs(true, ys)
    ensures CleanSegs(true, xs + ys)
  {
    forall i | 0 <= i < |xs + ys|
      ensures IsSegment((xs + ys)[i]) && (xs + ys)[i] != ".."
    {
      if i >= |xs| {
        assert (xs + ys)[i] == ys[i - |xs|];
      }
    }
  }

  lemma CleanNested(dir: string, rel: string)
    requires IsClean(dir) && IsAbs(dir) && dir != "/"
    requires IsClean(rel) && !IsAbs(rel) && rel != "."
    requires forall i :: 0 <= i < |Segments(rel)| ==> Segments(rel)[i] != ".."
    ensures Clean(dir + "/" + rel) == dir + "/" + rel
  {
    var sr := Segments(rel);
    var sd := Segments(dir);
    assert sd == Split(dir[1..]);
    assert sr == Split(rel);
    JoinSplit(dir[1..]);
    JoinSplit(rel);
    JoinConcat(sd, sr);
    assert dir == "/" + dir[1..];
    assert dir + "/" + rel == Render(true, sd + sr);
    CleanSegsConcat(sd, sr);
    RenderSegments(true, sd + sr);
    CleanOfClean(Render(true, sd + sr));
  }

  /** Joining a clean absolute directory with a clean relative path that
      never climbs with ".." is plain concatenation. */
  lemma JoinChild(dir: string, rel: string)
    requires IsClean(dir) && IsAbs(dir)
    requires IsClean(rel) && !IsAbs(rel) && rel != "."
    requires forall i :: 0 <= i < |Segments(rel)| ==> Segments(rel)[i] != ".."
    ensures Join([dir, rel]) == (if dir == "/" then dir else dir + "/") + rel
  {
    assert [dir, rel][0] == dir;
    assert JoinWith([dir, rel], "/") == dir + "/" + rel;
    assert Join([dir, rel]) == Clean(dir + "/" + rel);
    if dir == "/" {
      CleanBelowRoot(rel);
    } else {
      CleanNested(dir, rel);
    }
  }

  // ---------------------------------------------------------------------
  // Base and Ext

  function TrimTrailingSeparators(p: string): (r: string)
    ensures |r| <= |p| && r == p[..|r|]
    ensures r == "" || r[|r| - 1] != Separator
    ensures forall k :: |r| <= k < |p| ==> p[k] == Separator
  {
    if |p| > 0 && p[|p| - 1] == Separator then TrimTrailingSeparators(p[..|p| - 1]) else p
  }

  /** The part of t after its last separator. */
  function LastElement(t: string): (r: string)
    ensures Separator !in r
    ensures HasSuffix(t, r)
    ensures |r| < |t| ==> t[|t| - |r| - 1] == Separator
  {
    if |t| == 0 || t[|t| - 1] == Separator then ""
    else LastElement(t[..|t| - 1]) + [t[|t| - 1]]
  }

  /** filepath.Base: the last element with trailing separators ignored; "."
      for the empty path and "/" for a path of separators only. */
  function Base(p: string): string {
    if p == "" then "."
    else
      var t := TrimTrailingSeparators(p);
      if t == "" then "/" else LastElement(t)
  }

  lemma {:induction false} LastElementAfter(prefix: string, name: string)
    requires Separator !in name
    ensures LastElement(prefix + "/" + name) == name
    decreases |name|
  {
    var t := prefix + "/" + name;
    if |name| > 0 {
      assert t[..|t| - 1] == prefix + "/" + name[..|name| - 1];
      LastElementAfter(prefix, name[..|name| - 1]);
      assert name == name[..|name| - 1] + [name[|name| - 1]];
    } else {
      assert t[|t| - 1] == Separator;
    }
  }

  /** The base of dir/name is name when name is a single non-empty element. */
  lemma BaseOfChild(prefix: string, name: string)
    requires name != "" && Separator !in name
    ensures Base(prefix + "/" + name) == name
  {
    var p := prefix + "/" + name;
    assert p[|p| - 1] == name[|name| - 1];
    assert TrimTrailingSeparators(p) == p;
    LastElementAfter(prefix, name);
  }

  /** path.Ext: the suffix from the final '.' in the last element, or "". */
  function Ext(p: string): (r: string)
    ensures r == "" || (r[0] == '.' && HasSuffix(p, r) && Separator !in r && '.' !in r[1..])
    ensures r == "" ==> forall k :: 0 <= k < |p| && p[k] == '.' ==> Separator in p[k..]
  {
    if |p| == 0 || p[|p| - 1] == Separator then
      assert forall k :: 0 <= k < |p| ==> p[|p| - 1] in p[k..];
      ""
    else if p[|p| - 1] == '.' then "."
    else
      var e := Ext(p[..|p| - 1]);
      if e == "" then
        assert forall k :: 0 <= k < |p| - 1 ==> p[..|p| - 1][k..] <= p[k..];
        ""
      else
        assert (e + [p[|p| - 1]])[1..] == e[1..] + [p[|p| - 1]];
        e + [p[|p| - 1]]
  }

  // ---------------------------------------------------------------------
  // Rel and Abs

  function Repeat(s: string, n: nat): (r: seq<string>)
    ensures |r| == n && forall i :: 0 <= i < n ==> r[i] == s
  {
    if n == 0 then [] else [s] + Repeat(s, n - 1)
  }

  /** Length of the longest common prefix of two element lists. */
  function CommonPrefixLen(xs: seq<string>, ys: seq<string>): (n: nat)
    ensures n <= |xs| && n <= |ys|
    ensures xs[..n] == ys[..n]
    ensures n < |xs| && n < |ys| ==> xs[n] != ys[n]
  {
    if |xs| == 0 || |ys| == 0 || xs[0] != ys[0] then 0
    else
      var n := CommonPrefixLen(xs[1..], ys[1..]);
      assert xs[..n + 1] == [xs[0]] + xs[1..][..n];
      assert ys[..n + 1] == [ys[0]] + ys[1..][..n];
      1 + n
  }

  /** The error filepath.Rel reports for paths it cannot relate. */
  function RelError(basepath: string, targpath: string): string {
    "Rel: can't make " + targpath + " relative to " + basepath
  }

  /** filepath.Rel: a relative path that leads from basepath to targpath,
      computed on the cleaned element lists: climb out of the elements of
      the base that are not shared, then descend into those of the target. */
  function Rel(basepath: string, targpath: string): Result<string> {
    var base := Clean(basepath);
    var targ := Clean(targpath);
    if targ == base then Ok(".")
    else if IsAbs(base) != IsAbs(targ) then
      Err(RelError(basepath, targpath))
    else
      var bs := Segments(base);
      var ts := Segments(targ);
      var n := CommonPrefixLen(bs, ts);
      if n < |bs| && bs[n] == ".." then
        Err(RelError(basepath, targpath))
      else
        Ok(JoinWith(Repeat("..", |bs| - n) + ts[n..], "/"))
  }

  /** The element list of a clean absolute path determines it. */
  lemma AbsoluteBySegments(p: string)
    requires IsClean(p) && IsAbs(p)
    ensures p == Render(true, Segments(p))
  {
    CleanOfClean(p);
    if p == "/" {
    } else {
      JoinSplit(p[1..]);
      assert p == "/" + p[1..];
    }
  }

  lemma SeqPrefixSplit(xs: seq<string>, n: nat)
    requires n <= |xs|
    ensures xs == xs[..n] + xs[n..]
  {
  }

  /** Rel between two distinct clean absolute paths, element-wise. */
  lemma RelDistinct(base: string, targ: string)
    requires IsClean(base) && IsAbs(base) && IsClean(targ) && IsAbs(targ)
    requires base != targ
    ensures var bs, ts := Segments(base), Segments(targ);
            var n := CommonPrefixLen(bs, ts);
            && bs != ts
            && Rel(base, targ) == Ok(JoinWith(Repeat("..", |bs| - n) + ts[n..], "/"))
  {
    CleanOfClean(base);
    CleanOfClean(targ);
    var bs, ts := Segments(base), Segments(targ);
    assert bs != ts by {
      AbsoluteBySegments(base);
      AbsoluteBySegments(targ);
    }
    var n := CommonPrefixLen(bs, ts);
    assert n < |bs| ==> bs[n] != "..";
  }

  /** Elements of d that is not a climbing prefix: the joined path does not start with "..". */
  lemma NoClimb(ext: seq<string>)
    requires |ext| >= 1 && IsSegment(ext[0]) && ext[0] != ".."
    ensures var r := JoinWith(ext, "/");
            r != ".." && r != "." && !HasPrefix(r, "../")
  {
    var r := JoinWith(ext, "/");
    JoinHead(ext);
    if |ext| == 1 {
      assert r == ext[0];
    }
    if |ext| > 1 {
      assert r == ext[0] + ("/" + JoinWith(ext[1..], "/"));
    }
    if |ext[0]| >= 3 {
      assert r[2] == ext[0][2] && ext[0][2] in ext[0];
      assert r[2] != Separator;
    }
  }

  lemma Climbs(parts: seq<string>)
    requires |parts| >= 1 && parts[0] == ".."
    ensures var r := JoinWith(parts, "/");
            r == ".." || HasPrefix(r, "../")
  {
    if |parts| > 1 {
      var r := JoinWith(parts, "/");
      assert r == ".." + ("/" + JoinWith(parts[1..], "/"));
      assert r[..3] == "../";
    }
  }

  /** Rel between two clean absolute paths never fails. */
  lemma RelDefined(base: string, targ: string)
    requires IsClean(base) && IsAbs(base) && IsClean(targ) && IsAbs(targ)
    ensures Rel(base, targ).Ok?
  {
    RelOfAbsolute(base, targ);
  }

  /** For two clean absolute paths, Rel's answer climbs out (is ".." or
      starts with "../") exactly when the target is not the base or below
      it; otherwise it is "." or the target's extra elements. */
  lemma RelOfAbsolute(base: string, targ: string)
    requires IsClean(base) && IsAbs(base) && IsClean(targ) && IsAbs(targ)
    ensures Rel(base, targ).Ok?
    ensures var r := Rel(base, targ).value;
            var bs := Segments(base);
            var ts := Segments(targ);
            var inside := |bs| <= |ts| && ts[..|bs|] == bs;
            && (inside <==> !(r == ".." || HasPrefix(r, "../")))
            && (inside ==> (r == "." <==> bs == ts))
            && (inside && bs != ts ==> r == JoinWith(ts[|bs|..], "/"))
  {
    var bs := Segments(base);
    var ts := Segments(targ);
    var inside := |bs| <= |ts| && ts[..|bs|] == bs;
    if base == targ {
      CleanOfClean(base);
      assert Rel(base, targ) == Ok(".");
      assert !HasPrefix(".", "../");
      assert ts[..|bs|] == bs;
    } else {
      RelDistinct(base, targ);
      var n := CommonPrefixLen(bs, ts);
      var parts := Repeat("..", |bs| - n) + ts[n..];
      if inside {
        assert n == |bs|;
        assert parts == ts[|bs|..];
        assert |ts| > |bs|;
        assert parts[0] == ts[|bs|];
        NoClimb(parts);
      } else {
        assert n < |bs|;
        assert parts[0] == "..";
        Climbs(parts);
      }
    }
  }

  /** filepath.Abs, with os.Getwd's answer as input: an absolute path is
      only cleaned, a relative one is joined to the working directory. */
  function Abs(p: string, cwd: Result<string>): (r: Result<string>)
    requires cwd.Ok? ==> IsAbs(cwd.value)
    ensures r.Ok? ==> IsAbs(r.value) && IsClean(r.value)
    ensures IsAbs(p) ==> r == Ok(Clean(p))
    ensures !IsAbs(p) ==> (r.Ok? <==> cwd.Ok?)
  {
    if IsAbs(p) then
      CleanIsClean(p);
      Ok(Clean(p))
    else if cwd.Err? then Err(cwd.error)
    else
      JoinAbsolute([cwd.value, p]);
      Ok(Join([cwd.value, p]))
  }
}
