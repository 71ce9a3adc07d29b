/** Names and paths of the coverage normaliser: bare names, test modules and the LIKE path patterns. */
module GraphNames {
  import opened Options

  predicate OccursAt(s: string, sub: string, i: int) {
    0 <= i <= |s| - |sub| && s[i..i + |sub|] == sub
  }

  predicate Contains(s: string, sub: string) {
    exists i :: 0 <= i <= |s| - |sub| && OccursAt(s, sub, i)
  }

  /** The last occurrence at or before position i, or -1. */
  function LastAt(s: string, sub: string, i: int): (k: int)
    ensures -1 <= k && (k >= 0 ==> OccursAt(s, sub, k) && k <= i)
    ensures forall j :: k < j <= i ==> !OccursAt(s, sub, j)
    decreases i + 1
  {
    if i < 0 then -1 else if OccursAt(s, sub, i) then i else LastAt(s, sub, i - 1)
  }

  /** The first occurrence at or after position i, or -1. */
  function FirstAt(s: string, sub: string, i: nat): (k: int)
    ensures -1 <= k && (k >= 0 ==> OccursAt(s, sub, k) && k >= i)
    ensures k == -1 ==> forall j :: j >= i ==> !OccursAt(s, sub, j)
    ensures k >= 0 ==> forall j :: i <= j < k ==> !OccursAt(s, sub, j)
    decreases |s| - i
  {
    if i > |s| - |sub| then -1 else if OccursAt(s, sub, i) then i
    else if i + 1 > |s| then -1 else FirstAt(s, sub, i + 1)
  }

  /** What follows the last separator, or the whole string. */
  function AfterLast(s: string, sep: string): string {
    var k := LastAt(s, sep, |s| - |sep|);
    if k < 0 then s else s[k + |sep|..]
  }

  /** What precedes the first separator, or the whole string. */
  function BeforeFirst(s: string, sep: string): string {
    var k := FirstAt(s, sep, 0);
    if k < 0 then s else s[..k]
  }

  /** What follows the first separator, if there is one. */
  function AfterFirst(s: string, sep: string): Option<string> {
    var k := FirstAt(s, sep, 0);
    if k < 0 then None else Some(s[k + |sep|..])
  }

  function BareName(qualified: string): string { AfterLast(AfterLast(qualified, "::"), ".") }

  /** A name with neither separator: the form the extractor emits for an unresolved source. */
  predicate IsBare(s: string) { !Contains(s, "::") && !Contains(s, ".") }

  function TestModule(filePath: string): Option<string> {
    match AfterFirst(filePath, "/test/")
    case None => None
    case Some(relative) =>
      var m := BeforeFirst(relative, "/");
      if m == "" then None else Some(m)
  }

  /** The module of a library source file: what stands between the marker and the next slash. */
  function SourceModule(filePath: string): Option<string> {
    match AfterFirst(filePath, "/src/cpp/galay-")
    case None => None
    case Some(rest) => Some(BeforeFirst(rest, "/"))
  }

  // ---- LIKE with percent signs at both ends: containment, ignoring ASCII case ----

  function Lower(c: char): char { if 'A' <= c <= 'Z' then (c as int + 32) as char else c }

  function LowerAll(s: string): (r: string)
    ensures |r| == |s| && forall i :: 0 <= i < |s| ==> r[i] == Lower(s[i])
  {
    seq(|s|, i requires 0 <= i < |s| => Lower(s[i]))
  }

  predicate Like(path: string, part: string) { Contains(LowerAll(path), part) }

  /** The pattern of two parts, the second somewhere after the first. */
  predicate LikeThen(path: string, first: string, second: string) {
    var p := LowerAll(path);
    exists i :: 0 <= i <= |p| - |first| && OccursAt(p, first, i) && Contains(p[i + |first|..], second)
  }

  // ---- Bare names are bare ----

  lemma DropKeepsAbsence(s: string, k: nat, sub: string)
    requires k <= |s| && !Contains(s, sub)
    ensures !Contains(s[k..], sub)
  {
    forall i | 0 <= i <= |s[k..]| - |sub| ensures !OccursAt(s[k..], sub, i) {
      assert s[k..][i..i + |sub|] == s[k + i..k + i + |sub|];
      assert !OccursAt(s, sub, k + i);
    }
  }

  lemma AfterLastLacks(s: string, sep: string)
    requires sep != ""
    ensures !Contains(AfterLast(s, sep), sep)
    ensures exists k :: 0 <= k <= |s| && AfterLast(s, sep) == s[k..]
    ensures !Contains(s, sep) ==> AfterLast(s, sep) == s
  {
    var k := LastAt(s, sep, |s| - |sep|);
    if k >= 0 {
      var tail := s[k + |sep|..];
      forall i | 0 <= i <= |tail| - |sep| ensures !OccursAt(tail, sep, i) {
        assert tail[i..i + |sep|] == s[k + |sep| + i..k + |sep| + i + |sep|];
        assert !OccursAt(s, sep, k + |sep| + i);
      }
    } else {
      assert s == s[0..];
    }
  }

  /** The bare name is a separator-free tail, and a name without separators is its own bare name. */
  lemma BareNameIsBare(qualified: string)
    ensures IsBare(BareName(qualified))
    ensures exists k :: 0 <= k <= |qualified| && BareName(qualified) == qualified[k..]
    ensures IsBare(qualified) ==> BareName(qualified) == qualified
  {
    var tail := AfterLast(qualified, "::");
    AfterLastLacks(qualified, "::");
    AfterLastLacks(tail, ".");
    var k :| 0 <= k <= |qualified| && tail == qualified[k..];
    var j :| 0 <= j <= |tail| && BareName(qualified) == tail[j..];
    DropKeepsAbsence(tail, j, "::");
    assert qualified[k..][j..] == qualified[k + j..];
  }

  // ---- What the splits give ----

  /** Cutting at the last separator gives exactly what follows it. */
  lemma AfterLastSplits(a: string, sep: string, b: string)
    requires sep != "" && forall j :: |a| < j ==> !OccursAt(a + sep + b, sep, j)
    ensures AfterLast(a + sep + b, sep) == b
  {
    var s := a + sep + b;
    assert s[|a|..|a| + |sep|] == sep && OccursAt(s, sep, |a|);
    assert LastAt(s, sep, |s| - |sep|) == |a|;
    assert s[|a| + |sep|..] == b;
  }

  /** Cutting at the first separator gives exactly what stands before and behind it. */
  lemma FirstSplits(a: string, sep: string, b: string)
    requires forall j :: 0 <= j < |a| ==> !OccursAt(a + sep + b, sep, j)
    ensures BeforeFirst(a + sep + b, sep) == a && AfterFirst(a + sep + b, sep) == Some(b)
  {
    var s := a + sep + b;
    assert s[|a|..|a| + |sep|] == sep && OccursAt(s, sep, |a|);
    assert FirstAt(s, sep, 0) == |a|;
    assert s[..|a|] == a && s[|a| + |sep|..] == b;
  }

  lemma NothingToSplit(s: string, sep: string)
    requires !Contains(s, sep)
    ensures BeforeFirst(s, sep) == s && AfterFirst(s, sep) == None
  {
  }

  /** Behind the junction of a and `tail` a separator occurs only where it occurs in `tail`. */
  lemma OccursBehind(a: string, tail: string, sep: string, j: int)
    requires j >= |a| && OccursAt(a + tail, sep, j)
    ensures OccursAt(tail, sep, j - |a|)
  {
    assert (a + tail)[j..j + |sep|] == tail[j - |a|..j - |a| + |sep|];
  }

  /** The bare name is what stands directly behind the last double colon or dot. */
  lemma BareNameBehindSeparator(a: string, b: string)
    requires IsBare(b)
    ensures (b == "" || b[0] != ':') ==> BareName(a + "::" + b) == b
    ensures BareName(a + "." + b) == b
  {
    BareNameIsBare(b);
    if b == "" || b[0] != ':' {
      BehindColons(a, b);
      AfterLastLacks(b, ".");
    }
    BehindDot(a, b);
  }

  lemma BehindColons(a: string, b: string)
    requires !Contains(b, "::") && (b == "" || b[0] != ':')
    ensures AfterLast(a + "::" + b, "::") == b
  {
    var s := a + "::" + b;
    forall j | |a| < j ensures !OccursAt(s, "::", j) {
      if OccursAt(s, "::", j) {
        assert s[j..j + 2][1] == s[j + 1];
        if j >= |a| + 2 { OccursBehind(a + "::", b, "::", j); }
        assert false;
      }
    }
    AfterLastSplits(a, "::", b);
  }

  lemma BehindDot(a: string, b: string)
    requires IsBare(b)
    ensures BareName(a + "." + b) == b
  {
    var h := KeepsTheDot(a, b);
    DotSplits(h, b);
  }

  /** Cutting at a double colon leaves the dot and what follows. */
  lemma KeepsTheDot(a: string, b: string) returns (h: string)
    requires !Contains(b, "::")
    ensures AfterLast(a + "." + b, "::") == h + "." + b
  {
    var s := a + "." + b;
    var k := LastAt(s, "::", |s| - 2);
    h := a;
    if k >= 0 {
      NoColonsBehindDot(a, b, k);
      h := a[k + 2..];
      assert s[k + 2..] == h + "." + b;
    }
  }

  /** A double colon of such a name lies before the dot. */
  lemma NoColonsBehindDot(a: string, b: string, k: int)
    requires !Contains(b, "::") && OccursAt(a + "." + b, "::", k)
    ensures 0 <= k <= |a| - 2
  {
    var s := a + "." + b;
    assert s[k..k + 2][0] == s[k] && s[k..k + 2][1] == s[k + 1] && s[|a|] == '.';
    if k > |a| { OccursBehind(a + ".", b, "::", k); }
  }

  lemma DotSplits(a: string, b: string)
    requires !Contains(b, ".")
    ensures AfterLast(a + "." + b, ".") == b
  {
    forall j | |a| < j ensures !OccursAt(a + "." + b, ".", j) {
      if OccursAt(a + "." + b, ".", j) {
        OccursBehind(a + ".", b, ".", j);
        assert false;
      }
    }
    AfterLastSplits(a, ".", b);
  }

  /** The end of a path behind a directory or file name. */
  predicate EndsName(tail: string) { tail == "" || tail[0] == '/' }

  /** The module of a path under a marker: the name up to the next slash, or up to the end. */
  lemma ModuleBehindMarker(m: string, tail: string)
    requires EndsName(tail) && forall i :: 0 <= i < |m| ==> m[i] != '/'
    ensures BeforeFirst(m + tail, "/") == m
  {
    var s := m + tail;
    forall j | 0 <= j < |m| ensures !OccursAt(s, "/", j) { assert s[j..j + 1][0] == m[j]; }
    if tail == "" {
      assert s == m;
      NothingToSplit(s, "/");
    } else {
      assert s == m + "/" + tail[1..];
      FirstSplits(m, "/", tail[1..]);
    }
  }

  /** The module of a test path is the name below the first test directory; an empty one is no module. */
  lemma TestModuleIs(a: string, m: string, tail: string)
    requires EndsName(tail) && forall i :: 0 <= i < |m| ==> m[i] != '/'
    requires forall j :: 0 <= j < |a| ==> !OccursAt(a + "/test/" + (m + tail), "/test/", j)
    ensures TestModule(a + "/test/" + (m + tail)) == if m == "" then None else Some(m)
  {
    FirstSplits(a, "/test/", m + tail);
    ModuleBehindMarker(m, tail);
  }

  lemma NoTestModule(path: string)
    requires !Contains(path, "/test/")
    ensures TestModule(path) == None
  {
    NothingToSplit(path, "/test/");
  }

  /** The module of a library path is what stands between the first marker and the next slash. */
  lemma SourceModuleIs(a: string, m: string, tail: string)
    requires EndsName(tail) && forall i :: 0 <= i < |m| ==> m[i] != '/'
    requires forall j :: 0 <= j < |a| ==> !OccursAt(a + "/src/cpp/galay-" + (m + tail), "/src/cpp/galay-", j)
    ensures SourceModule(a + "/src/cpp/galay-" + (m + tail)) == Some(m)
  {
    FirstSplits(a, "/src/cpp/galay-", m + tail);
    ModuleBehindMarker(m, tail);
  }

  // ---- What the patterns match ----

  lemma LowerAppends(a: string, b: string)
    ensures LowerAll(a + b) == LowerAll(a) + LowerAll(b)
  {
  }

  /** A pattern matches exactly the paths that contain it, letters of either case alike. */
  lemma LikeIff(path: string, part: string)
    ensures Like(path, part) <==> exists a, mid, b :: path == a + mid + b && LowerAll(mid) == part
  {
    if Like(path, part) {
      var i :| 0 <= i <= |LowerAll(path)| - |part| && OccursAt(LowerAll(path), part, i);
      var a, mid, b := path[..i], path[i..i + |part|], path[i + |part|..];
      assert path == a + mid + b && LowerAll(mid) == LowerAll(path)[i..i + |part|];
    }
    if a, mid, b :| path == a + mid + b && LowerAll(mid) == part {
      LowerAppends(a + mid, b);
      LowerAppends(a, mid);
      var p := LowerAll(path);
      assert p[|a|..|a| + |part|] == part && OccursAt(p, part, |a|);
    }
  }
}
