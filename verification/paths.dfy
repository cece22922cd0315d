/** Slash-separated paths, lexically cleaned the way Go's path.Join and
    path.Clean treat a rooted path: empty and "." segments vanish, ".."
    removes the segment before it and cannot climb above the root, and the
    result has no trailing slash. */
module Paths {

  /** A segment that survives cleaning. */
  predicate IsName(seg: string)
  {
    seg != "" && seg != "." && seg != ".." && '/' !in seg
  }

  predicate AllNames(segs: seq<string>)
  {
    forall i :: 0 <= i < |segs| ==> IsName(segs[i])
  }

  /** The pieces of s between slashes; "a//b" gives ["a", "", "b"]. */
  function Split(s: string): (parts: seq<string>)
    ensures |parts| >= 1
    ensures forall i :: 0 <= i < |parts| ==> '/' !in parts[i]
    decreases |s|
  {
    if |s| == 0 then [""]
    else
      var rest := Split(s[1..]);
      if s[0] == '/' then [""] + rest
      else [[s[0]] + rest[0]] + rest[1..]
  }

  /** The segments joined with single slashes. */
  function Concat(segs: seq<string>): string
    decreases |segs|
  {
    if |segs| == 0 then ""
    else if |segs| == 1 then segs[0]
    else segs[0] + "/" + Concat(segs[1..])
  }

  /** Walks the segments onto a stack of names, starting from the root. */
  function Resolve(stack: seq<string>, segs: seq<string>): (names: seq<string>)
    requires AllNames(stack)
    requires forall i :: 0 <= i < |segs| ==> '/' !in segs[i]
    ensures AllNames(names)
    decreases |segs|
  {
    if |segs| == 0 then stack
    else if segs[0] == "" || segs[0] == "." then Resolve(stack, segs[1..])
    else if segs[0] == ".." then
      Resolve(if |stack| == 0 then [] else stack[..|stack| - 1], segs[1..])
    else Resolve(stack + [segs[0]], segs[1..])
  }

  /** path.Clean for a path that starts with '/'. */
  function Clean(p: string): (c: string)
    requires |p| > 0 && p[0] == '/'
    ensures |c| > 0 && c[0] == '/'
  {
    "/" + Concat(Resolve([], Split(p[1..])))
  }

  /** path.Join(base, elem) for a rooted base: an empty elem is ignored. */
  function Join(base: string, elem: string): (j: string)
    requires |base| > 0 && base[0] == '/'
    ensures |j| > 0 && j[0] == '/'
  {
    if elem == "" then Clean(base) else Clean(base + "/" + elem)
  }

  /** Splitting undoes joining with slashes. */
  lemma {:induction false} SplitConcat(segs: seq<string>)
    requires |segs| >= 1
    requires forall i :: 0 <= i < |segs| ==> '/' !in segs[i]
    ensures Split(Concat(segs)) == segs
    decreases |segs|
  {
    if |segs| == 1 {
      SplitNoSlash(segs[0]);
    } else {
      SplitNoSlash(segs[0]);
      SplitConcat(segs[1..]);
      SplitAppend(segs[0], Concat(segs[1..]));
      assert segs == [segs[0]] + segs[1..];
    }
  }

  /** A piece with no slash splits into itself. */
  lemma {:induction false} SplitNoSlash(s: string)
    requires '/' !in s
    ensures Split(s) == [s]
    decreases |s|
  {
    if |s| > 0 {
      SplitNoSlash(s[1..]);
      assert [s[0]] + s[1..] == s;
    }
  }

  /** A slash between a and b separates their pieces. */
  lemma {:induction false} SplitAppend(a: string, b: string)
    ensures Split(a + "/" + b) == Split(a) + Split(b)
    decreases |a|
  {
    if |a| == 0 {
      assert a + "/" + b == "/" + b;
      assert ("/" + b)[1..] == b;
    } else {
      assert (a + "/" + b)[1..] == a[1..] + "/" + b;
      SplitAppend(a[1..], b);
    }
  }

  /** Joining the pieces with slashes gives back the original text. */
  lemma {:induction false} ConcatSplit(s: string)
    ensures Concat(Split(s)) == s
    decreases |s|
  {
    if |s| > 0 {
      ConcatSplit(s[1..]);
      var rest := Split(s[1..]);
      if s[0] == '/' {
        assert ([""] + rest)[1..] == rest;
      } else {
        var parts := [[s[0]] + rest[0]] + rest[1..];
        if |rest| > 1 {
          assert parts[1..] == rest[1..];
          assert Concat(rest) == rest[0] + "/" + Concat(rest[1..]);
        }
      }
      assert s == [s[0]] + s[1..];
    }
  }

  /** Appending one segment adds it after a slash. */
  lemma {:induction false} ConcatSnoc(segs: seq<string>, last: string)
    requires |segs| >= 1
    ensures Concat(segs + [last]) == Concat(segs) + "/" + last
    decreases |segs|
  {
    if |segs| > 1 {
      assert (segs + [last])[1..] == segs[1..] + [last];
      ConcatSnoc(segs[1..], last);
    }
  }

  /** Resolving segments that are all names just pushes them. */
  lemma {:induction false} ResolveNames(stack: seq<string>, segs: seq<string>)
    requires AllNames(stack) && AllNames(segs)
    ensures Resolve(stack, segs) == stack + segs
    decreases |segs|
  {
    if |segs| > 0 {
      ResolveNames(stack + [segs[0]], segs[1..]);
      assert stack + [segs[0]] + segs[1..] == stack + segs;
    }
  }

  /** Cleaning a cleaned path changes nothing. */
  lemma CleanIdempotent(p: string)
    requires |p| > 0 && p[0] == '/'
    ensures Clean(Clean(p)) == Clean(p)
  {
    var names := Resolve([], Split(p[1..]));
    var c := Clean(p);
    assert c[1..] == Concat(names);
    if |names| == 0 {
      assert c[1..] == "";
      assert Resolve([], Split(c[1..])) == Resolve([], [""]) == Resolve([], []);
    } else {
      SplitConcat(names);
      ResolveNames([], names);
      assert Resolve([], Split(c[1..])) == names;
    }
  }

  /** A key that is a single plain segment is appended to the base. */
  lemma SimpleKeyJoin(base: string, key: string)
    requires |base| > 0 && base[0] == '/' && AllNames(Split(base[1..]))
    requires IsName(key)
    ensures Join(base, key) == base + "/" + key
  {
    var names := Split(base[1..]);
    assert (base + "/" + key)[1..] == base[1..] + "/" + key;
    SplitAppend(base[1..], key);
    SplitNoSlash(key);
    assert Split((base + "/" + key)[1..]) == names + [key];
    ResolveNames([], names + [key]);
    assert [] + (names + [key]) == names + [key];
    assert Join(base, key) == Clean(base + "/" + key);
    ConcatSnoc(names, key);
    ConcatSplit(base[1..]);
    assert base == "/" + base[1..];
    assert Join(base, key) == "/" + Concat(names + [key]);
  }

  /** Resolving two runs of segments is resolving the second run from where
      the first one left the stack. */
  lemma {:induction false} ResolveAppend(stack: seq<string>, first: seq<string>, second: seq<string>)
    requires AllNames(stack)
    requires forall i :: 0 <= i < |first| ==> '/' !in first[i]
    requires forall i :: 0 <= i < |second| ==> '/' !in second[i]
    ensures Resolve(stack, first + second) == Resolve(Resolve(stack, first), second)
    decreases |first|
  {
    if |first| > 0 {
      assert (first + second)[0] == first[0];
      assert (first + second)[1..] == first[1..] + second;
      var next := if first[0] == "" || first[0] == "." then stack
                  else if first[0] == ".." then (if |stack| == 0 then [] else stack[..|stack| - 1])
                  else stack + [first[0]];
      ResolveAppend(next, first[1..], second);
    } else {
      assert first + second == second;
    }
  }

  /** Joining an empty element or "." to a clean rooted base gives the base,
      and ".." gives its parent. */
  lemma JoinDotSegments(base: string)
    requires |base| > 0 && base[0] == '/' && AllNames(Split(base[1..]))
    ensures Join(base, "") == base
    ensures Join(base, ".") == base
    ensures Join(base, "..") == "/" + Concat(Split(base[1..])[..|Split(base[1..])| - 1])
  {
    var names := Split(base[1..]);
    ConcatSplit(base[1..]);
    assert base == "/" + base[1..];
    ResolveNames([], names);
    assert [] + names == names;
    assert Join(base, "") == "/" + Concat(names);
    JoinDot(base, ".");
    JoinDot(base, "..");
    assert Resolve(names, ["."]) == Resolve(names, []);
    assert Resolve(names, [".."]) == Resolve(names[..|names| - 1], []);
  }

  /** Joining a dot segment resolves it on top of the base's names. */
  lemma JoinDot(base: string, dots: string)
    requires |base| > 0 && base[0] == '/' && AllNames(Split(base[1..]))
    requires dots == "." || dots == ".."
    ensures Join(base, dots) == "/" + Concat(Resolve(Split(base[1..]), [dots]))
  {
    var names := Split(base[1..]);
    assert (base + "/" + dots)[1..] == base[1..] + "/" + dots;
    SplitAppend(base[1..], dots);
    SplitNoSlash(dots);
    ResolveAppend([], names, [dots]);
    ResolveNames([], names);
    assert [] + names == names;
  }
}
