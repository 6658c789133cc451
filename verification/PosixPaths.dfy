/** Slash-separated paths as text and as components, in the sense of `posixpath` and `PurePosixPath`. */
module PosixPaths {
  import opened Core

  type Path = seq<string>

  // -------------------------------------------------------------------------------- text to parts

  function Split(s: string): (r: seq<string>)
    ensures r != []
  {
    if s == [] then [""]
    else if s[0] == '/' then [""] + Split(s[1..])
    else
      var rest := Split(s[1..]);
      [[s[0]] + rest[0]] + rest[1..]
  }

  function Join(parts: seq<string>): string {
    if parts == [] then "" else if |parts| == 1 then parts[0] else parts[0] + "/" + Join(parts[1..])
  }

  predicate Proper(part: string) { part != "" && part != "." && '/' !in part }

  predicate AllProper(parts: seq<string>) { forall p | p in parts :: Proper(p) }

  function Filtered(parts: seq<string>): seq<string> {
    if parts == [] then [] else
    (if parts[0] in {"", "."} then [] else [parts[0]]) + Filtered(parts[1..])
  }

  /** The components of a path: empty and `.` segments do not count. */
  function Parts(s: string): seq<string> { Filtered(Split(s)) }

  lemma {:induction false} SplitNoSlash(s: string)
    ensures forall p | p in Split(s) :: '/' !in p
  {
    if s != [] {
      SplitNoSlash(s[1..]);
    }
  }

  lemma {:induction false} JoinSplit(s: string)
    ensures Join(Split(s)) == s
  {
    if s != [] {
      JoinSplit(s[1..]);
      var rest := Split(s[1..]);
      if s[0] == '/' {
        assert ([""] + rest)[1..] == rest;
      } else {
        assert ([[s[0]] + rest[0]] + rest[1..])[1..] == rest[1..];
      }
    }
  }

  lemma {:induction false} SplitPrefix(part: string, rest: string)
    requires '/' !in part
    ensures Split(part) == [part]
    ensures Split(part + "/" + rest) == [part] + Split(rest)
  {
    if part == "" {
      assert ("/" + rest)[1..] == rest;
      assert "" + "/" + rest == "/" + rest;
    } else {
      SplitPrefix(part[1..], rest);
      assert (part + "/" + rest)[1..] == part[1..] + "/" + rest;
      assert part == [part[0]] + part[1..];
    }
  }

  lemma {:induction false} SplitJoin(parts: seq<string>)
    requires parts != [] && forall p | p in parts :: '/' !in p
    ensures Split(Join(parts)) == parts
  {
    if |parts| == 1 {
      SplitPrefix(parts[0], "");
    } else {
      SplitJoin(parts[1..]);
      SplitPrefix(parts[0], Join(parts[1..]));
    }
  }

  lemma {:induction false} FilteredProper(parts: seq<string>)
    ensures AllProper(parts) ==> Filtered(parts) == parts
    ensures forall p :: p in Filtered(parts) <==> p in parts && p != "" && p != "."
  {
    if parts != [] {
      FilteredProper(parts[1..]);
      assert parts == [parts[0]] + parts[1..];
      assert AllProper(parts) ==> Proper(parts[0]) && AllProper(parts[1..]);
    }
  }

  lemma PartsProper(s: string)
    ensures AllProper(Parts(s))
  {
    SplitNoSlash(s);
    FilteredProper(Split(s));
  }

  /** Joining proper components and taking the path apart again gives them back. */
  lemma PartsJoin(parts: seq<string>)
    requires AllProper(parts)
    ensures Parts(Join(parts)) == parts
  {
    if parts == [] {
      assert Split("") == [""] && Filtered([""]) == Filtered([""][1..]);
    } else {
      SplitJoin(parts);
      FilteredProper(parts);
    }
  }

  lemma PartsDot()
    ensures Parts(".") == []
  {
    SplitPrefix(".", "");
  }

  lemma JoinRelative(parts: seq<string>)
    requires AllProper(parts) && parts != []
    ensures Join(parts) != "" && Join(parts)[0] != '/'
  {
    assert parts[0] in parts && parts[0][0] in parts[0];
  }

  // --------------------------------------------------------------------------- lexical resolution

  /** Follows `path` from the directory `at`; `None` if it climbs above the root. */
  function Walk(at: Path, path: Path): Option<Path>
    decreases |path|
  {
    if path == [] then Some(at)
    else if path[0] == ".." then
      if at == [] then None else Walk(at[..|at| - 1], path[1..])
    else Walk(at + [path[0]], path[1..])
  }

  /** `normpath` of an absolute path: `..` at the root stays at the root. */
  function Normalize(path: Path): (r: Path)
    ensures forall p | p in r :: p in path && p != ".."
    decreases |path|
  {
    if path == [] then [] else
    var before, last := Normalize(path[..|path| - 1]), path[|path| - 1];
    assert path == path[..|path| - 1] + [last];
    if last == ".." then (if before == [] then [] else before[..|before| - 1]) else before + [last]
  }

  lemma {:induction false} NormalizeFixpoint(path: Path)
    requires ".." !in path
    ensures Normalize(path) == path
  {
    if path != [] {
      NormalizeFixpoint(path[..|path| - 1]);
      assert path == path[..|path| - 1] + [path[|path| - 1]];
    }
  }

  function CommonPrefix(a: Path, b: Path): (n: nat)
    ensures n <= |a| && n <= |b| && a[..n] == b[..n]
  {
    if a == [] || b == [] || a[0] != b[0] then 0
    else
      assert a == [a[0]] + a[1..] && b == [b[0]] + b[1..];
      1 + CommonPrefix(a[1..], b[1..])
  }

  function Up(n: nat): Path { seq(n, i => "..") }

  /** `relpath` on the components of two absolute paths. */
  function Relative(target: Path, start: Path): Path {
    var n := CommonPrefix(start, target);
    Up(|start| - n) + target[n..]
  }

  lemma {:induction false} WalkUp(at: Path, n: nat, rest: Path)
    requires n <= |at|
    ensures Walk(at, Up(n) + rest) == Walk(at[..|at| - n], rest)
  {
    if n == 0 {
      assert Up(0) + rest == rest && at[..|at|] == at;
    } else {
      assert (Up(n) + rest)[1..] == Up(n - 1) + rest;
      WalkUp(at[..|at| - 1], n - 1, rest);
      assert at[..|at| - 1][..|at| - 1 - (n - 1)] == at[..|at| - n];
    }
  }

  lemma {:induction false} WalkDown(at: Path, path: Path)
    requires ".." !in path
    ensures Walk(at, path) == Some(at + path)
    decreases |path|
  {
    if path == [] {
      assert at + [] == at;
    } else {
      assert path == [path[0]] + path[1..];
      WalkDown(at + [path[0]], path[1..]);
      assert at + [path[0]] + path[1..] == at + path;
    }
  }

  /** From `start`, the relative path leads to `target`, and nowhere above the root on the way. */
  lemma RelativeLeadsThere(target: Path, start: Path)
    requires ".." !in target
    ensures Walk(start, Relative(target, start)) == Some(target)
  {
    var n := CommonPrefix(start, target);
    WalkUp(start, |start| - n, target[n..]);
    WalkDown(start[..n], target[n..]);
    assert start[..|start| - (|start| - n)] == start[..n];
    assert target == target[..n] + target[n..];
  }

  /** `relpath` works on absolute paths, but the working directory they share does not show in the result. */
  lemma {:induction false} RelativeIgnoresCwd(cwd: Path, target: Path, start: Path)
    ensures Relative(cwd + target, cwd + start) == Relative(target, start)
  {
    CommonPrefixShift(cwd, start, target);
    var n := CommonPrefix(start, target);
    assert (cwd + target)[|cwd| + n..] == target[n..];
  }

  lemma {:induction false} CommonPrefixShift(cwd: Path, a: Path, b: Path)
    ensures CommonPrefix(cwd + a, cwd + b) == |cwd| + CommonPrefix(a, b)
  {
    if cwd == [] {
      assert cwd + a == a && cwd + b == b;
    } else {
      CommonPrefixShift(cwd[1..], a, b);
      assert (cwd + a)[1..] == cwd[1..] + a && (cwd + b)[1..] == cwd[1..] + b;
    }
  }
}
