/**
Inspecting a tar archive before it is extracted: names, limits, and the rewriting of absolute links.

Only POSIX paths are modelled; what `tarfile` itself filters at extraction is not.
*/
module TarLinks {
  import opened Core
  import opened PosixPaths

  const MAX_NAME_BYTES: nat := 4096

  datatype Kind = Regular | OldRegular | Directory | SymLink | HardLink | Other

  datatype Member = Member(name: string, kind: Kind, size: int, link: string)

  /** `main` demands positive limits. */
  datatype Limits = Limits(members: nat, total: nat, file: nat)

  datatype Metrics = Metrics(
    members: nat, regular: nat, directories: nat, symLinks: nat, hardLinks: nat,
    symRewritten: nat, hardRewritten: nat, bytes: nat)

  // ------------------------------------------------------------------------------------ the text

  predicate IsHex(c: char) { '0' <= c <= '9' || 'a' <= c <= 'f' || 'A' <= c <= 'F' }

  predicate EscapeAt(s: string, i: nat) {
    i + 3 < |s| && s[i] == '\\' && s[i + 1] == 'x' && IsHex(s[i + 2]) && IsHex(s[i + 3])
  }

  /** `has_unsafe_backslash`: a backslash is left once all systemd escapes are taken out. */
  predicate HasUnsafeBackslash(s: string) {
    if s == [] then false
    else if EscapeAt(s, 0) then HasUnsafeBackslash(s[4..])
    else s[0] == '\\' || HasUnsafeBackslash(s[1..])
  }

  ghost predicate Escaped(s: string) { forall i: nat | i < |s| && s[i] == '\\' :: EscapeAt(s, i) }

  predicate HasControl(s: string) { exists c | c in s :: c as int < 32 || c as int == 127 }

  function Utf8Length(s: string): nat {
    if s == [] then 0 else
    var code := s[0] as int;
    (if code < 0x80 then 1 else if code < 0x800 then 2 else if code < 0x10000 then 3 else 4) + Utf8Length(s[1..])
  }

  predicate TextOk(s: string) { s != "" && !HasUnsafeBackslash(s) && Utf8Length(s) <= MAX_NAME_BYTES && !HasControl(s) }

  lemma EscapeShift(s: string, k: nat, i: nat)
    requires k <= i
    ensures k <= |s| ==> (EscapeAt(s, i) <==> EscapeAt(s[k..], i - k))
  {}

  lemma {:induction false} EscapedMeans(s: string)
    ensures HasUnsafeBackslash(s) <==> !Escaped(s)
  {
    if s != [] {
      var k := if EscapeAt(s, 0) then 4 else 1;
      EscapedMeans(s[k..]);
      if k == 1 && s[0] == '\\' {
        assert !Escaped(s);
      } else {
        forall i: nat | k <= i < |s| ensures EscapeAt(s, i) <==> EscapeAt(s[k..], i - k) {
          EscapeShift(s, k, i);
        }
        forall i: nat | i < |s[k..]| ensures s[k..][i] == s[k + i] {}
        assert Escaped(s) <==> Escaped(s[k..]) by { EscapedTail(s, k); }
      }
    }
  }

  lemma EscapedTail(s: string, k: nat)
    requires k <= |s| && forall i: nat | i < k && s[i] == '\\' :: EscapeAt(s, i)
    ensures Escaped(s) <==> Escaped(s[k..])
  {
    forall i: nat | k <= i < |s| ensures s[i] == s[k..][i - k] && (EscapeAt(s, i) <==> EscapeAt(s[k..], i - k)) {
      EscapeShift(s, k, i);
    }
    if Escaped(s) {
      forall j: nat | j < |s[k..]| && s[k..][j] == '\\' ensures EscapeAt(s[k..], j) {
        assert s[k + j] == '\\';
        EscapeShift(s, k, k + j);
      }
    }
  }

  /** No escape spans a slash. */
  lemma EscapedSlash(a: string, b: string)
    ensures Escaped(a + "/" + b) <==> Escaped(a) && Escaped(b)
  {
    var s := a + "/" + b;
    assert s[|a|] == '/' && s[|a| + 1..] == b;
    forall i: nat | i < |a| ensures EscapeAt(s, i) <==> EscapeAt(a, i) {
      if EscapeAt(s, i) {
        assert s[i + 1] != '/' && s[i + 2] != '/' && s[i + 3] != '/';
      }
    }
    if forall i: nat | i < |a| && a[i] == '\\' :: EscapeAt(a, i) {
      EscapedTail(s, |a| + 1);
    } else {
      var i: nat :| i < |a| && a[i] == '\\' && !EscapeAt(a, i);
      assert s[i] == '\\';
    }
  }

  /** A text without control characters whose backslashes all belong to escapes. */
  ghost predicate Clean(s: string) { Escaped(s) && !HasControl(s) }

  lemma CleanSlash(a: string, b: string)
    ensures Clean(a + "/" + b) <==> Clean(a) && Clean(b)
  {
    EscapedSlash(a, b);
    assert forall c :: c in a + "/" + b <==> c in a || c == '/' || c in b;
  }

  lemma {:induction false} CleanJoin(parts: seq<string>)
    requires parts != []
    ensures Clean(Join(parts)) <==> forall p | p in parts :: Clean(p)
  {
    assert parts == [parts[0]] + parts[1..];
    if |parts| > 1 {
      CleanJoin(parts[1..]);
      CleanSlash(parts[0], Join(parts[1..]));
    }
  }

  lemma CleanParts(s: string)
    requires Clean(s)
    ensures forall p | p in Parts(s) :: Clean(p)
  {
    JoinSplit(s);
    CleanJoin(Split(s));
    FilteredProper(Split(s));
  }

  // ----------------------------------------------------------------------------------- the names

  predicate IsAbsolute(path: string) { path != "" && path[0] == '/' }

  predicate NameOk(name: string) { TextOk(name) && !IsAbsolute(name) && ".." !in Parts(name) }

  function Rendered(parts: Path): string { if parts == [] then "." else Join(parts) }

  /** `normalized_name` of an acceptable name. */
  function NormalizedName(name: string): string { Rendered(Parts(name)) }

  lemma PartsRendered(parts: Path)
    requires AllProper(parts)
    ensures Parts(Rendered(parts)) == parts && !IsAbsolute(Rendered(parts)) && Rendered(parts) != ""
  {
    PartsDot();
    PartsJoin(parts);
    if parts != [] {
      JoinRelative(parts);
    }
  }

  /** An accepted name is relative and free of `..`; it has the same components as the member's name. */
  lemma NameShape(name: string)
    requires NameOk(name)
    ensures var n := NormalizedName(name);
      n != "" && !IsAbsolute(n) && ".." !in Parts(n) && Parts(n) == Parts(name) && NormalizedName(n) == n
  {
    PartsProper(name);
    PartsRendered(Parts(name));
  }

  // ----------------------------------------------------------------------------------- the links

  function DirName(name: string): Path {
    var parts := Parts(name);
    if parts == [] then [] else parts[..|parts| - 1]
  }

  /** What an absolute link means: a path below the root of the archive. */
  function RootTarget(link: string): Path { Normalize(Parts(link)) }

  function RewrittenLink(m: Member): string {
    if !IsAbsolute(m.link) || m.kind !in {SymLink, HardLink} then m.link
    else if m.kind.SymLink? then Rendered(Relative(RootTarget(m.link), DirName(m.name)))
    else Rendered(RootTarget(m.link))
  }

  function Rewritten(m: Member): Member { m.(link := RewrittenLink(m)) }

  lemma RootTargetProper(link: string)
    ensures AllProper(RootTarget(link)) && ".." !in RootTarget(link)
  {
    PartsProper(link);
  }

  lemma RelativeProper(target: Path, start: Path)
    requires AllProper(target)
    ensures AllProper(Relative(target, start))
  {
    assert forall p | p in Relative(target, start) :: p == ".." || p in target;
  }

  /** The rewritten symbolic link, followed from the member's directory, ends exactly at the normalized
      target under the archive's root, without ever climbing above it. */
  lemma SymLinkStaysRooted(m: Member)
    requires m.kind.SymLink? && IsAbsolute(m.link)
    ensures !IsAbsolute(RewrittenLink(m))
    ensures Walk(DirName(m.name), Parts(RewrittenLink(m))) == Some(RootTarget(m.link))
  {
    RootTargetProper(m.link);
    RelativeProper(RootTarget(m.link), DirName(m.name));
    PartsRendered(Relative(RootTarget(m.link), DirName(m.name)));
    RelativeLeadsThere(RootTarget(m.link), DirName(m.name));
  }

  /** So does a hard link, followed from the root. */
  lemma HardLinkStaysRooted(m: Member)
    requires m.kind.HardLink? && IsAbsolute(m.link)
    ensures !IsAbsolute(RewrittenLink(m))
    ensures Walk([], Parts(RewrittenLink(m))) == Some(RootTarget(m.link))
  {
    RootTargetProper(m.link);
    PartsRendered(RootTarget(m.link));
    WalkDown([], RootTarget(m.link));
    assert [] + RootTarget(m.link) == RootTarget(m.link);
  }

  // ------------------------------------------------------------------------------- the inspection

  predicate IsFile(m: Member) { m.kind in {Regular, OldRegular} }

  predicate IsDirectory(m: Member) { m.kind.Directory? }

  predicate IsSymLink(m: Member) { m.kind.SymLink? }

  predicate IsHardLink(m: Member) { m.kind.HardLink? }

  predicate IsRewrittenSymLink(m: Member) { IsSymLink(m) && IsAbsolute(m.link) }

  predicate IsRewrittenHardLink(m: Member) { IsHardLink(m) && IsAbsolute(m.link) }

  predicate IsLink(m: Member) { IsSymLink(m) || IsHardLink(m) }

  predicate MemberOk(m: Member, limits: Limits) {
    && NameOk(m.name) && !m.kind.Other? && 0 <= m.size <= limits.file && (IsLink(m) ==> TextOk(m.link))
  }

  predicate AllOk(ms: seq<Member>, limits: Limits) { forall m | m in ms :: MemberOk(m, limits) }

  predicate NamesDistinct(ms: seq<Member>) {
    forall i, j | 0 <= i < j < |ms| :: NormalizedName(ms[i].name) != NormalizedName(ms[j].name)
  }

  function Count(ms: seq<Member>, p: Member -> bool): nat {
    if ms == [] then 0 else Count(ms[..|ms| - 1], p) + if p(ms[|ms| - 1]) then 1 else 0
  }

  function Bytes(ms: seq<Member>): nat {
    if ms == [] then 0 else
    var m := ms[|ms| - 1];
    Bytes(ms[..|ms| - 1]) + if IsFile(m) && m.size > 0 then m.size else 0
  }

  function Measured(ms: seq<Member>): Metrics {
    Metrics(|ms|, Count(ms, IsFile), Count(ms, IsDirectory), Count(ms, IsSymLink), Count(ms, IsHardLink),
            Count(ms, IsRewrittenSymLink), Count(ms, IsRewrittenHardLink), Bytes(ms))
  }

  predicate Passes(ms: seq<Member>, limits: Limits) {
    AllOk(ms, limits) && NamesDistinct(ms) && Bytes(ms) <= limits.total
  }

  predicate Acceptable(ms: seq<Member>, limits: Limits) {
    |ms| <= limits.members && Passes(ms, limits)
  }

  function AllRewritten(ms: seq<Member>): seq<Member> { seq(|ms|, i requires 0 <= i < |ms| => Rewritten(ms[i])) }

  datatype Refusal = TooMany | BadName | Repeated | BadKind | BadSize | TooLarge | BadLink

  function Bump(n: nat, condition: bool): nat { if condition then n + 1 else n }

  /** The metrics after one more member. */
  function Counted(counts: Metrics, m: Member): Metrics {
    Metrics(counts.members + 1, Bump(counts.regular, IsFile(m)), Bump(counts.directories, IsDirectory(m)),
            Bump(counts.symLinks, IsSymLink(m)), Bump(counts.hardLinks, IsHardLink(m)),
            Bump(counts.symRewritten, IsRewrittenSymLink(m)), Bump(counts.hardRewritten, IsRewrittenHardLink(m)),
            counts.bytes + if IsFile(m) && m.size > 0 then m.size else 0)
  }

  lemma MeasuredAppend(ms: seq<Member>, m: Member)
    ensures Measured(ms + [m]) == Counted(Measured(ms), m)
  {
    assert (ms + [m])[..|ms|] == ms;
  }

  /** What one member needs to pass after members with these names and counts. */
  predicate Admits(m: Member, names: set<string>, counts: Metrics, limits: Limits) {
    MemberOk(m, limits) && NormalizedName(m.name) !in names && Counted(counts, m).bytes <= limits.total
  }

  /** The checks, counts and rewriting of one member. */
  method InspectMember(member: Member, names: set<string>, counts: Metrics, limits: Limits)
    returns (r: Result<(Member, Metrics), Refusal>)
    requires counts.bytes <= limits.total
    ensures r.Ok? <==> Admits(member, names, counts, limits)
    ensures r.Ok? ==> r.value == (Rewritten(member), Counted(counts, member))
  {
    if !NameOk(member.name) {
      return Err(BadName);
    }
    if NormalizedName(member.name) in names {
      return Err(Repeated);
    }
    if member.kind.Other? {
      return Err(BadKind);
    }
    if member.size < 0 || member.size > limits.file {
      return Err(BadSize);
    }
    var counts := counts.(members := counts.members + 1);
    if IsFile(member) {
      counts := counts.(regular := counts.regular + 1, bytes := counts.bytes + member.size);
      if counts.bytes > limits.total {
        return Err(TooLarge);
      }
    } else if IsDirectory(member) {
      counts := counts.(directories := counts.directories + 1);
    } else if IsSymLink(member) {
      counts := counts.(symLinks := counts.symLinks + 1);
    } else {
      counts := counts.(hardLinks := counts.hardLinks + 1);
    }
    var member := member;
    if IsLink(member) {
      if !TextOk(member.link) {
        return Err(BadLink);
      }
      if IsAbsolute(member.link) {
        if IsSymLink(member) {
          counts := counts.(symRewritten := counts.symRewritten + 1);
        } else {
          counts := counts.(hardRewritten := counts.hardRewritten + 1);
        }
        member := member.(link := RewrittenLink(member));
      }
    }
    return Ok((member, counts));
  }

  lemma {:induction false} BytesGrow(ms: seq<Member>, n: nat)
    requires n <= |ms|
    ensures Bytes(ms[..n]) <= Bytes(ms)
  {
    if n < |ms| {
      BytesGrow(ms[..|ms| - 1], n);
      assert ms[..|ms| - 1][..n] == ms[..n];
    } else {
      assert ms[..n] == ms;
    }
  }

  function NamesOf(ms: seq<Member>): set<string> { set m | m in ms :: NormalizedName(m.name) }

  lemma NamesExtend(ms: seq<Member>, m: Member)
    requires NamesDistinct(ms)
    ensures NamesDistinct(ms + [m]) <==> NormalizedName(m.name) !in NamesOf(ms)
    ensures NamesOf(ms + [m]) == NamesOf(ms) + {NormalizedName(m.name)}
  {
    var longer := ms + [m];
    if NormalizedName(m.name) in NamesOf(ms) {
      var i :| 0 <= i < |ms| && NormalizedName(ms[i].name) == NormalizedName(m.name);
      assert longer[i] == ms[i] && longer[|ms|] == m;
    } else {
      forall i | 0 <= i < |ms| ensures NormalizedName(ms[i].name) in NamesOf(ms) { assert ms[i] in ms; }
    }
  }

  lemma PassesPrefix(all: seq<Member>, n: nat, limits: Limits)
    requires n <= |all| && Passes(all, limits)
    ensures Passes(all[..n], limits)
  {
    BytesGrow(all, n);
  }

  /** The first `n + 1` members pass if the first `n` do and the next one is admitted. */
  lemma PassesStep(all: seq<Member>, n: nat, limits: Limits)
    requires n < |all|
    ensures Passes(all[..n], limits) ==>
      (Passes(all[..n + 1], limits) <==> Admits(all[n], NamesOf(all[..n]), Measured(all[..n]), limits))
    ensures NamesOf(all[..n + 1]) == NamesOf(all[..n]) + {NormalizedName(all[n].name)}
    ensures Measured(all[..n + 1]) == Counted(Measured(all[..n]), all[n])
  {
    var seen := all[..n];
    assert all[..n + 1] == seen + [all[n]];
    if Passes(all[..n], limits) {
      NamesExtend(seen, all[n]);
    }
    MeasuredAppend(seen, all[n]);
  }

  /** The names and metrics after all of `ms`, if each member was admitted in its turn. */
  function Inspection(ms: seq<Member>, limits: Limits): Option<(set<string>, Metrics)> {
    if ms == [] then Some(({}, Metrics(0, 0, 0, 0, 0, 0, 0, 0))) else
    var before, m := Inspection(ms[..|ms| - 1], limits), ms[|ms| - 1];
    if before.None? || !Admits(m, before.value.0, before.value.1, limits) then None
    else Some((before.value.0 + {NormalizedName(m.name)}, Counted(before.value.1, m)))
  }

  lemma {:induction false} InspectionMeans(ms: seq<Member>, limits: Limits)
    ensures Inspection(ms, limits)
            == if Passes(ms, limits) then Some((NamesOf(ms), Measured(ms))) else None
  {
    if ms == [] {
      assert NamesOf(ms) == {};
    } else {
      var n := |ms| - 1;
      InspectionMeans(ms[..n], limits);
      PassesStep(ms, n, limits);
      assert ms[..n + 1] == ms;
      if Passes(ms, limits) {
        PassesPrefix(ms, n, limits);
      }
    }
  }

  lemma InspectionStep(all: seq<Member>, n: nat, limits: Limits)
    requires n < |all| && Inspection(all[..n], limits).Some?
    ensures var (names, counts) := Inspection(all[..n], limits).value;
      Inspection(all[..n + 1], limits)
      == if Admits(all[n], names, counts, limits) then Some((names + {NormalizedName(all[n].name)}, Counted(counts, all[n])))
         else None
    ensures Acceptable(all, limits) ==> Inspection(all[..n + 1], limits).Some?
  {
    assert all[..n + 1][..n] == all[..n];
    if Acceptable(all, limits) {
      PassesPrefix(all, n + 1, limits);
      InspectionMeans(all[..n + 1], limits);
    }
  }

  /** The archive once its first `n` members were rewritten. */
  function Progressed(all: seq<Member>, n: nat): seq<Member>
    requires n <= |all|
  {
    AllRewritten(all[..n]) + all[n..]
  }

  lemma ProgressedStep(all: seq<Member>, n: nat)
    requires n < |all|
    ensures |Progressed(all, n)| == |all| && Progressed(all, n)[n] == all[n]
    ensures Progressed(all, n)[n := Rewritten(all[n])] == Progressed(all, n + 1)
  {
    assert AllRewritten(all[..n + 1]) == AllRewritten(all[..n]) + [Rewritten(all[n])];
  }

  lemma ProgressedEnds(all: seq<Member>)
    ensures Progressed(all, 0) == all && Progressed(all, |all|) == AllRewritten(all)
  {
    assert all[..|all|] == all;
  }

  /** Checks, counts and rewrites the members in one pass; accepts exactly the acceptable archives. */
  method InspectMembers(members: array<Member>, limits: Limits) returns (r: Result<Metrics, Refusal>)
    modifies members
    ensures r.Ok? <==> Acceptable(old(members[..]), limits)
    ensures r.Ok? ==> members[..] == AllRewritten(old(members[..])) && r.value == Measured(old(members[..]))
  {
    if members.Length > limits.members {
      return Err(TooMany);
    }
    ghost var all := members[..];
    ProgressedEnds(all);
    var names := {};
    var counts := Metrics(0, 0, 0, 0, 0, 0, 0, 0);
    for index := 0 to members.Length
      invariant members[..] == Progressed(all, index)
      invariant Inspection(all[..index], limits) == Some((names, counts)) && counts.bytes <= limits.total
    {
      InspectionStep(all, index, limits);
      ProgressedStep(all, index);
      assert members[index] == members[..][index];
      var inspected := InspectMember(members[index], names, counts, limits);
      if inspected.Err? {
        return Err(inspected.error);
      }
      names := names + {NormalizedName(members[index].name)};
      members[index], counts := inspected.value.0, inspected.value.1;
    }
    assert all[..members.Length] == all;
    InspectionMeans(all, limits);
    return Ok(counts);
  }

  // ---------------------------------------------------------------------------------- on acceptance

  /** Every member is counted under exactly one kind. */
  lemma {:induction false} KindsAddUp(ms: seq<Member>, limits: Limits)
    requires AllOk(ms, limits)
    ensures var c := Measured(ms); c.regular + c.directories + c.symLinks + c.hardLinks == c.members == |ms|
  {
    if ms != [] {
      KindsAddUp(ms[..|ms| - 1], limits);
      assert ms[|ms| - 1] in ms;
    }
  }

  lemma CleanRendered(parts: Path)
    requires forall p | p in parts :: Clean(p)
    ensures Clean(Rendered(parts))
  {
    if parts != [] {
      CleanJoin(parts);
    }
  }

  lemma RelativeClean(target: Path, start: Path)
    requires forall p | p in target :: Clean(p)
    ensures Clean(Rendered(Relative(target, start)))
  {
    var relative := Relative(target, start);
    forall p | p in relative ensures Clean(p) {
      if p !in target {
        assert p == "..";
      }
    }
    CleanRendered(relative);
  }

  lemma RewrittenClean(m: Member)
    requires IsLink(m) && Clean(m.link)
    ensures Clean(RewrittenLink(m))
  {
    if IsAbsolute(m.link) {
      CleanParts(m.link);
      RelativeClean(RootTarget(m.link), DirName(m.name));
      CleanRendered(RootTarget(m.link));
    }
  }

  lemma RewrittenRelative(m: Member)
    requires IsLink(m) && m.link != ""
    ensures RewrittenLink(m) != "" && !IsAbsolute(RewrittenLink(m))
  {
    if IsAbsolute(m.link) {
      RootTargetProper(m.link);
      RelativeProper(RootTarget(m.link), DirName(m.name));
      PartsRendered(Relative(RootTarget(m.link), DirName(m.name)));
      PartsRendered(RootTarget(m.link));
    }
  }

  /** The rewritten link needs no new check but that of its length. */
  lemma RewrittenText(m: Member)
    requires IsLink(m) && TextOk(m.link)
    ensures TextOk(RewrittenLink(m)) <==> Utf8Length(RewrittenLink(m)) <= MAX_NAME_BYTES
  {
    EscapedMeans(m.link);
    EscapedMeans(RewrittenLink(m));
    RewrittenClean(m);
    RewrittenRelative(m);
  }

  lemma {:induction false} CountsUnchanged(ms: seq<Member>)
    ensures var again := AllRewritten(ms);
      && Count(again, IsFile) == Count(ms, IsFile) && Count(again, IsDirectory) == Count(ms, IsDirectory)
      && Count(again, IsSymLink) == Count(ms, IsSymLink) && Count(again, IsHardLink) == Count(ms, IsHardLink)
      && Bytes(again) == Bytes(ms)
  {
    if ms != [] {
      CountsUnchanged(ms[..|ms| - 1]);
      assert AllRewritten(ms)[..|ms| - 1] == AllRewritten(ms[..|ms| - 1]);
    }
  }

  lemma {:induction false} NoneRewritten(ms: seq<Member>)
    requires forall m | m in ms :: IsLink(m) ==> !IsAbsolute(m.link)
    ensures Count(ms, IsRewrittenSymLink) == 0 && Count(ms, IsRewrittenHardLink) == 0
  {
    if ms != [] {
      NoneRewritten(ms[..|ms| - 1]);
      assert ms[|ms| - 1] in ms;
    }
  }

  /** The second pass on one member. */
  lemma SecondLook(m: Member, limits: Limits)
    requires MemberOk(m, limits)
    ensures Rewritten(Rewritten(m)) == Rewritten(m)
    ensures IsLink(m) ==> !IsAbsolute(RewrittenLink(m))
    ensures MemberOk(Rewritten(m), limits) <==> (IsLink(m) ==> Utf8Length(RewrittenLink(m)) <= MAX_NAME_BYTES)
  {
    if IsLink(m) {
      RewrittenText(m);
      RewrittenRelative(m);
    }
  }

  /** A second pass over an accepted archive rewrites nothing. It accepts the archive again exactly when
      no rewriting made a link longer than the limit, and then measures the same but for the rewritings. */
  lemma SecondPass(ms: seq<Member>, limits: Limits)
    requires Acceptable(ms, limits)
    ensures AllRewritten(AllRewritten(ms)) == AllRewritten(ms)
    ensures Acceptable(AllRewritten(ms), limits)
            <==> forall m | m in ms && IsLink(m) :: Utf8Length(RewrittenLink(m)) <= MAX_NAME_BYTES
    ensures Measured(AllRewritten(ms)) == Measured(ms).(symRewritten := 0, hardRewritten := 0)
  {
    var again := AllRewritten(ms);
    forall i | 0 <= i < |ms|
      ensures Rewritten(again[i]) == again[i] && (IsLink(again[i]) ==> !IsAbsolute(again[i].link))
      ensures MemberOk(again[i], limits) <==> (IsLink(ms[i]) ==> Utf8Length(RewrittenLink(ms[i])) <= MAX_NAME_BYTES)
    {
      assert ms[i] in ms;
      SecondLook(ms[i], limits);
    }
    CountsUnchanged(ms);
    NoneRewritten(again);
    AcceptedAgain(ms, limits);
  }

  lemma AcceptedAgain(ms: seq<Member>, limits: Limits)
    requires Acceptable(ms, limits)
    ensures Acceptable(AllRewritten(ms), limits) <==> forall i | 0 <= i < |ms| :: MemberOk(AllRewritten(ms)[i], limits)
  {
    var again := AllRewritten(ms);
    CountsUnchanged(ms);
    assert NamesDistinct(again);
    if i :| 0 <= i < |ms| && !MemberOk(again[i], limits) {
      assert again[i] in again;
    }
  }

  // ------------------------------------------------------- an archive that a second pass refuses

  lemma {:induction false} Utf8Append(a: string, b: string)
    ensures Utf8Length(a + b) == Utf8Length(a) + Utf8Length(b)
  {
    if a == "" {
      assert a + b == b;
    } else {
      Utf8Append(a[1..], b);
      assert (a + b)[1..] == a[1..] + b;
    }
  }

  lemma Utf8Slash(part: string, rest: string)
    ensures Utf8Length(part + "/" + rest) == Utf8Length(part) + 1 + Utf8Length(rest)
  {
    Utf8Append(part + "/", rest);
    Utf8Append(part, "/");
  }

  lemma {:induction false} Utf8Up(n: nat, last: string)
    ensures Utf8Length(Join(Up(n) + [last])) == 3 * n + Utf8Length(last)
  {
    if n > 0 {
      Utf8Up(n - 1, last);
      assert (Up(n) + [last])[1..] == Up(n - 1) + [last];
      Utf8Slash("..", Join(Up(n - 1) + [last]));
    }
  }

  function Deep(n: nat): Path { seq(n, i => "a") }

  lemma {:induction false} Utf8Deep(n: nat)
    requires n > 0
    ensures Utf8Length(Join(Deep(n))) == 2 * n - 1
  {
    if n > 1 {
      Utf8Deep(n - 1);
      assert Deep(n)[1..] == Deep(n - 1);
      Utf8Slash("a", Join(Deep(n - 1)));
    }
  }

  lemma DeepText(n: nat)
    requires 0 < n <= 2000
    ensures TextOk(Join(Deep(n)))
  {
    Utf8Deep(n);
    forall p | p in Deep(n) ensures Clean(p) {
      assert p == "a";
    }
    CleanJoin(Deep(n));
    EscapedMeans(Join(Deep(n)));
  }

  lemma DeepName(n: nat)
    requires n > 0
    ensures var name := Join(Deep(n));
      !IsAbsolute(name) && ".." !in Parts(name) && DirName(name) == Deep(n - 1)
  {
    assert forall p | p in Deep(n) :: p == "a";
    PartsJoin(Deep(n));
    JoinRelative(Deep(n));
    assert Deep(n)[..n - 1] == Deep(n - 1);
  }

  lemma DeepTarget(n: nat)
    ensures var link := "/b";
      && TextOk(link) && IsAbsolute(link) && Rendered(Relative(RootTarget(link), Deep(n))) == Join(Up(n) + ["b"])
  {
    EscapedMeans("/b");
    SplitPrefix("b", "");
    SplitPrefix("", "b");
    assert "" + "/" + "b" == "/b";
    assert Filtered(["", "b"]) == Filtered(["", "b"][1..]) == ["b"];
    NormalizeFixpoint(["b"]);
    if n > 0 {
      assert Deep(n)[0] == "a";
    }
    assert Relative(["b"], Deep(n)) == Up(n) + ["b"];
  }

  lemma DeepLinkLength(m: Member, n: nat)
    requires IsSymLink(m) && m.link == "/b" && DirName(m.name) == Deep(n)
    ensures TextOk(m.link) && Utf8Length(RewrittenLink(m)) == 3 * n + 1
  {
    DeepTarget(n);
    Utf8Up(n, "b");
    assert Utf8Length("b") == 1;
  }

  lemma OneMember(m: Member, limits: Limits)
    requires MemberOk(m, limits) && IsLink(m) && limits.members >= 1
    ensures Acceptable([m], limits)
    ensures Acceptable(AllRewritten([m]), limits) ==> Utf8Length(RewrittenLink(m)) <= MAX_NAME_BYTES
  {
    assert Bytes([m]) == Bytes([]);
    SecondPass([m], limits);
    assert m in [m];
  }

  /** There are archives that are accepted, and refused once they were rewritten: a link to `/b` from
      deep enough down is one. */
  lemma SecondPassMayRefuse(limits: Limits)
    requires limits.members >= 1
    ensures exists ms :: Acceptable(ms, limits) && !Acceptable(AllRewritten(ms), limits)
  {
    var n: nat :| 1366 < n <= 2000;
    var m := Member(Join(Deep(n)), SymLink, 0, "/b");
    DeepText(n);
    DeepName(n);
    DeepLinkLength(m, n - 1);
    OneMember(m, limits);
  }
}
