/** npm lock paths of the SBOM exporter: the path grammar, the string walk that
    resolves a dependency, and the dependency graph it fills. */
module NpmResolver {
  import opened Common

  type Text = seq<char>

  const MARKER: Text := "/node_modules/"
  const FOLDER: Text := "node_modules"

  datatype SbomError =
    | BadLock | RootMismatch | MalformedPath | MalformedName | MalformedVersion | NameMismatch | LinkSource
    | UntrustedSource | Unresolved

  // ---------- Segments ----------

  function Split(s: Text): (parts: seq<Text>)
    ensures |parts| > 0
  {
    if s == [] then [[]]
    else
      var rest := Split(s[1..]);
      if s[0] == '/' then [[]] + rest else [[s[0]] + rest[0]] + rest[1..]
  }

  function Join(parts: seq<Text>): Text
    requires |parts| > 0
  {
    if |parts| == 1 then parts[0] else parts[0] + "/" + Join(parts[1..])
  }

  lemma {:induction false} JoinSplit(s: Text)
    ensures Join(Split(s)) == s
    ensures forall p | p in Split(s) :: '/' !in p
  {
    if s != [] {
      var rest := Split(s[1..]);
      JoinSplit(s[1..]);
      assert s == [s[0]] + s[1..];
      if s[0] == '/' {
        assert Split(s)[1..] == rest;
      } else {
        assert Split(s)[1..] == rest[1..];
        assert rest[0] in rest;
        assert forall p | p in rest[1..] :: p in rest;
      }
    }
  }

  lemma {:induction false} SplitNoSlash(p: Text)
    requires '/' !in p
    ensures Split(p) == [p]
  {
    if p != [] {
      SplitNoSlash(p[1..]);
      assert p[0] in p && p == [p[0]] + p[1..];
    }
  }

  lemma {:induction false} SplitPrefix(p: Text, s: Text)
    requires '/' !in p
    ensures Split(p + "/" + s) == [p] + Split(s)
  {
    var t := p + "/" + s;
    if p == [] {
      assert t[1..] == s;
    } else {
      SplitPrefix(p[1..], s);
      assert t[1..] == p[1..] + "/" + s;
      assert t[0] == p[0] && p[0] in p;
      assert p == [p[0]] + p[1..];
    }
  }

  lemma {:induction false} SplitJoin(parts: seq<Text>)
    requires |parts| > 0 && forall p | p in parts :: '/' !in p
    ensures Split(Join(parts)) == parts
  {
    if |parts| == 1 {
      SplitNoSlash(parts[0]);
    } else {
      SplitJoin(parts[1..]);
      SplitPrefix(parts[0], Join(parts[1..]));
    }
  }

  lemma {:induction false} JoinAppend(a: seq<Text>, b: seq<Text>)
    requires |a| > 0 && |b| > 0
    ensures Join(a + b) == Join(a) + "/" + Join(b)
  {
    if |a| == 1 {
      assert (a + b)[1..] == b;
    } else {
      JoinAppend(a[1..], b);
      assert (a + b)[1..] == a[1..] + b;
    }
  }

  // ---------- The grammar of names and paths ----------

  predicate IsStart(c: char) {
    'A' <= c <= 'Z' || 'a' <= c <= 'z' || '0' <= c <= '9'
    || c == '_' || c == '.' || c == '~' || c == '!' || c == '-'
  }

  predicate IsPart(s: Text) {
    s != [] && IsStart(s[0]) && (forall i | 1 <= i < |s| :: IsStart(s[i]) || s[i] == '+')
    && s != "." && s != ".."
  }

  predicate IsName(name: Text) {
    if name != [] && name[0] == '@' then
      var parts := Split(name);
      |parts| == 2 && IsPart(parts[0][1..]) && IsPart(parts[1])
    else IsPart(name)
  }

  /** The nesting of a lock path, outermost package first. */
  type Nesting = seq<Text>

  predicate IsNesting(pkgs: Nesting) {
    forall p | p in pkgs :: IsName(p)
  }

  function NameSegments(name: Text): seq<Text> {
    [FOLDER] + Split(name)
  }

  function Segments(pkgs: Nesting): seq<Text> {
    if pkgs == [] then [] else NameSegments(pkgs[0]) + Segments(pkgs[1..])
  }

  /** The lock path of a nesting; the root package has the empty path. */
  function Render(pkgs: Nesting): Text {
    if pkgs == [] then ""
    else if |pkgs| == 1 then Child("", pkgs[0])
    else Child(Render(pkgs[..|pkgs| - 1]), pkgs[|pkgs| - 1])
  }

  function Child(base: Text, name: Text): Text {
    if base != [] then base + MARKER + name else FOLDER + "/" + name
  }

  /** What the walk relies on: an unscoped name is one segment, a scoped one two. */
  predicate IsShaped(name: Text) {
    name != [] && (if name[0] == '@' then |Split(name)| == 2 else '/' !in name)
  }

  lemma NameShape(name: Text)
    requires IsName(name)
    ensures IsShaped(name) && '\\' !in name
  {
    if name[0] == '@' {
      var parts := Split(name);
      JoinSplit(name);
      assert Join(parts) == parts[0] + "/" + Join(parts[1..]);
      assert name == parts[0] + "/" + parts[1];
      SplitHead(name);
      assert '\\' !in parts[0] && '\\' !in parts[1];
    }
  }

  lemma SplitHead(name: Text)
    requires name != [] && name[0] != '/'
    ensures Split(name)[0] != [] && Split(name)[0][0] == name[0]
  {
  }

  lemma ScopedName(name: Text)
    requires IsShaped(name) && name[0] == '@'
    ensures var parts := Split(name);
            parts[0] != [] && parts[0][0] == '@' && name == parts[0] + "/" + parts[1]
            && '/' !in parts[0] && '/' !in parts[1]
  {
    var parts := Split(name);
    JoinSplit(name);
    SplitHead(name);
    assert parts[0] in parts && parts[1] in parts;
    assert Join(parts) == parts[0] + "/" + Join(parts[1..]);
  }

  /** The walk over segments, as a recursive function. */
  function Parse(parts: seq<Text>): Option<Nesting> {
    if parts == [] then Some([])
    else if parts[0] != FOLDER || |parts| < 2 then None
    else if parts[1] != [] && parts[1][0] == '@' then
      if |parts| < 3 then None
      else PrependName(parts[1] + "/" + parts[2], Parse(parts[3..]))
    else PrependName(parts[1], Parse(parts[2..]))
  }

  function PrependName(name: Text, rest: Option<Nesting>): Option<Nesting> {
    if rest.None? || !IsName(name) then None else Some([name] + rest.value)
  }

  /** The first name of a segment list and what follows it. */
  lemma ParsePlain(parts: seq<Text>)
    requires |parts| >= 2 && parts[0] == FOLDER && '/' !in parts[1]
    ensures parts == NameSegments(parts[1]) + parts[2..]
  {
    SplitNoSlash(parts[1]);
    assert parts == [parts[0]] + [parts[1]] + parts[2..];
  }

  lemma ParseScoped(parts: seq<Text>)
    requires |parts| >= 3 && parts[0] == FOLDER && '/' !in parts[1] && '/' !in parts[2]
    ensures parts == NameSegments(parts[1] + "/" + parts[2]) + parts[3..]
  {
    SplitPrefix(parts[1], parts[2]);
    SplitNoSlash(parts[2]);
    assert Split(parts[1] + "/" + parts[2]) == [parts[1], parts[2]];
    assert parts == [parts[0]] + [parts[1], parts[2]] + parts[3..];
  }

  /** The first name of a segment list and what follows it. */
  lemma ParseHead(parts: seq<Text>, name: Text, n: nat)
    requires 2 <= n <= 3 && n <= |parts| && parts[0] == FOLDER && forall p | p in parts :: '/' !in p
    requires if parts[1] != [] && parts[1][0] == '@' then n == 3 && name == parts[1] + "/" + parts[2]
             else n == 2 && name == parts[1]
    ensures parts == NameSegments(name) + parts[n..]
  {
    assert parts[1] in parts;
    if n == 3 {
      assert parts[2] in parts;
      ParseScoped(parts);
    } else {
      ParsePlain(parts);
    }
  }

  lemma {:induction false} ParseSound(parts: seq<Text>)
    requires Parse(parts).Some? && forall p | p in parts :: '/' !in p
    ensures IsNesting(Parse(parts).value) && Segments(Parse(parts).value) == parts
    decreases |parts|
  {
    if parts != [] {
      var scoped := parts[1] != [] && parts[1][0] == '@';
      var n := if scoped then 3 else 2;
      var name := if scoped then parts[1] + "/" + parts[2] else parts[1];
      var rest := Parse(parts[n..]);
      ParseSound(parts[n..]);
      ParseHead(parts, name, n);
      var pkgs := Parse(parts).value;
      assert pkgs == [name] + rest.value;
      assert pkgs[1..] == rest.value;
    }
  }

  lemma ParseAfterPlain(name: Text, rest: seq<Text>)
    requires !(name != [] && name[0] == '@')
    ensures Parse([FOLDER, name] + rest) == PrependName(name, Parse(rest))
  {
    var parts := [FOLDER, name] + rest;
    assert parts[0] == FOLDER && parts[1] == name && parts[2..] == rest;
  }

  lemma ParseAfterScoped(scope: Text, name: Text, rest: seq<Text>)
    requires scope != [] && scope[0] == '@'
    ensures Parse([FOLDER, scope, name] + rest) == PrependName(scope + "/" + name, Parse(rest))
  {
    var parts := [FOLDER, scope, name] + rest;
    assert parts[0] == FOLDER && parts[1] == scope && parts[2] == name && parts[3..] == rest;
  }

  lemma ParseAfterName(name: Text, rest: seq<Text>)
    requires IsName(name)
    ensures Parse(NameSegments(name) + rest) == PrependName(name, Parse(rest))
  {
    NameShape(name);
    if name[0] == '@' {
      ScopedName(name);
      var parts := Split(name);
      assert NameSegments(name) == [FOLDER, parts[0], parts[1]];
      ParseAfterScoped(parts[0], parts[1], rest);
    } else {
      SplitNoSlash(name);
      assert NameSegments(name) == [FOLDER, name];
      ParseAfterPlain(name, rest);
    }
  }

  lemma {:induction false} ParseComplete(pkgs: Nesting)
    requires IsNesting(pkgs)
    ensures Parse(Segments(pkgs)) == Some(pkgs)
  {
    if pkgs != [] {
      assert pkgs[0] in pkgs;
      ParseComplete(pkgs[1..]);
      ParseAfterName(pkgs[0], Segments(pkgs[1..]));
      assert pkgs == [pkgs[0]] + pkgs[1..];
    }
  }

  lemma Associate<T>(a: seq<T>, b: seq<T>, c: seq<T>)
    ensures a + (b + c) == a + b + c
  {
  }

  lemma {:induction false} SegmentsSnoc(pkgs: Nesting, name: Text)
    ensures Segments(pkgs + [name]) == Segments(pkgs) + NameSegments(name)
  {
    var more := pkgs + [name];
    if pkgs == [] {
      assert more[1..] == [];
    } else {
      SegmentsSnoc(pkgs[1..], name);
      assert more[0] == pkgs[0] && more[1..] == pkgs[1..] + [name];
      Associate(NameSegments(pkgs[0]), Segments(pkgs[1..]), NameSegments(name));
    }
  }

  lemma JoinName(name: Text)
    ensures Join(NameSegments(name)) == FOLDER + "/" + name
  {
    JoinSplit(name);
    JoinAppend([FOLDER], Split(name));
  }

  lemma MarkerIsFolder(base: Text, name: Text)
    ensures base + MARKER + name == base + "/" + (FOLDER + "/" + name)
  {
    assert MARKER == "/" + FOLDER + "/";
  }

  lemma RenderNotEmpty(pkgs: Nesting)
    requires pkgs != []
    ensures Render(pkgs) != []
  {
  }

  lemma {:induction false} RenderJoins(pkgs: Nesting)
    requires pkgs != []
    ensures Segments(pkgs) != [] && Join(Segments(pkgs)) == Render(pkgs)
  {
    var n := |pkgs| - 1;
    var outer, name := pkgs[..n], pkgs[n];
    assert pkgs == outer + [name];
    SegmentsSnoc(outer, name);
    JoinName(name);
    if n > 0 {
      RenderJoins(outer);
      RenderNotEmpty(outer);
      JoinAppend(Segments(outer), NameSegments(name));
      MarkerIsFolder(Render(outer), name);
    } else {
      assert Segments(outer) == [];
      assert Segments(pkgs) == NameSegments(name);
    }
  }

  lemma {:induction false} SegmentsNoSlash(pkgs: Nesting)
    ensures forall p | p in Segments(pkgs) :: '/' !in p
  {
    if pkgs != [] {
      SegmentsNoSlash(pkgs[1..]);
      JoinSplit(pkgs[0]);
    }
  }

  /** A path is read back into exactly the nesting that renders to it. */
  lemma PathGrammar(path: Text, pkgs: Nesting)
    requires pkgs != []
    ensures IsNesting(pkgs) && path == Render(pkgs) <==> Parse(Split(path)) == Some(pkgs)
  {
    JoinSplit(path);
    if IsNesting(pkgs) && path == Render(pkgs) {
      RenderJoins(pkgs);
      SegmentsNoSlash(pkgs);
      SplitJoin(Segments(pkgs));
      ParseComplete(pkgs);
    }
    if Parse(Split(path)) == Some(pkgs) {
      ParseSound(Split(path));
      RenderJoins(pkgs);
    }
  }

  /** One turn of the loop: the folder name, then a plain or a scoped name. */
  method ReadName(parts: seq<Text>, start: nat) returns (r: Result<(Text, nat), SbomError>)
    requires start < |parts|
    ensures r.Err? ==> Parse(parts[start..]).None?
    ensures r.Ok? ==>
              var (name, next) := r.value;
              && start < next <= |parts| && IsName(name)
              && Parse(parts[start..]) == PrependName(name, Parse(parts[next..]))
  {
    ParseFrom(parts, start);
    if parts[start] != FOLDER {
      return Err(MalformedPath);
    }
    var index := start + 1;
    if index >= |parts| {
      return Err(MalformedPath);
    }
    var name := parts[index];
    if name != [] && name[0] == '@' {
      if index + 1 >= |parts| {
        return Err(MalformedPath);
      }
      name := name + "/" + parts[index + 1];
      index := index + 1;
    }
    if !IsName(name) {
      return Err(MalformedPath);
    }
    return Ok((name, index + 1));
  }

  /** The loop over the segments of a path. */
  method InnermostSegment(parts: seq<Text>) returns (r: Result<Text, SbomError>)
    requires parts != []
    ensures r.Ok? <==> Parse(parts).Some?
    ensures r.Ok? ==> Parse(parts).value != [] && r.value == Parse(parts).value[|Parse(parts).value| - 1]
  {
    var index := 0;
    var lastName := "";
    ghost var seen: Nesting := [];
    assert parts[0..] == parts;
    AppendNothing(Parse(parts));
    while index < |parts|
      invariant 0 <= index <= |parts|
      invariant seen == [] <==> index == 0
      invariant seen != [] ==> lastName == seen[|seen| - 1]
      invariant Parse(parts) == Append(seen, Parse(parts[index..]))
    {
      var read := ReadName(parts, index);
      if read.Err? {
        return Err(read.error);
      }
      AppendStep(seen, read.value.0, Parse(parts[read.value.1..]));
      lastName, index := read.value.0, read.value.1;
      seen := seen + [lastName];
    }
    assert parts[index..] == [] && seen + [] == seen;
    return Ok(lastName);
  }

  /** The validating loop accepts a path iff some nesting renders to it, and then
      returns the innermost name of that (only) nesting. */
  method NpmPathName(path: Text) returns (r: Result<Text, SbomError>)
    ensures r.Ok? <==> exists pkgs: Nesting :: pkgs != [] && IsNesting(pkgs) && path == Render(pkgs)
    ensures forall pkgs: Nesting | pkgs != [] && IsNesting(pkgs) && path == Render(pkgs) ::
              r == Ok(pkgs[|pkgs| - 1])
  {
    if path == [] || path[0] == '/' || '\\' in path {
      RejectedEarly(path);
      r := Err(MalformedPath);
    } else {
      r := InnermostSegment(Split(path));
    }
    ReadBack(path);
  }

  /** The segment walk reads back the only nesting there can be. */
  lemma ReadBack(path: Text)
    ensures var whole := Parse(Split(path));
            && (whole.Some? && whole.value != [] ==> IsNesting(whole.value) && path == Render(whole.value))
            && forall pkgs: Nesting | pkgs != [] && IsNesting(pkgs) && path == Render(pkgs) :: whole == Some(pkgs)
  {
    forall pkgs: Nesting | pkgs != []
      ensures IsNesting(pkgs) && path == Render(pkgs) <==> Parse(Split(path)) == Some(pkgs)
    {
      PathGrammar(path, pkgs);
    }
  }

  /** What the walk reads at one index. */
  lemma ParseFrom(parts: seq<Text>, i: nat)
    requires i < |parts|
    ensures parts[i] != FOLDER || i + 1 >= |parts| ==> Parse(parts[i..]).None?
    ensures parts[i] == FOLDER && i + 1 < |parts| ==>
              if parts[i + 1] != [] && parts[i + 1][0] == '@' then
                if i + 2 >= |parts| then Parse(parts[i..]).None?
                else Parse(parts[i..]) == PrependName(parts[i + 1] + "/" + parts[i + 2], Parse(parts[i + 3..]))
              else Parse(parts[i..]) == PrependName(parts[i + 1], Parse(parts[i + 2..]))
  {
    var rest := parts[i..];
    assert |rest| >= 2 ==> rest[1] == parts[i + 1] && rest[2..] == parts[i + 2..];
    assert |rest| >= 3 ==> rest[2] == parts[i + 2] && rest[3..] == parts[i + 3..];
  }

  ghost function Append(seen: Nesting, rest: Option<Nesting>): Option<Nesting> {
    if rest.None? then None else Some(seen + rest.value)
  }

  lemma AppendNothing(rest: Option<Nesting>)
    ensures Append([], rest) == rest
  {
    if rest.Some? {
      assert [] + rest.value == rest.value;
    }
  }

  lemma AppendStep(seen: Nesting, name: Text, rest: Option<Nesting>)
    requires IsName(name)
    ensures Append(seen, PrependName(name, rest)) == Append(seen + [name], rest)
  {
    if rest.Some? {
      assert seen + ([name] + rest.value) == seen + [name] + rest.value;
    }
  }

  lemma RejectedEarly(path: Text)
    requires path == [] || path[0] == '/' || '\\' in path
    ensures Parse(Split(path)).None?
  {
    JoinSplit(path);
    if Parse(Split(path)).Some? {
      ParseSound(Split(path));
      var pkgs := Parse(Split(path)).value;
      RenderClean(pkgs);
      RenderJoins(pkgs);
      assert false;
    }
  }

  lemma {:induction false} RenderClean(pkgs: Nesting)
    requires IsNesting(pkgs)
    ensures pkgs != [] ==> Render(pkgs) != [] && Render(pkgs)[0] == 'n'
    ensures '\\' !in Render(pkgs)
  {
    if pkgs != [] {
      var n := |pkgs| - 1;
      RenderClean(pkgs[..n]);
      NameShape(pkgs[n]);
    }
  }

  // ---------- Cutting at the last marker ----------

  predicate OccursAt(s: Text, pat: Text, j: int) {
    0 <= j <= |s| - |pat| && s[j..j + |pat|] == pat
  }

  /** Python's rfind: the last occurrence, or -1. */
  function RFind(s: Text, pat: Text): (r: int)
    ensures r == -1 || OccursAt(s, pat, r)
    ensures forall j | OccursAt(s, pat, j) :: j <= r
  {
    if |pat| <= |s| then RFindFrom(s, pat, |s| - |pat|) else -1
  }

  function RFindFrom(s: Text, pat: Text, k: int): (r: int)
    requires -1 <= k <= |s| - |pat|
    ensures r == -1 || OccursAt(s, pat, r)
    ensures forall j | OccursAt(s, pat, j) && j <= k :: j <= r
    decreases k + 1
  {
    if k < 0 then -1 else if OccursAt(s, pat, k) then k else RFindFrom(s, pat, k - 1)
  }

  /** A marker has a slash at each end and none between. */
  lemma MarkerSlashes(s: Text, j: int)
    requires OccursAt(s, MARKER, j)
    ensures s[j] == '/' && s[j + 13] == '/' && s[j + 1] == 'n'
    ensures forall i | j < i < j + 13 :: s[i] != '/'
  {
    var w := s[j..j + 14];
    assert s[j] == w[0] && s[j + 13] == w[13] && s[j + 1] == w[1];
    forall i | j < i < j + 13 ensures s[i] != '/' {
      assert s[i] == w[i - j];
    }
  }

  lemma FolderHasNoSlash(i: nat)
    requires i < |FOLDER|
    ensures |FOLDER| == 12 && FOLDER[i] != '/'
  {
  }

  lemma ScopedSlash(name: Text, k: nat)
    requires IsShaped(name) && name[0] == '@' && k < |name|
    ensures name[k] == '/' <==> k == |Split(name)[0]|
  {
    ScopedName(name);
    var parts := Split(name);
    if k < |parts[0]| {
      assert name[k] == parts[0][k] && parts[0][k] in parts[0];
    } else if k > |parts[0]| {
      assert name[k] == parts[1][k - 1 - |parts[0]|] && parts[1][k - 1 - |parts[0]|] in parts[1];
    }
  }

  /** Slash positions of "node_modules/" followed by one name. */
  lemma TailSlashes(name: Text, i: nat)
    requires IsShaped(name) && i < |FOLDER + "/" + name| && (FOLDER + "/" + name)[i] == '/'
    ensures |FOLDER| == 12 && i >= 12
    ensures i > 12 ==> name[0] == '@' && i == 13 + |Split(name)[0]|
  {
    if i < 12 {
      FolderHasNoSlash(i);
    } else if i > 12 {
      assert name[i - 13] == '/';
      if name[0] == '@' {
        ScopedSlash(name, i - 13);
      }
    }
  }

  /** After "node_modules/" and one name no further marker starts. */
  lemma NoMarkerInside(name: Text, j: int)
    requires IsShaped(name)
    ensures !OccursAt(FOLDER + "/" + name, MARKER, j)
  {
    var s := FOLDER + "/" + name;
    assert s[13] == name[0];
    if OccursAt(s, MARKER, j) {
      MarkerSlashes(s, j);
      TailSlashes(name, j);
      TailSlashes(name, j + 13);
    }
  }

  lemma OccursInTail(base: Text, tail: Text, j: int)
    requires OccursAt(base + "/" + tail, MARKER, j) && j > |base|
    ensures OccursAt(tail, MARKER, j - |base| - 1)
  {
    var s, k := base + "/" + tail, j - |base| - 1;
    assert tail[k..k + |MARKER|] == s[j..j + |MARKER|];
  }

  lemma OccursAtEnd(base: Text, name: Text)
    ensures OccursAt(base + MARKER + name, MARKER, |base|)
    ensures (base + MARKER + name)[..|base|] == base
  {
    var s := base + MARKER + name;
    assert s[|base|..|base| + |MARKER|] == MARKER;
  }

  lemma LastMarker(base: Text, name: Text)
    requires IsShaped(name)
    ensures RFind(base + MARKER + name, MARKER) == |base|
  {
    var s := base + MARKER + name;
    var r := RFind(s, MARKER);
    OccursAtEnd(base, name);
    if r > |base| {
      MarkerIsFolder(base, name);
      OccursInTail(base, FOLDER + "/" + name, r);
      NoMarkerInside(name, r - |base| - 1);
    }
  }

  /** Cutting a lock path at its last marker drops exactly the innermost package. */
  lemma CutDropsInnermost(pkgs: Nesting)
    requires IsNesting(pkgs) && pkgs != []
    ensures |pkgs| == 1 ==> RFind(Render(pkgs), MARKER) == -1
    ensures |pkgs| > 1 ==>
              var r := RFind(Render(pkgs), MARKER);
              r > 0 && Render(pkgs)[..r] == Render(pkgs[..|pkgs| - 1])
  {
    var n := |pkgs| - 1;
    var name := pkgs[n];
    NameShape(name);
    if n == 0 {
      NoMarkerInside(name, RFind(Render(pkgs), MARKER));
    } else {
      RenderNotEmpty(pkgs[..n]);
      LastMarker(Render(pkgs[..n]), name);
      OccursAtEnd(Render(pkgs[..n]), name);
    }
  }

  // ---------- Resolving ----------

  /** The walk up the path string. */
  function Walk(base: Text, dependency: Text, paths: set<Text>): Option<Text>
    decreases |base|
  {
    var candidate := Child(base, dependency);
    if candidate in paths then Some(candidate)
    else
      var marker := RFind(base, MARKER);
      if marker >= 0 then Walk(base[..marker], dependency, paths)
      else if base != [] then Walk("", dependency, paths)
      else None
  }

  method ResolveNpmDependency(path: Text, dependency: Text, paths: set<Text>) returns (r: Option<Text>)
    ensures r == Walk(path, dependency, paths)
  {
    var base := path;
    while true
      invariant Walk(path, dependency, paths) == Walk(base, dependency, paths)
      decreases |base|
    {
      var candidate := Child(base, dependency);
      if candidate in paths {
        return Some(candidate);
      }
      var marker := RFind(base, MARKER);
      if marker >= 0 {
        base := base[..marker];
      } else if base != [] {
        base := "";
      } else {
        return None;
      }
    }
  }

  /** Where a copy of the dependency would lie in the folder of the k-th ancestor. */
  function CopyAt(pkgs: Nesting, dependency: Text, k: nat): Text
    requires k <= |pkgs|
  {
    Render(pkgs[..k] + [dependency])
  }

  /** p is the copy of the dependency seen from pkgs: the one in the nearest
      enclosing folder, counting the package's own folder first. */
  ghost predicate NearestEnclosing(pkgs: Nesting, dependency: Text, paths: set<Text>, p: Text) {
    exists k: nat | k <= |pkgs| :: NearestAt(pkgs, dependency, paths, p, k)
  }

  ghost predicate NearestAt(pkgs: Nesting, dependency: Text, paths: set<Text>, p: Text, k: nat)
    requires k <= |pkgs|
  {
    && p == CopyAt(pkgs, dependency, k)
    && p in paths
    && forall j | k < j <= |pkgs| :: CopyAt(pkgs, dependency, j) !in paths
  }

  lemma ChildRenders(pkgs: Nesting, dependency: Text)
    requires IsNesting(pkgs)
    ensures Child(Render(pkgs), dependency) == Render(pkgs + [dependency])
  {
    RenderClean(pkgs);
    assert (pkgs + [dependency])[..|pkgs|] == pkgs;
  }

  lemma CopyAtOuter(pkgs: Nesting, dependency: Text, k: nat)
    requires k < |pkgs|
    ensures CopyAt(pkgs[..|pkgs| - 1], dependency, k) == CopyAt(pkgs, dependency, k)
  {
    assert pkgs[..|pkgs| - 1][..k] == pkgs[..k];
  }

  lemma CopyAtTop(pkgs: Nesting, dependency: Text)
    ensures CopyAt(pkgs, dependency, |pkgs|) == Render(pkgs + [dependency])
  {
    assert pkgs[..|pkgs|] == pkgs;
  }

  lemma NearestAtOuter(pkgs: Nesting, dependency: Text, paths: set<Text>, p: Text, k: nat)
    requires k < |pkgs| && CopyAt(pkgs, dependency, |pkgs|) !in paths
    ensures NearestAt(pkgs, dependency, paths, p, k)
            <==> NearestAt(pkgs[..|pkgs| - 1], dependency, paths, p, k)
  {
    var outer := pkgs[..|pkgs| - 1];
    forall j: nat | j < |pkgs| ensures CopyAt(outer, dependency, j) == CopyAt(pkgs, dependency, j) {
      CopyAtOuter(pkgs, dependency, j);
    }
  }

  /** With no copy in its own folder, a package sees what its enclosing package sees. */
  lemma NearestFromOuter(pkgs: Nesting, dependency: Text, paths: set<Text>, p: Text)
    requires pkgs != [] && CopyAt(pkgs, dependency, |pkgs|) !in paths
    ensures NearestEnclosing(pkgs, dependency, paths, p)
            <==> NearestEnclosing(pkgs[..|pkgs| - 1], dependency, paths, p)
  {
    if NearestEnclosing(pkgs, dependency, paths, p) {
      var k: nat :| k <= |pkgs| && NearestAt(pkgs, dependency, paths, p, k);
      NearestAtOuter(pkgs, dependency, paths, p, k);
    }
    if NearestEnclosing(pkgs[..|pkgs| - 1], dependency, paths, p) {
      var k: nat :| k <= |pkgs| - 1 && NearestAt(pkgs[..|pkgs| - 1], dependency, paths, p, k);
      NearestAtOuter(pkgs, dependency, paths, p, k);
    }
  }

  lemma NearestHere(pkgs: Nesting, dependency: Text, paths: set<Text>, p: Text)
    requires CopyAt(pkgs, dependency, |pkgs|) in paths
    ensures NearestEnclosing(pkgs, dependency, paths, p) <==> p == CopyAt(pkgs, dependency, |pkgs|)
  {
    if NearestEnclosing(pkgs, dependency, paths, p) {
      var k: nat :| k <= |pkgs| && NearestAt(pkgs, dependency, paths, p, k);
      assert k == |pkgs|;
    }
    assert NearestAt(pkgs, dependency, paths, CopyAt(pkgs, dependency, |pkgs|), |pkgs|);
  }

  lemma WalkToOuter(pkgs: Nesting, dependency: Text, paths: set<Text>)
    requires IsNesting(pkgs) && pkgs != [] && CopyAt(pkgs, dependency, |pkgs|) !in paths
    ensures Walk(Render(pkgs), dependency, paths) == Walk(Render(pkgs[..|pkgs| - 1]), dependency, paths)
  {
    ChildRenders(pkgs, dependency);
    CopyAtTop(pkgs, dependency);
    CutDropsInnermost(pkgs);
    RenderNotEmpty(pkgs);
  }

  /** The string walk agrees with nearest-ancestor lookup on every grammatical path:
      it returns the nearest enclosing copy. */
  lemma {:induction false} WalkIsNearestEnclosing(pkgs: Nesting, dependency: Text, paths: set<Text>, p: Text)
    requires IsNesting(pkgs)
    ensures Walk(Render(pkgs), dependency, paths) == Some(p) <==> NearestEnclosing(pkgs, dependency, paths, p)
    decreases |pkgs|
  {
    ChildRenders(pkgs, dependency);
    CopyAtTop(pkgs, dependency);
    if CopyAt(pkgs, dependency, |pkgs|) in paths {
      NearestHere(pkgs, dependency, paths, p);
    } else if pkgs != [] {
      WalkToOuter(pkgs, dependency, paths);
      NearestFromOuter(pkgs, dependency, paths, p);
      WalkIsNearestEnclosing(pkgs[..|pkgs| - 1], dependency, paths, p);
    }
  }

  /** None exactly when no enclosing folder, down to the root's, has a copy. */
  lemma {:induction false} WalkFindsNone(pkgs: Nesting, dependency: Text, paths: set<Text>)
    requires IsNesting(pkgs)
    ensures Walk(Render(pkgs), dependency, paths).None?
            <==> forall k: nat | k <= |pkgs| :: CopyAt(pkgs, dependency, k) !in paths
    decreases |pkgs|
  {
    ChildRenders(pkgs, dependency);
    CopyAtTop(pkgs, dependency);
    if CopyAt(pkgs, dependency, |pkgs|) in paths {
      assert Walk(Render(pkgs), dependency, paths).Some?;
    } else if pkgs == [] {
      assert Render(pkgs) == "";
      assert Walk("", dependency, paths).None?;
    } else {
      WalkToOuter(pkgs, dependency, paths);
      var outer := pkgs[..|pkgs| - 1];
      WalkFindsNone(outer, dependency, paths);
      forall j: nat | j < |pkgs|
        ensures CopyAt(pkgs, dependency, j) in paths <==> CopyAt(outer, dependency, j) in paths
      {
        CopyAtOuter(pkgs, dependency, j);
      }
      assert forall j: nat | j < |pkgs| && CopyAt(outer, dependency, j) in paths :: CopyAt(pkgs, dependency, j) in paths;
    }
  }

  // ---------- The dependency graph ----------

  /** A locked package.  dependencies holds the optional ones too; peerMeta says which
      peers are marked optional. */
  datatype Package = Package(path: Text, name: Option<Text>, version: Text, link: bool, inBundle: bool,
                             resolved: Option<Text>, integrity: Option<Text>, dependencies: seq<Text>,
                             devDependencies: seq<Text>, peers: seq<Text>, peerMeta: map<Text, bool>)

  datatype Lock = Lock(lockfileVersion: int, requiresFlag: bool, name: Option<Text>, version: Option<Text>,
                       root: Package, packages: seq<Package>)

  /** Which texts are secure URLs and which are canonical integrity hashes. */
  datatype Sources = Sources(url: Text -> bool, hashes: Text -> bool)

  predicate IsVersion(v: Text) {
    && v != [] && IsAlphanumeric(v[0])
    && forall c | c in v :: IsAlphanumeric(c) || c in "._+!-"
  }

  predicate IsAlphanumeric(c: char) {
    'a' <= c <= 'z' || 'A' <= c <= 'Z' || '0' <= c <= '9'
  }

  /** Downloaded packages come from a secure URL with hashes, the others in a bundle. */
  predicate Trusted(p: Package, sources: Sources) {
    if p.resolved.None? then p.inBundle && p.integrity.None?
    else sources.url(p.resolved.value) && p.integrity.Some? && sources.hashes(p.integrity.value)
  }

  // ---------- Dependency names ----------

  function DirectNames(p: Package, isRoot: bool): seq<Text> {
    p.dependencies + if isRoot then p.devDependencies else []
  }

  predicate NamesOk(p: Package, isRoot: bool) {
    && (forall n | n in DirectNames(p, isRoot) :: IsName(n))
    && (forall n | n in p.peerMeta :: IsName(n))
    && forall n | n in p.peers :: IsName(n)
  }

  predicate IsOptionalPeer(p: Package, name: Text) {
    name in p.peerMeta && p.peerMeta[name]
  }

  /** Every dependency with whether it must be found: all but optional peers that are
      nothing else. */
  function Requirements(p: Package, isRoot: bool): map<Text, bool> {
    map n | n in Elements(DirectNames(p, isRoot)) + Elements(p.peers) ::
      n in DirectNames(p, isRoot) || !IsOptionalPeer(p, n)
  }

  method CheckNames(names: seq<Text>) returns (ok: bool)
    ensures ok <==> forall n | n in names :: IsName(n)
  {
    for i := 0 to |names|
      invariant forall k | 0 <= k < i :: IsName(names[k])
    {
      if !IsName(names[i]) {
        assert names[i] in names;
        return false;
      }
    }
    return true;
  }

  /** The dictionary after the direct names and some of the peers. */
  ghost predicate Merged(p: Package, direct: seq<Text>, peers: seq<Text>, m: map<Text, bool>) {
    && (forall n :: n in m <==> n in direct || n in peers)
    && forall n | n in m :: m[n] <==> n in direct || !IsOptionalPeer(p, n)
  }

  method AddDirect(p: Package, direct: seq<Text>) returns (m: map<Text, bool>)
    ensures Merged(p, direct, [], m)
  {
    m := map[];
    for i := 0 to |direct|
      invariant Merged(p, direct[..i], [], m)
    {
      assert direct[..i + 1] == direct[..i] + [direct[i]];
      m := m[direct[i] := true];
    }
    assert direct[..|direct|] == direct;
  }

  lemma MergedStep(p: Package, direct: seq<Text>, peers: seq<Text>, m: map<Text, bool>, n: Text)
    requires Merged(p, direct, peers, m)
    ensures Merged(p, direct, peers + [n], m[n := (n in m && m[n]) || !IsOptionalPeer(p, n)])
  {
  }

  method AddPeers(p: Package, direct: seq<Text>, start: map<Text, bool>) returns (m: map<Text, bool>)
    requires Merged(p, direct, [], start)
    ensures Merged(p, direct, p.peers, m)
  {
    m := start;
    for i := 0 to |p.peers|
      invariant Merged(p, direct, p.peers[..i], m)
    {
      var n := p.peers[i];
      assert p.peers[..i + 1] == p.peers[..i] + [n];
      MergedStep(p, direct, p.peers[..i], m, n);
      m := m[n := (n in m && m[n]) || !IsOptionalPeer(p, n)];
    }
    assert p.peers[..|p.peers|] == p.peers;
  }

  method DependencyNames(p: Package, isRoot: bool) returns (r: Result<map<Text, bool>, SbomError>)
    ensures r.Ok? <==> NamesOk(p, isRoot)
    ensures r.Ok? ==> r.value == Requirements(p, isRoot)
  {
    var direct := DirectNames(p, isRoot);
    var directOk := CheckNames(direct);
    if !directOk {
      return Err(MalformedName);
    }
    var m := AddDirect(p, direct);
    var peersOk := CheckNames(p.peers);
    if !peersOk || exists n | n in p.peerMeta :: !IsName(n) {
      return Err(MalformedName);
    }
    m := AddPeers(p, direct, m);
    assert m.Keys == Requirements(p, isRoot).Keys;
    return Ok(m);
  }

  /** Component identities: the root's package URL, or the path digest with one. */
  datatype Ref = RootRef(name: Text, version: Text) | PathRef(path: Sha<Text>, name: Text, version: Text)

  type Graph = map<Ref, set<Ref>>

  function PathSet(packages: seq<Package>): set<Text> {
    set i | 0 <= i < |packages| :: packages[i].path
  }

  /** A required dependency that no enclosing folder provides is an error. */
  predicate Resolvable(path: Text, names: map<Text, bool>, paths: set<Text>) {
    forall n | n in names && names[n] :: Walk(path, n, paths).Some?
  }

  /** The identities of the copies that a package sees; an optional one may be absent. */
  function Targets(path: Text, names: set<Text>, refs: map<Text, Ref>): set<Ref> {
    set n | n in names && Walk(path, n, refs.Keys).Some? && Walk(path, n, refs.Keys).value in refs
      :: refs[Walk(path, n, refs.Keys).value]
  }

  lemma {:induction false} WalkStaysInside(base: Text, dependency: Text, paths: set<Text>)
    ensures Walk(base, dependency, paths).Some? ==> Walk(base, dependency, paths).value in paths
    decreases |base|
  {
    if Child(base, dependency) !in paths {
      var marker := RFind(base, MARKER);
      if marker >= 0 {
        WalkStaysInside(base[..marker], dependency, paths);
      } else if base != [] {
        WalkStaysInside("", dependency, paths);
      }
    }
  }

  lemma TargetsGrow(path: Text, names: set<Text>, n: Text, refs: map<Text, Ref>)
    ensures var w := Walk(path, n, refs.Keys);
            Targets(path, names + {n}, refs) == Targets(path, names, refs) + if w.Some? && w.value in refs then {refs[w.value]} else {}
  {
  }

  /** Resolves the names in whatever order they come. */
  method ResolveAll(path: Text, names: map<Text, bool>, refs: map<Text, Ref>)
    returns (r: Result<set<Ref>, SbomError>)
    ensures r.Ok? <==> Resolvable(path, names, refs.Keys)
    ensures r.Ok? ==> r.value == Targets(path, names.Keys, refs)
  {
    var found: set<Ref> := {};
    var rest := names.Keys;
    while rest != {}
      invariant rest <= names.Keys
      invariant forall n | n in names && n !in rest && names[n] :: Walk(path, n, refs.Keys).Some?
      invariant found == Targets(path, names.Keys - rest, refs)
      decreases |rest|
    {
      var n :| n in rest;
      var resolved := ResolveNpmDependency(path, n, refs.Keys);
      WalkStaysInside(path, n, refs.Keys);
      TargetsGrow(path, names.Keys - rest, n, refs);
      assert names.Keys - (rest - {n}) == names.Keys - rest + {n};
      if resolved.None? {
        if names[n] {
          return Err(Unresolved);
        }
      } else {
        found := found + {refs[resolved.value]};
      }
      rest := rest - {n};
    }
    assert names.Keys - rest == names.Keys;
    return Ok(found);
  }

  ghost predicate InGrammar(path: Text) {
    exists pkgs: Nesting :: pkgs != [] && IsNesting(pkgs) && path == Render(pkgs)
  }

  ghost function InnermostName(path: Text): Text
    requires InGrammar(path)
  {
    var pkgs: Nesting :| pkgs != [] && IsNesting(pkgs) && path == Render(pkgs);
    pkgs[|pkgs| - 1]
  }

  /** Path, name and version are in order, and the package is no link. */
  ghost predicate WellNamed(p: Package) {
    && InGrammar(p.path) && (p.name.Some? ==> p.name.value == InnermostName(p.path))
    && IsVersion(p.version) && !p.link
  }

  ghost function RefOf(p: Package): Ref
    requires InGrammar(p.path)
  {
    PathRef(Sha(p.path), InnermostName(p.path), p.version)
  }

  /** The lock is usable: header and root agree, paths are in the grammar with names that
      agree, sources are trusted, and a copy is in sight for every required dependency of
      the root and of each package. */
  ghost predicate Usable(lock: Lock, sources: Sources) {
    && HeaderOk(lock)
    && (forall p | p in lock.packages :: WellNamed(p))
    && DependenciesOk(lock.root, true, PathSet(lock.packages))
    && AllInOrder(lock.packages, PathSet(lock.packages), sources, |lock.packages|)
  }

  predicate HeaderOk(lock: Lock) {
    && lock.lockfileVersion == 3 && lock.requiresFlag
    && lock.root.name.Some? && IsName(lock.root.name.value) && IsVersion(lock.root.version)
    && lock.name == lock.root.name && lock.version == Some(lock.root.version)
  }

  predicate DependenciesOk(p: Package, isRoot: bool, paths: set<Text>) {
    NamesOk(p, isRoot) && Resolvable(if isRoot then "" else p.path, Requirements(p, isRoot), paths)
  }

  predicate AllInOrder(packages: seq<Package>, paths: set<Text>, sources: Sources, n: nat)
    requires n <= |packages|
  {
    forall k | 0 <= k < n :: Trusted(packages[k], sources) && DependenciesOk(packages[k], false, paths)
  }

  predicate DistinctPaths(packages: seq<Package>) {
    forall i, j | 0 <= i < j < |packages| :: packages[i].path != packages[j].path
  }

  ghost predicate Listed(packages: seq<Package>, refs: map<Text, Ref>) {
    && refs.Keys == PathSet(packages)
    && forall p | p in packages :: WellNamed(p) && refs[p.path] == RefOf(p)
  }

  lemma ListedStep(packages: seq<Package>, refs: map<Text, Ref>, i: nat)
    requires DistinctPaths(packages) && i < |packages| && Listed(packages[..i], refs) && WellNamed(packages[i])
    ensures Listed(packages[..i + 1], refs[packages[i].path := RefOf(packages[i])])
  {
    PathSetSnoc(packages, i);
    assert packages[..i + 1] == packages[..i] + [packages[i]];
    forall p | p in packages[..i] ensures p.path != packages[i].path {
      var k :| 0 <= k < i && packages[k] == p;
    }
  }

  /** The first pass: one identity for each path. */
  method ListComponents(packages: seq<Package>) returns (r: Result<map<Text, Ref>, SbomError>)
    requires DistinctPaths(packages)
    ensures r.Ok? <==> forall p | p in packages :: WellNamed(p)
    ensures r.Ok? ==> Listed(packages, r.value)
  {
    var refs: map<Text, Ref> := map[];
    for i := 0 to |packages|
      invariant Listed(packages[..i], refs)
    {
      var p := packages[i];
      assert p in packages;
      var name := NpmPathName(p.path);
      if name.Err? {
        return Err(MalformedPath);
      }
      if p.name.Some? && p.name.value != name.value {
        return Err(NameMismatch);
      }
      if !IsVersion(p.version) {
        return Err(MalformedVersion);
      }
      if p.link {
        return Err(LinkSource);
      }
      ListedStep(packages, refs, i);
      refs := refs[p.path := PathRef(Sha(p.path), name.value, p.version)];
    }
    assert packages[..|packages|] == packages;
    return Ok(refs);
  }

  /** The package's edges are the copies it sees. */
  ghost predicate EdgesOf(p: Package, refs: map<Text, Ref>, graph: Graph) {
    p.path in refs && refs[p.path] in graph && graph[refs[p.path]] == Targets(p.path, Requirements(p, false).Keys, refs)
  }

  ghost function RefsBefore(packages: seq<Package>, refs: map<Text, Ref>, n: nat): set<Ref>
    requires n <= |packages| && forall p | p in packages :: p.path in refs
  {
    set k | 0 <= k < n :: refs[packages[k].path]
  }

  /** The graph of the root and the first n packages. */
  ghost predicate Filled(rootRef: Ref, root: Package, packages: seq<Package>, refs: map<Text, Ref>, graph: Graph, n: nat)
    requires n <= |packages| && forall p | p in packages :: p.path in refs
  {
    && graph.Keys == {rootRef} + RefsBefore(packages, refs, n)
    && graph[rootRef] == Targets("", Requirements(root, true).Keys, refs)
    && forall k | 0 <= k < n :: EdgesOf(packages[k], refs, graph)
  }

  /** Every package has an identity of its own. */
  ghost predicate OwnRefs(packages: seq<Package>, refs: map<Text, Ref>) {
    && (forall p | p in packages :: p.path in refs && refs[p.path].PathRef?)
    && forall i, j | 0 <= i < j < |packages| :: refs[packages[i].path] != refs[packages[j].path]
  }

  lemma ListedMeansOwnRefs(packages: seq<Package>, refs: map<Text, Ref>)
    requires DistinctPaths(packages) && Listed(packages, refs)
    ensures OwnRefs(packages, refs)
  {
    forall i | 0 <= i < |packages| ensures packages[i].path in refs && refs[packages[i].path] == RefOf(packages[i]) {
      assert packages[i] in packages;
      assert packages[i].path in PathSet(packages);
    }
    forall p | p in packages ensures p.path in refs && refs[p.path].PathRef? {
      var i :| 0 <= i < |packages| && packages[i] == p;
    }
  }

  lemma EdgesStay(p: Package, refs: map<Text, Ref>, graph: Graph, other: Ref, targets: set<Ref>)
    requires EdgesOf(p, refs, graph) && refs[p.path] != other
    ensures EdgesOf(p, refs, graph[other := targets])
  {
  }

  lemma RefsBeforeSnoc(packages: seq<Package>, refs: map<Text, Ref>, i: nat)
    requires i < |packages| && forall p | p in packages :: p.path in refs
    ensures RefsBefore(packages, refs, i + 1) == RefsBefore(packages, refs, i) + {refs[packages[i].path]}
  {
  }

  lemma FilledStep(rootRef: Ref, root: Package, packages: seq<Package>, refs: map<Text, Ref>, graph: Graph, i: nat,
                   targets: set<Ref>)
    requires OwnRefs(packages, refs) && i < |packages| && rootRef.RootRef?
    requires Filled(rootRef, root, packages, refs, graph, i)
    requires targets == Targets(packages[i].path, Requirements(packages[i], false).Keys, refs)
    ensures Filled(rootRef, root, packages, refs, graph[refs[packages[i].path] := targets], i + 1)
  {
    assert packages[i] in packages;
    var ref := refs[packages[i].path];
    RefsBeforeSnoc(packages, refs, i);
    forall k | 0 <= k < i ensures EdgesOf(packages[k], refs, graph[ref := targets]) {
      EdgesStay(packages[k], refs, graph, ref, targets);
    }
    assert EdgesOf(packages[i], refs, graph[ref := targets]);
  }

  /** The names of one package's dependencies, resolved. */
  method ResolvePackage(p: Package, isRoot: bool, refs: map<Text, Ref>) returns (r: Result<set<Ref>, SbomError>)
    ensures r.Ok? <==> DependenciesOk(p, isRoot, refs.Keys)
    ensures r.Ok? ==> r.value == Targets(if isRoot then "" else p.path, Requirements(p, isRoot).Keys, refs)
  {
    var names := DependencyNames(p, isRoot);
    if names.Err? {
      return Err(names.error);
    }
    r := ResolveAll(if isRoot then "" else p.path, names.value, refs);
  }

  /** The second pass: the identities that the root and each package depend on. */
  method FillGraph(root: Package, rootRef: Ref, packages: seq<Package>, refs: map<Text, Ref>, sources: Sources)
    returns (r: Result<Graph, SbomError>)
    requires OwnRefs(packages, refs) && rootRef.RootRef?
    ensures r.Ok? <==> DependenciesOk(root, true, refs.Keys) && AllInOrder(packages, refs.Keys, sources, |packages|)
    ensures r.Ok? ==> Filled(rootRef, root, packages, refs, r.value, |packages|)
  {
    var rootTargets := ResolvePackage(root, true, refs);
    if rootTargets.Err? {
      return Err(rootTargets.error);
    }
    var graph: Graph := map[rootRef := rootTargets.value];
    for i := 0 to |packages|
      invariant AllInOrder(packages, refs.Keys, sources, i) && Filled(rootRef, root, packages, refs, graph, i)
    {
      var p := packages[i];
      assert p in packages;
      if !Trusted(p, sources) {
        return Err(UntrustedSource);
      }
      var targets := ResolvePackage(p, false, refs);
      if targets.Err? {
        return Err(targets.error);
      }
      FilledStep(rootRef, root, packages, refs, graph, i, targets.value);
      graph := graph[refs[p.path] := targets.value];
    }
    return Ok(graph);
  }

  /** A lock is accepted iff it is usable; then every dependency edge names a listed
      component, the copy in the nearest enclosing folder. */
  method NpmComponents(lock: Lock, sources: Sources) returns (r: Result<(Ref, map<Text, Ref>, Graph), SbomError>)
    requires DistinctPaths(lock.packages)
    ensures r.Ok? <==> Usable(lock, sources)
    ensures r.Ok? ==>
              var (rootRef, refs, graph) := r.value;
              && lock.name.Some? && rootRef == RootRef(lock.name.value, lock.root.version)
              && Listed(lock.packages, refs)
              && (forall p | p in lock.packages :: p.path in refs)
              && Filled(rootRef, lock.root, lock.packages, refs, graph, |lock.packages|)
              && Closed(graph, {rootRef} + refs.Values)
  {
    if lock.lockfileVersion != 3 || !lock.requiresFlag {
      return Err(BadLock);
    }
    var root := lock.root;
    if root.name.None? || !IsName(root.name.value) || !IsVersion(root.version) || lock.name != root.name
       || lock.version != Some(root.version) {
      return Err(RootMismatch);
    }
    var rootRef := RootRef(root.name.value, root.version);
    var refs := ListComponents(lock.packages);
    if refs.Err? {
      return Err(refs.error);
    }
    ListedMeansOwnRefs(lock.packages, refs.value);
    var graph := FillGraph(root, rootRef, lock.packages, refs.value, sources);
    if graph.Err? {
      return Err(graph.error);
    }
    GraphIsClosed(root, lock.packages, rootRef, refs.value, graph.value);
    return Ok((rootRef, refs.value, graph.value));
  }

  lemma PathSetSnoc(packages: seq<Package>, i: nat)
    requires i < |packages|
    requires forall i, j | 0 <= i < j < |packages| :: packages[i].path != packages[j].path
    ensures PathSet(packages[..i + 1]) == PathSet(packages[..i]) + {packages[i].path}
    ensures packages[i].path !in PathSet(packages[..i])
    ensures forall p | p in packages[..i] :: p.path != packages[i].path
  {
    assert packages[..i + 1] == packages[..i] + [packages[i]];
    var a, b := packages[..i + 1], packages[..i];
    assert forall k | 0 <= k < i :: a[k] == b[k];
    assert a[i] == packages[i];
  }

  lemma RefsAreValues(packages: seq<Package>, refs: map<Text, Ref>)
    requires refs.Keys == PathSet(packages)
    ensures refs.Values == set p | p in packages :: refs[p.path]
  {
    forall v | v in refs.Values ensures v in (set p | p in packages :: refs[p.path]) {
      var path :| path in refs && refs[path] == v;
      var i :| 0 <= i < |packages| && packages[i].path == path;
      assert packages[i] in packages;
    }
  }

  /** The closure checks of the merged document: the graph covers exactly the
      listed components and no edge leaves them. */
  predicate Closed(graph: Graph, components: set<Ref>) {
    graph.Keys == components && forall c | c in graph :: graph[c] <= components
  }

  lemma TargetsListed(path: Text, names: set<Text>, refs: map<Text, Ref>)
    ensures Targets(path, names, refs) <= refs.Values
  {
  }

  /** The two closure errors of build_sbom are unreachable for the npm half. */
  lemma GraphIsClosed(root: Package, packages: seq<Package>, rootRef: Ref, refs: map<Text, Ref>, graph: Graph)
    requires refs.Keys == PathSet(packages) && forall p | p in packages :: p.path in refs
    requires Filled(rootRef, root, packages, refs, graph, |packages|)
    ensures Closed(graph, {rootRef} + refs.Values)
  {
    RefsAreValues(packages, refs);
    forall c | c in graph ensures graph[c] <= {rootRef} + refs.Values {
      if c == rootRef {
        TargetsListed("", Requirements(root, true).Keys, refs);
      } else {
        var p :| p in packages && refs[p.path] == c;
        TargetsListed(p.path, Requirements(p, false).Keys, refs);
      }
    }
  }
}
