/** Names, versions, paths and locks of the SBOM exporter, with every character class and
    field written out. */
module NpmRules {
  import opened Common
  import opened NpmResolver

  // ---------- Names and versions ----------

  /** A letter or a digit, by its code. */
  predicate Alphanumeric(c: char) {
    65 <= c as int <= 90 || 97 <= c as int <= 122 || 48 <= c as int <= 57
  }

  /** A name part: letters, digits and "_.~!-" anywhere, "+" after the first character,
      and not a dot or two alone. */
  lemma PartRules(s: Text)
    ensures IsPart(s) <==>
            && |s| > 0 && s != "." && s != ".."
            && (forall i | 0 <= i < |s| :: Alphanumeric(s[i]) || s[i] in {'_', '.', '~', '!', '-'} || (i > 0 && s[i] == '+'))
  {
  }

  lemma VersionRules(s: Text)
    ensures IsVersion(s) <==>
            && |s| > 0 && Alphanumeric(s[0])
            && (forall i | 0 <= i < |s| :: Alphanumeric(s[i]) || s[i] in {'.', '_', '+', '!', '-'})
  {
    assert forall c | c in "._+!-" :: c in {'.', '_', '+', '!', '-'};
    var marks := "._+!-";
    assert marks[0] in marks && marks[1] in marks && marks[2] in marks && marks[3] in marks && marks[4] in marks;
    assert forall i | 0 <= i < |s| :: s[i] in s;
  }

  /** A name is one part, or "@", a part, "/" and another. */
  lemma NameRules(a: Text, b: Text)
    requires '/' !in a && '/' !in b
    ensures IsName("@" + a + "/" + b) <==> IsPart(a) && IsPart(b)
    ensures IsName(a) <==> IsPart(a)
  {
    var scope := "@" + a;
    SplitPrefix(scope, b);
    SplitNoSlash(b);
    assert "@" + a + "/" + b == scope + "/" + b;
    assert scope[1..] == a;
    if a != [] && a[0] == '@' {
      SplitNoSlash(a);
    }
  }

  /** A name with another number of segments is none. */
  lemma OtherNames(name: Text)
    requires IsName(name) && '/' in name
    ensures name[0] == '@' && |Split(name)| == 2
  {
  }

  // ---------- Paths ----------

  /** Each package lies in the node_modules folder of the one around it. */
  lemma PathRules(pkgs: Nesting, name: Text)
    ensures Render([]) == "" && Render([name]) == "node_modules/" + name
    ensures pkgs != [] && Render(pkgs) != [] ==> Render(pkgs + [name]) == Render(pkgs) + "/node_modules/" + name
  {
    assert (pkgs + [name])[..|pkgs|] == pkgs;
  }

  // ---------- Dependencies ----------

  /** The root's development dependencies count, a package's do not; a name is required
      unless it is only a peer marked optional. */
  lemma RequirementRules(p: Package, isRoot: bool, n: Text)
    ensures n in Requirements(p, isRoot) <==> n in p.dependencies || n in p.peers || (isRoot && n in p.devDependencies)
    ensures n in Requirements(p, isRoot) ==>
              (Requirements(p, isRoot)[n] <==>
               || n in p.dependencies || (isRoot && n in p.devDependencies)
               || n !in p.peerMeta || !p.peerMeta[n])
    ensures NamesOk(p, isRoot) <==>
              && (forall m | m in p.dependencies || m in p.peers || m in p.peerMeta :: IsName(m))
              && (isRoot ==> forall m | m in p.devDependencies :: IsName(m))
  {
  }

  // ---------- Locks ----------

  /** A package's own fields: a path of names, the innermost of which is its name if it has
      one, a version, and no link. */
  lemma PackageRules(p: Package, pkgs: Nesting)
    requires pkgs != [] && (forall q | q in pkgs :: IsName(q)) && p.path == Render(pkgs)
    ensures WellNamed(p) <==> (p.name.Some? ==> p.name.value == pkgs[|pkgs| - 1]) && IsVersion(p.version) && !p.link
    ensures WellNamed(p) ==> RefOf(p) == PathRef(Sha(p.path), pkgs[|pkgs| - 1], p.version)
  {
    InnermostRules(p.path, pkgs);
  }

  lemma InnermostRules(path: Text, pkgs: Nesting)
    requires pkgs != [] && IsNesting(pkgs) && path == Render(pkgs)
    ensures InGrammar(path) && InnermostName(path) == pkgs[|pkgs| - 1]
  {
    var other: Nesting :| other != [] && IsNesting(other) && path == Render(other) && InnermostName(path) == other[|other| - 1];
    PathGrammar(path, pkgs);
    PathGrammar(path, other);
  }

  /** A version 3 lock that requires, whose name and version are the root's, over
      well-named packages from trusted sources: a secure URL with hashes, or, without
      URL and hashes, a bundle; every required name is seen from its package. */
  lemma LockRules(lock: Lock, sources: Sources)
    ensures Usable(lock, sources) <==>
            var paths := set p | p in lock.packages :: p.path;
            && lock.lockfileVersion == 3 && lock.requiresFlag
            && lock.name.Some? && lock.root.name == lock.name && IsName(lock.name.value)
            && lock.version.Some? && lock.root.version == lock.version.value && IsVersion(lock.version.value)
            && (forall p | p in lock.packages :: WellNamed(p) && FromTrustedSource(p, sources) && SeesAll(p, false, p.path, paths))
            && SeesAll(lock.root, true, "", paths)
  {
    var paths := set p | p in lock.packages :: p.path;
    PathsByMember(lock.packages);
    forall k | 0 <= k < |lock.packages| ensures lock.packages[k] in lock.packages {
    }
  }

  lemma PathsByMember(packages: seq<Package>)
    ensures PathSet(packages) == set p | p in packages :: p.path
  {
    forall path ensures path in PathSet(packages) <==> path in set p | p in packages :: p.path {
      if i :| 0 <= i < |packages| && packages[i].path == path {
        assert packages[i] in packages;
      }
    }
  }

  predicate FromTrustedSource(p: Package, sources: Sources) {
    || (p.resolved.Some? && sources.url(p.resolved.value) && p.integrity.Some? && sources.hashes(p.integrity.value))
    || (p.resolved.None? && p.integrity.None? && p.inBundle)
  }

  ghost predicate SeesAll(p: Package, isRoot: bool, path: Text, paths: set<Text>) {
    && NamesOk(p, isRoot)
    && forall n | n in Requirements(p, isRoot) && Requirements(p, isRoot)[n] :: Walk(path, n, paths).Some?
  }
}
