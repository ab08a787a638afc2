/**
 Finding the application directory of a repository: the pruned walk that
 collects candidates, and the choice among them.
 */
module Discovery {
  import opened Wrappers
  import opened Text
  import opened Paths
  import opened Detect

  type Path = seq<string>

  const MAX_DEPTH: nat := 2

  const IGNORED_DIRS: seq<string> :=
    ["node_modules", ".git", "dist", "build", ".next", ".cache", "__pycache__", "vendor", ".vercel", "target"]

  predicate Skipped(name: string) { "." <= name || name in IGNORED_DIRS }

  /** Hidden names and those of installed or built files are not searched. */
  lemma SkippedExactly(name: string)
    ensures Skipped(name) <==>
              (name != "" && name[0] == '.')
              || name in {"node_modules", "dist", "build", "__pycache__", "vendor", "target"}
  {
    if name != "" && name[0] == '.' {
      assert name == "." + name[1..];
    }
  }

  // ---------- Trees ----------

  /** Names as a file system has them: distinct in a directory, not empty, without slashes. */
  predicate Proper(entries: seq<Entry>) {
    && (forall i | 0 <= i < |entries| :: SlashFree(entries[i].name) && entries[i].name != "" && ProperNode(entries[i].node))
    && (forall i, j | 0 <= i < j < |entries| :: entries[i].name != entries[j].name)
  }

  predicate ProperNode(node: Node) { node.Folder? ==> Proper(node.entries) }

  function Find(node: Node, path: Path): Option<Node>
    decreases path
  {
    if path == [] then Some(node)
    else if node.File? then None
    else match Lookup(node.entries, path[0])
      case Some(child) => Find(child, path[1..])
      case None => None
  }

  predicate Readable(node: Node) { node.Folder? && node.readable }

  predicate ReachedBy(root: Node, path: Path) { Find(root, path).Some? && Readable(Find(root, path).value) }

  /**
   A candidate at most depth levels down: a directory with a manifest, reached
   through readable directories without manifests and without skipped names.
   */
  ghost predicate Candidate(root: Node, path: Path, depth: nat) {
    && 0 < |path| <= depth
    && (forall i | 0 <= i < |path| :: !Skipped(path[i]))
    && Find(root, path).Some? && Find(root, path).value.Folder? && Manifest(Find(root, path).value)
    && (forall k | 0 <= k < |path| :: ReachedBy(root, path[..k]))
    && (forall k | 0 < k < |path| :: !Manifest(Find(root, path[..k]).value))
  }

  /** No candidate lies inside another. */
  lemma CandidatesAreApart(root: Node, p: Path, q: Path, depth: nat)
    requires Candidate(root, q, depth) && p < q
    ensures !Candidate(root, p, depth)
  {
    hide Manifest, Skipped, Find;
    assert q[..|p|] == p;
  }

  // ---------- The walk ----------

  function Below(name: string, paths: seq<Path>): (r: seq<Path>)
    ensures |r| == |paths| && forall i | 0 <= i < |r| :: r[i] == [name] + paths[i]
  {
    seq(|paths|, i requires 0 <= i < |paths| => [name] + paths[i])
  }

  /** What the walk finds in these entries when it may go depth levels down, in its order. */
  function Found(entries: seq<Entry>, depth: nat): seq<Path>
    decreases entries
  {
    if entries == [] then []
    else
      var shorter, last := entries[..|entries| - 1], entries[|entries| - 1];
      Found(shorter, depth) + FoundAt(last.name, last.node, depth)
  }

  function FoundAt(name: string, node: Node, depth: nat): seq<Path>
    decreases node
  {
    if node.File? || Skipped(name) || depth == 0 then []
    else if Manifest(node) then [[name]]
    else if node.readable then Below(name, Found(node.entries, depth - 1))
    else []
  }

  function Strings(at: Path, paths: seq<Path>): (r: seq<string>)
    ensures |r| == |paths| && forall i | 0 <= i < |r| :: r[i] == Joined(at + paths[i])
  {
    seq(|paths|, i requires 0 <= i < |paths| => Joined(at + paths[i]))
  }

  lemma StringsConcat(at: Path, a: seq<Path>, b: seq<Path>)
    ensures Strings(at, a + b) == Strings(at, a) + Strings(at, b)
  {}

  lemma StringsBelow(at: Path, name: string, paths: seq<Path>)
    ensures Strings(at, Below(name, paths)) == Strings(at + [name], paths)
  {
    forall i | 0 <= i < |paths| ensures Strings(at, Below(name, paths))[i] == Strings(at + [name], paths)[i] {
      assert at + ([name] + paths[i]) == at + [name] + paths[i];
    }
  }

  lemma NothingFound(at: Path, depth: nat)
    ensures Strings(at, Found([], depth)) == []
  {}

  lemma FoundMore(entries: seq<Entry>, n: nat, depth: nat)
    requires n < |entries|
    ensures Found(entries[..n + 1], depth) == Found(entries[..n], depth) + FoundAt(entries[n].name, entries[n].node, depth)
  {
    hide FoundAt;
    assert entries[..n + 1][..n] == entries[..n];
  }

  class AppDiscovery {
    var candidates: seq<string>

    constructor ()
      ensures candidates == []
    {
      candidates := [];
    }

    /** Visits the entries of the directory at this path. */
    method WalkDir(entries: seq<Entry>, at: Path, depth: nat)
      modifies this
      ensures candidates == old(candidates) + Strings(at, Found(entries, depth))
      decreases entries, 1
    {
      hide Manifest, Skipped, Found, FoundAt, Strings;
      NothingFound(at, depth);
      var n := 0;
      while n < |entries|
        invariant 0 <= n <= |entries|
        invariant candidates == old(candidates) + Strings(at, Found(entries[..n], depth))
      {
        VisitEntry(entries[n].name, entries[n].node, at, depth);
        FoundMore(entries, n, depth);
        StringsConcat(at, Found(entries[..n], depth), FoundAt(entries[n].name, entries[n].node, depth));
        n := n + 1;
      }
      assert entries[..n] == entries;
    }

    /** The callback of the walk and, unless it prunes, the directory below. */
    method VisitEntry(name: string, node: Node, at: Path, depth: nat)
      modifies this
      ensures candidates == old(candidates) + Strings(at, FoundAt(name, node, depth))
      decreases node, 0
    {
      hide Manifest, Skipped;
      if node.File? {
        return;
      }
      if Skipped(name) {
        return;
      }
      if depth == 0 {
        return;
      }
      var found := HasRootManifest(node);
      if found {
        candidates := candidates + [Joined(at + [name])];
        return;
      }
      if node.readable {
        WalkDir(node.entries, at + [name], depth - 1);
        StringsBelow(at, name, Found(node.entries, depth - 1));
      }
    }
  }

  // ---------- What the walk finds ----------

  lemma FindBelow(root: Node, name: string, node: Node, q: Path)
    requires root.Folder? && Lookup(root.entries, name) == Some(node)
    ensures Find(root, [name] + q) == Find(node, q)
  {
    assert ([name] + q)[1..] == q;
  }

  /** A candidate seen from the directory one level up. */
  lemma CandidateStep(root: Node, name: string, node: Node, q: Path, depth: nat)
    requires root.Folder? && root.readable && Lookup(root.entries, name) == Some(node)
    ensures Candidate(root, [name] + q, depth) <==>
              && depth > 0 && !Skipped(name) && node.Folder?
              && if q == [] then Manifest(node) else node.readable && !Manifest(node) && Candidate(node, q, depth - 1)
  {
    hide Manifest, Skipped, Find;
    var p := [name] + q;
    FindBelow(root, name, node, q);
    assert Find(root, []) == Some(root) by { FindNothing(root); }
    assert Find(node, []) == Some(node) by { FindNothing(node); }
    assert p[..0] == [] && q[..0] == [];
    forall k | 0 < k <= |q| + 1 ensures Find(root, p[..k]) == Find(node, q[..k - 1]) {
      assert p[..k] == [name] + q[..k - 1];
      FindBelow(root, name, node, q[..k - 1]);
    }
    assert Shifted(root, name, node, q);
    assert p[..|p|] == p && q[..|q|] == q;
    if q != [] {
      if Candidate(root, p, depth) {
        StepDown(root, name, node, q, depth);
      } else if depth > 0 && !Skipped(name) && Readable(node) && !Manifest(node) && Candidate(node, q, depth - 1) {
        StepUp(root, name, node, q, depth);
      }
    } else {
      assert p[0] == name && |p| == 1 && Find(root, p) == Find(node, p[..0]);
      assert ReachedBy(root, p[..0]);
      assert Candidate(root, p, depth) ==> !Skipped(p[0]);
    }
  }

  lemma FindNothing(node: Node)
    ensures Find(node, []) == Some(node)
  {}

  // Each prefix of [name] + q leads from the root where q's leads from the node.
  ghost predicate Shifted(root: Node, name: string, node: Node, q: Path) {
    && Find(root, []) == Some(root) && Find(node, []) == Some(node)
    && forall k | 0 < k <= |q| + 1 :: Find(root, ([name] + q)[..k]) == Find(node, q[..k - 1])
  }

  lemma StepDown(root: Node, name: string, node: Node, q: Path, depth: nat)
    requires q != [] && Shifted(root, name, node, q) && Candidate(root, [name] + q, depth)
    ensures depth > 0 && !Skipped(name) && Readable(node) && !Manifest(node) && Candidate(node, q, depth - 1)
  {
    hide Manifest, Skipped, Find;
    var p := [name] + q;
    assert p[..1][..1] == p[..1] && q[..0] == [] && p[..|p|] == p && q[..|q|] == q;
    assert ReachedBy(root, p[..1]) && Find(root, p[..1]) == Find(node, q[..0]);
    assert p[0] == name && !Skipped(p[0]);
    assert Find(root, p[..|p|]) == Find(node, q[..|p| - 1]);
    forall i | 0 <= i < |q| ensures !Skipped(q[i]) {
      assert p[i + 1] == q[i];
    }
    forall k | 0 <= k < |q| ensures ReachedBy(node, q[..k]) && (k > 0 ==> !Manifest(Find(node, q[..k]).value)) {
      assert ReachedBy(root, p[..k + 1]) && Find(root, p[..k + 1]) == Find(node, q[..k + 1 - 1]);
      assert !Manifest(Find(root, p[..k + 1]).value);
    }
    assert !Manifest(Find(root, p[..1]).value);
  }

  lemma StepUp(root: Node, name: string, node: Node, q: Path, depth: nat)
    requires q != [] && Readable(root) && Shifted(root, name, node, q)
    requires depth > 0 && !Skipped(name) && Readable(node) && !Manifest(node) && Candidate(node, q, depth - 1)
    ensures Candidate(root, [name] + q, depth)
  {
    hide Manifest, Skipped, Find;
    var p := [name] + q;
    assert p[..0] == [] && q[..0] == [] && p[..|p|] == p && q[..|q|] == q;
    assert Find(root, p[..|p|]) == Find(node, q[..|p| - 1]);
    forall k | 0 < k < |p| ensures ReachedBy(root, p[..k]) && !Manifest(Find(root, p[..k]).value) {
      assert Find(root, p[..k]) == Find(node, q[..k - 1]);
      assert k > 1 ==> ReachedBy(node, q[..k - 1]) && !Manifest(Find(node, q[..k - 1]).value);
      assert k == 1 ==> q[..k - 1] == [];
    }
    forall i | 0 <= i < |p| ensures !Skipped(p[i]) {
      assert i > 0 ==> p[i] == q[i - 1];
    }
  }

  lemma {:induction false} LookupAppended(entries: seq<Entry>, last: Entry, name: string)
    ensures Lookup(entries + [last], name) ==
              if Lookup(entries, name).Some? then Lookup(entries, name) else if last.name == name then Some(last.node) else None
    ensures Lookup(entries, name).Some? ==> exists i | 0 <= i < |entries| :: entries[i].name == name
  {
    if entries == [] {
      assert entries + [last] == [last];
      assert [last][1..] == [];
    } else {
      LookupAppended(entries[1..], last, name);
      assert (entries + [last])[1..] == entries[1..] + [last];
      if Lookup(entries[1..], name).Some? {
        var i :| 0 <= i < |entries[1..]| && entries[1..][i].name == name;
        assert entries[i + 1].name == name;
      }
    }
  }

  function Dir(entries: seq<Entry>): Node { Folder(entries, true) }

  /** A name that is found alike in two directories makes the same candidates of both. */
  lemma SameCandidates(a: Node, b: Node, p: Path, depth: nat)
    requires Readable(a) && Readable(b) && p != [] && Lookup(a.entries, p[0]) == Lookup(b.entries, p[0])
    ensures Candidate(a, p, depth) <==> Candidate(b, p, depth)
  {
    hide Manifest, Skipped;
    assert p == [p[0]] + p[1..];
    if Lookup(a.entries, p[0]).Some? {
      CandidateStep(a, p[0], Lookup(a.entries, p[0]).value, p[1..], depth);
      CandidateStep(b, p[0], Lookup(b.entries, p[0]).value, p[1..], depth);
    } else {
      assert Find(a, p) == None && Find(b, p) == None;
    }
  }

  /** The walk finds exactly the candidates. */
  lemma {:induction false} FoundExactly(entries: seq<Entry>, depth: nat, p: Path)
    requires Proper(entries)
    ensures p in Found(entries, depth) <==> Candidate(Dir(entries), p, depth)
    decreases entries, 1
  {
    hide Manifest, Skipped, Candidate;
    if p == [] {
      NoEmptyPath(entries, depth);
    } else if entries == [] {
      NothingToFind(p, depth);
    } else {
      var shorter, last := entries[..|entries| - 1], entries[|entries| - 1];
      assert entries == shorter + [last] && Proper(shorter);
      LookupAppended(shorter, last, p[0]);
      FoundExactly(shorter, depth, p);
      if p[0] != last.name {
        SameCandidates(Dir(entries), Dir(shorter), p, depth);
        FoundAtName(last.name, last.node, depth);
      } else {
        assert Lookup(shorter, p[0]) == None;
        NotIn(shorter, p, depth);
        FoundAtExactly(entries, last.name, last.node, depth, p[1..]);
        assert p == [last.name] + p[1..];
      }
    }
  }

  lemma NotIn(entries: seq<Entry>, p: Path, depth: nat)
    requires p != [] && Lookup(entries, p[0]) == None
    ensures !Candidate(Dir(entries), p, depth)
  {
    hide Manifest, Skipped;
    assert Find(Dir(entries), p) == None;
  }

  lemma NothingToFind(p: Path, depth: nat)
    requires p != []
    ensures Found([], depth) == [] && !Candidate(Dir([]), p, depth)
  {
    NotIn([], p, depth);
  }

  lemma FoundAtName(name: string, node: Node, depth: nat)
    ensures forall p | p in FoundAt(name, node, depth) :: p != [] && p[0] == name
  {
    hide Manifest, Skipped, Found;
  }

  lemma {:induction false} NoEmptyPath(entries: seq<Entry>, depth: nat)
    ensures [] !in Found(entries, depth) && !Candidate(Dir(entries), [], depth)
  {
    if entries != [] {
      NoEmptyPath(entries[..|entries| - 1], depth);
      FoundAtName(entries[|entries| - 1].name, entries[|entries| - 1].node, depth);
    }
  }

  lemma {:induction false} FoundAtExactly(entries: seq<Entry>, name: string, node: Node, depth: nat, q: Path)
    requires Lookup(entries, name) == Some(node) && ProperNode(node)
    ensures [name] + q in FoundAt(name, node, depth) <==> Candidate(Dir(entries), [name] + q, depth)
    decreases node, 0
  {
    hide Manifest, Skipped, Candidate;
    CandidateStep(Dir(entries), name, node, q, depth);
    if node.Folder? && !Skipped(name) && depth > 0 && !Manifest(node) && node.readable {
      FoundExactly(node.entries, depth - 1, q);
      assert Dir(node.entries) == node;
      InBelow(name, Found(node.entries, depth - 1), q);
      NoEmptyPath(node.entries, depth - 1);
    } else if node.Folder? && !Skipped(name) && depth > 0 && Manifest(node) {
      assert q != [] ==> [name] + q != [name] by { if q != [] { assert |[name] + q| > 1; } }
      assert q == [] ==> [name] + q == [name];
    }
  }

  lemma InBelow(name: string, paths: seq<Path>, q: Path)
    ensures [name] + q in Below(name, paths) <==> q in paths
  {
    if [name] + q in Below(name, paths) {
      var i :| 0 <= i < |paths| && Below(name, paths)[i] == [name] + q;
      assert ([name] + paths[i])[1..] == paths[i] && ([name] + q)[1..] == q;
    }
    if q in paths {
      var i :| 0 <= i < |paths| && paths[i] == q;
      assert Below(name, paths)[i] == [name] + q;
    }
  }

  // ---------- Each candidate once ----------

  predicate Distinct<T(==)>(s: seq<T>) { forall i, j | 0 <= i < j < |s| :: s[i] != s[j] }

  lemma {:induction false} FoundNames(entries: seq<Entry>, depth: nat)
    ensures forall p | p in Found(entries, depth) :: p != [] && exists i | 0 <= i < |entries| :: entries[i].name == p[0]
  {
    hide FoundAt;
    if entries != [] {
      var shorter, last := entries[..|entries| - 1], entries[|entries| - 1];
      FoundNames(shorter, depth);
      FoundAtName(last.name, last.node, depth);
      forall p | p in Found(entries, depth) ensures p != [] && exists i | 0 <= i < |entries| :: entries[i].name == p[0] {
        if p in Found(shorter, depth) {
          var i :| 0 <= i < |shorter| && shorter[i].name == p[0];
          assert entries[i].name == p[0];
        } else {
          assert p in FoundAt(last.name, last.node, depth);
          assert entries[|entries| - 1].name == p[0];
        }
      }
    }
  }

  lemma {:induction false} FoundDistinct(entries: seq<Entry>, depth: nat)
    requires Proper(entries)
    ensures Distinct(Found(entries, depth))
    decreases entries, 1
  {
    hide FoundAt;
    if entries != [] {
      var shorter, last := entries[..|entries| - 1], entries[|entries| - 1];
      FoundDistinct(shorter, depth);
      FoundAtDistinct(last.name, last.node, depth);
      FoundNames(shorter, depth);
      FoundAtName(last.name, last.node, depth);
      var a, b := Found(shorter, depth), FoundAt(last.name, last.node, depth);
      forall i, j | 0 <= i < |a| && 0 <= j < |b| ensures a[i] != b[j] {
        assert a[i] in a && b[j] in b;
        var k :| 0 <= k < |shorter| && shorter[k].name == a[i][0];
        assert entries[k].name != entries[|entries| - 1].name;
      }
    }
  }

  lemma {:induction false} FoundAtDistinct(name: string, node: Node, depth: nat)
    requires ProperNode(node)
    ensures Distinct(FoundAt(name, node, depth))
    decreases node, 0
  {
    hide Manifest, Skipped;
    if node.Folder? && depth > 0 {
      FoundDistinct(node.entries, depth - 1);
      var paths := Found(node.entries, depth - 1);
      var below := Below(name, paths);
      forall i, j | 0 <= i < j < |below| ensures below[i] != below[j] {
        assert below[i][1..] == paths[i] && below[j][1..] == paths[j];
      }
    }
  }

  lemma {:induction false} LookupProper(entries: seq<Entry>, name: string)
    requires Proper(entries) && Lookup(entries, name).Some?
    ensures SlashFree(name) && name != "" && ProperNode(Lookup(entries, name).value)
  {
    if entries[0].name != name {
      assert Proper(entries[1..]);
      LookupProper(entries[1..], name);
    }
  }

  lemma {:induction false} FindProper(node: Node, p: Path)
    requires ProperNode(node) && Find(node, p).Some?
    ensures forall c | c in p :: SlashFree(c) && c != ""
    decreases p
  {
    if p != [] {
      LookupProper(node.entries, p[0]);
      FindProper(Lookup(node.entries, p[0]).value, p[1..]);
      assert p == [p[0]] + p[1..];
    }
  }

  /** The components of a candidate are plain names. */
  lemma CandidateNames(root: Node, p: Path, depth: nat)
    requires ProperNode(root) && Candidate(root, p, depth)
    ensures forall c | c in p :: Name(c)
  {
    hide Manifest, Find;
    FindProper(root, p);
    forall c | c in p ensures Name(c) {
      var i :| 0 <= i < |p| && p[i] == c;
      assert !Skipped(p[i]);
      assert c == "." || c == UP ==> "." <= c;
    }
  }

  // ---------- sort.Strings ----------

  predicate Less(a: string, b: string) {
    b != "" && (a == "" || a[0] < b[0] || (a[0] == b[0] && Less(a[1..], b[1..])))
  }

  /** The order of sort.Strings: the first character that differs decides, and a beginning comes before what it begins. */
  lemma {:induction false} LessExactly(a: string, b: string)
    ensures Less(a, b) <==> exists k | 0 <= k <= |a| && k < |b| :: a[..k] == b[..k] && (k == |a| || a[k] < b[k])
  {
    if a != "" && b != "" && a[0] == b[0] {
      LessExactly(a[1..], b[1..]);
      if k :| 0 <= k <= |a[1..]| && k < |b[1..]| && a[1..][..k] == b[1..][..k] && (k == |a[1..]| || a[1..][k] < b[1..][k]) {
        assert a[..k + 1] == [a[0]] + a[1..][..k] && b[..k + 1] == [b[0]] + b[1..][..k];
      }
      if k :| 0 <= k <= |a| && k < |b| && a[..k] == b[..k] && (k == |a| || a[k] < b[k]) {
        assert k > 0;
        assert a[1..][..k - 1] == a[..k][1..] && b[1..][..k - 1] == b[..k][1..];
      }
    } else if b != "" && (a == "" || a[0] < b[0]) {
      assert a[..0] == b[..0];
    } else if a != "" && b != "" {
      forall k | 0 < k <= |a| && k < |b| ensures a[..k] != b[..k] {
        assert a[..k][0] == a[0] != b[0] == b[..k][0];
      }
    }
  }

  predicate Ascending(ss: seq<string>) { forall i, j | 0 <= i < j < |ss| :: Less(ss[i], ss[j]) }

  lemma {:induction false} LessIsTotal(a: string, b: string)
    ensures a == b || Less(a, b) || Less(b, a)
  {
    if a != "" && b != "" && a[0] == b[0] {
      LessIsTotal(a[1..], b[1..]);
      assert a == [a[0]] + a[1..] && b == [b[0]] + b[1..];
    }
  }

  lemma {:induction false} LessIsTransitive(a: string, b: string, c: string)
    requires Less(a, b) && Less(b, c)
    ensures Less(a, c)
  {
    if a != "" && a[0] == b[0] == c[0] {
      LessIsTransitive(a[1..], b[1..], c[1..]);
    }
  }

  function Insert(s: string, ss: seq<string>): (r: seq<string>)
    ensures multiset(r) == multiset(ss) + multiset{s}
  {
    if ss == [] then [s]
    else
      assert ss == [ss[0]] + ss[1..];
      if Less(s, ss[0]) then [s] + ss else [ss[0]] + Insert(s, ss[1..])
  }

  function Sort(ss: seq<string>): (r: seq<string>)
    ensures multiset(r) == multiset(ss)
  {
    if ss == [] then []
    else
      assert ss == ss[..|ss| - 1] + [ss[|ss| - 1]];
      Insert(ss[|ss| - 1], Sort(ss[..|ss| - 1]))
  }

  lemma {:induction false} InsertKeepsAscending(s: string, ss: seq<string>)
    requires Ascending(ss) && s !in ss
    ensures Ascending(Insert(s, ss))
  {
    if ss != [] {
      var first, rest := ss[0], ss[1..];
      if Less(s, first) {
        forall i | 0 < i < |ss| ensures Less(s, ss[i]) {
          LessIsTransitive(s, first, ss[i]);
        }
      } else {
        LessIsTotal(s, first);
        InsertKeepsAscending(s, rest);
        var after := Insert(s, rest);
        forall i | 0 <= i < |after| ensures Less(first, after[i]) {
          assert after[i] in multiset(after);
          assert after[i] == s || after[i] in rest;
        }
      }
    }
  }

  lemma {:induction false} SortAscends(ss: seq<string>)
    requires Distinct(ss)
    ensures Ascending(Sort(ss))
  {
    hide Insert;
    if ss != [] {
      var shorter, last := ss[..|ss| - 1], ss[|ss| - 1];
      SortAscends(shorter);
      assert last !in shorter;
      SortKeepsElements(shorter);
      InsertKeepsAscending(last, Sort(shorter));
    }
  }

  lemma SortKeepsElements(ss: seq<string>)
    ensures |Sort(ss)| == |ss| && forall s :: s in Sort(ss) <==> s in ss
  {
    assert |multiset(Sort(ss))| == |multiset(ss)|;
    forall s ensures s in Sort(ss) <==> s in ss {
      assert s in multiset(Sort(ss)) <==> s in multiset(ss);
    }
  }

  // ---------- discoverAppCandidates ----------

  lemma PathsOfRoot(root: Node, depth: nat)
    requires ProperNode(root) && Readable(root)
    ensures var paths := Found(root.entries, depth);
            && Distinct(paths)
            && (forall p :: p in paths <==> Candidate(root, p, depth))
            && (forall p | p in paths :: p != [] && forall c | c in p :: Name(c))
  {
    hide Candidate, Found, Name;
    FoundDistinct(root.entries, depth);
    assert Dir(root.entries) == root;
    forall p ensures p in Found(root.entries, depth) <==> Candidate(root, p, depth) {
      FoundExactly(root.entries, depth, p);
    }
    forall p | Candidate(root, p, depth) ensures p != [] && forall c | c in p :: Name(c) {
      CandidateNames(root, p, depth);
      NoEmptyPath(root.entries, depth);
    }
  }

  lemma UnreadableRoot(root: Node, p: Path, depth: nat)
    requires !Readable(root)
    ensures !Candidate(root, p, depth)
  {
    hide Manifest, Skipped;
    if p != [] {
      assert p[..0] == [];
      assert ReachedBy(root, p[..0]) ==> Readable(root);
    }
  }

  lemma StringsOfPaths(paths: seq<Path>)
    requires Distinct(paths) && forall p | p in paths :: p != [] && forall c | c in p :: Name(c)
    ensures Distinct(Strings([], paths))
    ensures forall s :: s in Strings([], paths) <==> exists p :: p in paths && s == Joined(p)
  {
    var ss := Strings([], paths);
    forall i | 0 <= i < |paths| ensures ss[i] == Joined(paths[i]) {
      assert [] + paths[i] == paths[i];
    }
    forall i, j | 0 <= i < j < |paths| ensures ss[i] != ss[j] {
      assert paths[i] in paths && paths[j] in paths;
      if ss[i] == ss[j] {
        JoinedDiffers(paths[i], paths[j]);
      }
    }
    forall s ensures s in ss <==> exists p :: p in paths && s == Joined(p) {
      if s in ss {
        var i :| 0 <= i < |ss| && ss[i] == s;
        assert paths[i] in paths && s == Joined(paths[i]);
      }
      if p :| p in paths && s == Joined(p) {
        var i :| 0 <= i < |paths| && paths[i] == p;
        assert ss[i] == s;
      }
    }
  }

  /** In ascending order and without repetition: exactly the candidates. */
  method DiscoverAppCandidates(root: Node, depth: nat) returns (result: seq<string>)
    requires ProperNode(root)
    ensures Ascending(result)
    ensures forall s :: s in result <==> exists p :: Candidate(root, p, depth) && s == Joined(p)
    ensures Readable(root) ==> |result| == |Found(root.entries, depth)|
  {
    hide Found, Candidate, Joined, Less, Sort;
    var discovery := new AppDiscovery();
    if root.Folder? && root.readable {
      discovery.WalkDir(root.entries, [], depth);
      PathsOfRoot(root, depth);
      StringsOfPaths(Found(root.entries, depth));
      assert discovery.candidates == Strings([], Found(root.entries, depth));
    } else {
      forall p ensures !Candidate(root, p, depth) {
        UnreadableRoot(root, p, depth);
      }
    }
    SortAscends(discovery.candidates);
    SortKeepsElements(discovery.candidates);
    result := Sort(discovery.candidates);
  }

  // ---------- ResolveAppDir and detectFramework ----------

  datatype AppDirError = BadPath(error: PathError) | NotExist | NotAccessible | NotADirectory | Ambiguous

  /** Where the application is when the working directory is not given. */
  ghost predicate Nested(root: Node, p: Path) { !Manifest(root) && Candidate(root, p, MAX_DEPTH) }

  /** Nothing deeper than two levels is taken for the application. */
  lemma NestedIsNear(root: Node, p: Path)
    requires Nested(root, p)
    ensures 1 <= |p| <= 2
  {
    hide Manifest, Skipped, Find;
  }

  ghost predicate IsAmbiguous(root: Node) { exists p, q :: p != q && Nested(root, p) && Nested(root, q) }

  // A relative path by itself, and joined to a base.
  lemma JoinedPath(repoPath: string, p: Path)
    requires p != [] && forall c | c in p :: Name(c)
    ensures Components(Joined(p)) == p && Components(Join(repoPath, Joined(p))) == Components(repoPath) + p && Split(Joined(p)) == p
  {
    assert NormalForm(p, false) by {
      assert forall i | 0 <= i < |p| :: p[i] in p;
    }
    BuiltComponents(p, false);
    SplitJoined(p);
    FirstCharacter(p);
    assert SlashFree(p[0]) && p[0] != "" by { assert p[0] in p; }
    assert Clean(Joined(p)) == Joined(p);
    JoinAppends(repoPath, Joined(p));
  }

  lemma CandidateStrings(root: Node, result: seq<string>)
    requires ProperNode(root) && Ascending(result)
    requires forall s :: s in result <==> exists p :: Candidate(root, p, MAX_DEPTH) && s == Joined(p)
    ensures |result| == 0 <==> forall p :: !Candidate(root, p, MAX_DEPTH)
    ensures |result| > 1 <==> exists p, q :: p != q && Candidate(root, p, MAX_DEPTH) && Candidate(root, q, MAX_DEPTH)
    ensures |result| == 1 ==> forall p | Candidate(root, p, MAX_DEPTH) :: Joined(p) == result[0]
  {
    hide Candidate, Less, Joined;
    forall p | Candidate(root, p, MAX_DEPTH) ensures Joined(p) in result {}
    if |result| > 1 {
      assert result[0] in result && result[1] in result;
      var p :| Candidate(root, p, MAX_DEPTH) && result[0] == Joined(p);
      var q :| Candidate(root, q, MAX_DEPTH) && result[1] == Joined(q);
      LessIsIrreflexive(result[0]);
      assert p != q;
    }
    if p, q :| p != q && Candidate(root, p, MAX_DEPTH) && Candidate(root, q, MAX_DEPTH) {
      CandidateNames(root, p, MAX_DEPTH);
      CandidateNames(root, q, MAX_DEPTH);
      CandidateIsNotEmpty(root, p);
      CandidateIsNotEmpty(root, q);
      if Joined(p) == Joined(q) {
        JoinedDiffers(p, q);
      }
    }
    if |result| > 0 {
      assert result[0] in result;
    }
  }

  lemma CandidateIsNotEmpty(root: Node, p: Path)
    requires Candidate(root, p, MAX_DEPTH)
    ensures p != []
  {
    hide Manifest, Find, Skipped;
  }

  lemma {:induction false} LessIsIrreflexive(s: string)
    ensures !Less(s, s)
  {
    if s != "" {
      LessIsIrreflexive(s[1..]);
    }
  }

  /** The explicit case: the path checks, then what is there. */
  method ResolveExplicit(repoPath: string, root: Node, workingDir: string, accessible: bool) returns (r: Result<string, AppDirError>)
    requires workingDir != "" && workingDir != "."
    ensures Explicit(repoPath, root, workingDir, accessible, r)
  {
    hide AppPath, GoesAbove, Reached, Find;
    PathChecksExactly(repoPath, workingDir);
    NoStepsFrom(workingDir);
    var path := AppPath(repoPath, workingDir);
    if path.Err? {
      return Err(BadPath(path.error));
    }
    if !accessible {
      return Err(NotAccessible);
    }
    match Find(root, Components(workingDir)) {
      case None => r := Err(NotExist);
      case Some(File(_)) => r := Err(NotADirectory);
      case Some(Folder(_, _)) => r := Ok(path.value);
    }
  }

  /**
   What an explicit working directory leads to: nothing when it is absolute or
   goes above the repository, and else what its components lead to, step by step.
   */
  ghost predicate Explicit(repoPath: string, root: Node, w: string, accessible: bool, r: Result<string, AppDirError>)
    requires w != ""
  {
    var steps := Split(w);
    var there := Find(root, Reached([], steps));
    if w[0] == '/' || w[0] == '\\' then r == Err(BadPath(Absolute))
    else if GoesAbove(steps) then r == Err(BadPath(EscapesRoot))
    else if !accessible then r == Err(NotAccessible)
    else if there.None? then r == Err(NotExist)
    else if there.value.File? then r == Err(NotADirectory)
    else r.Ok? && Components(r.value) == Reached(Components(repoPath), steps) && Rooted(r.value) == Rooted(repoPath)
  }

  lemma NoStepsFrom(w: string)
    ensures !Rooted(w) && !Climbs(Components(w)) ==> Reached([], Split(w)) == Components(w)
  {
    if !Rooted(w) && !Climbs(Components(w)) {
      FirstCheck(w);
      NormLeadsThere([], Split(w), false);
      NamesAreReached([], Components(w));
    }
  }

  /**
   Without a working directory: the root if it has a manifest, else the only
   candidate, else the root again; with several candidates it refuses.
   */
  method ResolveAppDir(repoPath: string, root: Node, workingDir: string, accessible: bool) returns (r: Result<string, AppDirError>)
    requires ProperNode(root)
    ensures var w := TrimSpace(workingDir);
            w == "" || w == "." ==>
              && (if IsAmbiguous(root) then r == Err(Ambiguous) else r.Ok?)
              && (r.Ok? ==> forall p | Nested(root, p) :: Components(r.value) == Components(repoPath) + p)
              && (r.Ok? && (forall p :: !Nested(root, p)) ==> r.value == repoPath)
    ensures var w := TrimSpace(workingDir);
            w != "" && w != "." ==> Explicit(repoPath, root, w, accessible, r)
  {
    var w := TrimSpace(workingDir);
    hide TrimSpace, Manifest, Candidate, Joined, Less, Join, Components, Explicit;
    if w != "" && w != "." {
      r := ResolveExplicit(repoPath, root, w, accessible);
      return;
    }
    var manifest := HasRootManifest(root);
    if manifest {
      return Ok(repoPath);
    }
    var candidates := DiscoverAppCandidates(root, MAX_DEPTH);
    CandidateStrings(root, candidates);
    if |candidates| > 1 {
      ghost var p, q :| p != q && Candidate(root, p, MAX_DEPTH) && Candidate(root, q, MAX_DEPTH);
      assert Nested(root, p) && Nested(root, q);
      return Err(Ambiguous);
    }
    if |candidates| == 1 {
      forall p | Candidate(root, p, MAX_DEPTH)
        ensures Components(Join(repoPath, candidates[0])) == Components(repoPath) + p
      {
        CandidateNames(root, p, MAX_DEPTH);
        CandidateIsNotEmpty(root, p);
        JoinedPath(repoPath, p);
      }
      assert candidates[0] in candidates;
      ghost var p :| Candidate(root, p, MAX_DEPTH) && candidates[0] == Joined(p);
      assert Nested(root, p);
      return Ok(Join(repoPath, candidates[0]));
    }
    r := Ok(repoPath);
  }

  datatype FrameworkResult = Framework(detection: Detection) | AmbiguousRoot

  /** Detection falls back to the only nested candidate, and never looks further. */
  method DetectFramework(dir: Node) returns (r: FrameworkResult)
    requires ProperNode(dir)
    ensures DetectionAtRoot(dir) != NoFramework ==> r == Framework(DetectionAtRoot(dir))
    ensures DetectionAtRoot(dir) == NoFramework ==>
              && (r == AmbiguousRoot <==>
                    exists p, q :: p != q && Candidate(dir, p, MAX_DEPTH) && Candidate(dir, q, MAX_DEPTH))
              && (r != AmbiguousRoot ==>
                    && (forall p | Candidate(dir, p, MAX_DEPTH) ::
                          Find(dir, p).Some? && r == Framework(DetectionAtRoot(Find(dir, p).value)))
                    && ((forall p :: !Candidate(dir, p, MAX_DEPTH)) ==> r == Framework(NoFramework)))
  {
    hide DetectionAtRoot, Candidate, Joined, Less, Find;
    var d := DetectFrameworkAtRoot(dir);
    if d != NoFramework {
      return Framework(d);
    }
    var candidates := DiscoverAppCandidates(dir, MAX_DEPTH);
    CandidateStrings(dir, candidates);
    if |candidates| > 1 {
      return AmbiguousRoot;
    }
    if |candidates| == 0 {
      return Framework(NoFramework);
    }
    var path := Split(candidates[0]);
    forall p | Candidate(dir, p, MAX_DEPTH) ensures p == path && Find(dir, p).Some? {
      CandidateNames(dir, p, MAX_DEPTH);
      CandidateIsNotEmpty(dir, p);
      JoinedPath("", p);
      CandidateIsThere(dir, p);
    }
    assert candidates[0] in candidates;
    d := DetectFrameworkAtRoot(Find(dir, path).value);
    r := Framework(d);
  }

  lemma CandidateIsThere(root: Node, p: Path)
    requires Candidate(root, p, MAX_DEPTH)
    ensures Find(root, p).Some?
  {
    hide Manifest, Find, Skipped;
  }
}
