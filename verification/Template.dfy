/**
 Rewriting a Node Dockerfile for the repository's package manager, and why the
 two overlapping corepack rewrites leave no install command without it.
 */
module Template {
  import opened Wrappers

  // ---------- strings.ReplaceAll ----------

  /** Replaces from the left, and does not look into what it has replaced. */
  function ReplaceAll(s: string, pattern: string, substitute: string): string
    requires pattern != ""
    decreases |s|
  {
    if s == "" then ""
    else if pattern <= s then substitute + ReplaceAll(s[|pattern|..], pattern, substitute)
    else [s[0]] + ReplaceAll(s[1..], pattern, substitute)
  }

  /** strings.Count: how often ReplaceAll replaces. */
  function Count(s: string, p: string): nat
    requires p != ""
    decreases |s|
  {
    if s == "" then 0
    else if p <= s then 1 + Count(s[|p|..], p)
    else Count(s[1..], p)
  }

  predicate At(s: string, p: string, k: int) { 0 <= k && k + |p| <= |s| && s[k..k + |p|] == p }

  lemma Skips(s: string, p: string, substitute: string)
    requires p != "" && s != "" && !(p <= s)
    ensures ReplaceAll(s, p, substitute) == [s[0]] + ReplaceAll(s[1..], p, substitute) && Count(s, p) == Count(s[1..], p)
  {}

  lemma Takes(s: string, p: string)
    requires p != "" && p <= s
    ensures Count(s, p) == 1 + Count(s[|p|..], p)
  {}

  // ---------- renderNodePackageManagerTemplate ----------

  datatype Commands = Commands(install: string, production: string, manifest: string)

  const NPM := "npm"
  const PNPM := "pnpm"
  const YARN := "yarn"
  const BUN := "bun"

  const COPY := "COPY package*.json ./"
  const NPM_INSTALL := "npm ci --ignore-scripts"
  const OMIT_DEV := " --omit=dev"
  const NPM_RUN := "npm run"
  const QUOTED_NPM := "\"npm"

  const NODE := "node:20-alpine"
  const NODE_IMAGE := "FROM " + NODE
  const BUN_IMAGE := "FROM " + "docker.io/oven/bun:1-alpine"
  const AS_BUILDER := " AS builder"
  const NODE_BUILDER := NODE_IMAGE + AS_BUILDER
  const NODE_STAGE := NODE_IMAGE + "\n"
  const BUN_BUILDER := BUN_IMAGE + AS_BUILDER
  const BUN_STAGE := BUN_IMAGE + "\n"

  const INSTALL := " install"
  const FROZEN := " --frozen-lockfile"
  const SCRIPTS := " --ignore-scripts"

  // One command for the three: pm install --frozen-lockfile --ignore-scripts
  function FrozenInstall(pm: string): string { pm + (INSTALL + (FROZEN + SCRIPTS)) }

  const ENABLE := "corepack enable\n"
  const COREPACK := Run(ENABLE)

  function ManifestCopy(lock: string): string { "COPY package.json " + lock + " ./" }

  /** The three tables together; a manager that misses in one of them is unknown. */
  function CommandsOf(pm: string): Option<Commands> {
    if pm == NPM then
      Some(Commands(NPM_INSTALL, NPM_INSTALL + OMIT_DEV, ManifestCopy("package-lock.json")))
    else if pm == PNPM then Some(Commands(FrozenInstall(PNPM), FrozenInstall(PNPM) + " --prod", ManifestCopy("pnpm-lock.yaml")))
    else if pm == YARN then Some(Commands(FrozenInstall(YARN), FrozenInstall(YARN) + " --production=true", ManifestCopy("yarn.lock")))
    else if pm == BUN then Some(Commands(FrozenInstall(BUN), FrozenInstall(BUN) + " --production", ManifestCopy("bun.lock*")))
    else None
  }

  /** What the tables say for the three managers that are not npm, word for word. */
  lemma CommandsExactly()
    ensures CommandsOf("pnpm") ==
              Some(Commands(InstallWith("pnpm"), InstallWith("pnpm") + " --prod", "COPY package.json " + "pnpm-lock.yaml" + " ./"))
    ensures CommandsOf("yarn") ==
              Some(Commands(InstallWith("yarn"), InstallWith("yarn") + " --production=true", "COPY package.json " + "yarn.lock" + " ./"))
    ensures CommandsOf("bun") ==
              Some(Commands(InstallWith("bun"), InstallWith("bun") + " --production", "COPY package.json " + "bun.lock*" + " ./"))
  {
    assert |"npm"| == |"bun"| == 3 && |"pnpm"| == |"yarn"| == 4 && "npm"[0] != "bun"[0] && "pnpm"[0] != "yarn"[0];
  }

  function InstallWith(pm: string): string { pm + (" install" + (" --frozen-lockfile" + " --ignore-scripts")) }

  // The rewrites that every known manager but npm gets.
  function Substituted(content: string, pm: string, c: Commands): string {
    var c1 := ReplaceAll(content, COPY, c.manifest);
    var c2 := ReplaceAll(c1, NPM_INSTALL + OMIT_DEV, c.production);
    var c3 := ReplaceAll(c2, NPM_INSTALL, c.install);
    var c4 := ReplaceAll(c3, NPM_RUN, pm + " run");
    ReplaceAll(c4, QUOTED_NPM, "\"" + pm)
  }

  function Run(command: string): string { "RUN " + command }

  function WithCorepack(content: string, c: Commands): string {
    var once := ReplaceAll(content, Run(c.install), COREPACK + Run(c.install));
    ReplaceAll(once, Run(c.production), COREPACK + Run(c.production))
  }

  // Only unnamed runtime stages: one named otherwise keeps its image.
  function WithBunImages(content: string): string {
    ReplaceAll(ReplaceAll(content, NODE_BUILDER, BUN_BUILDER), NODE_STAGE, BUN_STAGE)
  }

  function RenderNodePackageManagerTemplate(content: string, pm: string): string {
    if pm == NPM || CommandsOf(pm).None? then content
    else
      var c := CommandsOf(pm).value;
      var substituted := Substituted(content, pm, c);
      if pm == PNPM || pm == YARN then WithCorepack(substituted, c) else WithBunImages(substituted)
  }

  // ---------- Words: an R, and no other ----------

  predicate Word(p: string) { p != "" && p[0] == 'R' && 'R' !in p[1..] }

  // The two words part somewhere, so that neither begins the other.
  predicate Part(p: string, q: string) { exists j | 0 <= j < |p| && j < |q| :: p[j] != q[j] }

  lemma PartedStarts(p: string, q: string, rest: string)
    requires Part(p, q)
    ensures !(p <= q + rest)
  {
    var j :| 0 <= j < |p| && j < |q| && p[j] != q[j];
    assert (q + rest)[j] == q[j];
  }

  /** A replacement can only show where an R is: what has none is copied from the source, and the other way round. */
  lemma {:induction false} CopiedPrefix(s: string, p: string, substitute: string, m: nat)
    requires Word(p) && substitute != "" && substitute[0] == 'R'
    ensures m <= |s| && 'R' !in s[..m] ==>
              m <= |ReplaceAll(s, p, substitute)| && ReplaceAll(s, p, substitute)[..m] == s[..m]
              && ReplaceAll(s, p, substitute)[m..] == ReplaceAll(s[m..], p, substitute)
    ensures m <= |ReplaceAll(s, p, substitute)| && 'R' !in ReplaceAll(s, p, substitute)[..m] ==>
              m <= |s| && ReplaceAll(s, p, substitute)[..m] == s[..m]
    decreases m
  {
    var out := ReplaceAll(s, p, substitute);
    if m > 0 && s != "" {
      if p <= s {
        assert s[0] == 'R' && out[0] == 'R';
        if m <= |s| { assert s[..m][0] == 'R'; }
        if m <= |out| { assert out[..m][0] == 'R'; }
      } else {
        CopiedPrefix(s[1..], p, substitute, m - 1);
        var rest := ReplaceAll(s[1..], p, substitute);
        assert out == [s[0]] + rest;
        if m <= |s| {
          assert s[..m] == [s[0]] + s[1..][..m - 1];
          assert s[m..] == s[1..][m - 1..];
        }
        if m <= |out| {
          assert out[..m] == [s[0]] + rest[..m - 1];
          assert out[m..] == rest[m - 1..];
        }
      }
    }
  }

  /** A word that begins the result begins the source, unless it begins with a replacement. */
  lemma WordStarts(s: string, p: string, substitute: string, q: string)
    requires Word(p) && Word(q) && substitute != "" && substitute[0] == 'R' && s != "" && !(p <= s)
    ensures q <= ReplaceAll(s, p, substitute) <==> q <= s
    ensures q <= s ==> ReplaceAll(s, p, substitute)[|q|..] == ReplaceAll(s[|q|..], p, substitute)
  {
    var rest, m := ReplaceAll(s[1..], p, substitute), |q| - 1;
    CopiedPrefix(s[1..], p, substitute, m);
    Skips(s, p, substitute);
    hide ReplaceAll;
    var out := ReplaceAll(s, p, substitute);
    assert out == [s[0]] + rest;
    if q <= out {
      assert q[1..] == rest[..m];
      assert s[1..][..m] == q[1..];
      assert q == s[..|q|];
    }
    if q <= s {
      assert s[1..][..m] == q[1..];
      assert out[..|q|] == [s[0]] + rest[..m];
      assert out[|q|..] == rest[m..] && s[|q|..] == s[1..][m..];
    }
  }

  /** Scanning for a word passes over what has no R. */
  lemma {:induction false} CountPasses(t: string, s: string, q: string)
    requires Word(q) && 'R' !in t
    ensures Count(t + s, q) == Count(s, q)
    decreases |t|
  {
    if t == "" {
      assert t + s == s;
    } else {
      assert (t + s)[1..] == t[1..] + s;
      assert !(q <= t + s) by { assert (t + s)[0] == t[0]; }
      CountPasses(t[1..], s, q);
    }
  }

  /** It passes over another word, too. */
  lemma CountPassesWord(p: string, s: string, q: string)
    requires Word(p) && Word(q) && Part(q, p)
    ensures Count(p + s, q) == Count(s, q)
  {
    PartedStarts(q, p, s);
    assert (p + s)[1..] == p[1..] + s;
    CountPasses(p[1..], s, q);
  }

  // Both counts when the word is at the front.
  lemma InsertionAtWord(rest: string, q: string, c: string)
    requires Word(q) && Word(c) && Part(c, q)
    ensures Count(c + (q + ReplaceAll(rest, q, c + q)), c) == 1 + Count(ReplaceAll(rest, q, c + q), c)
    ensures Count(q + rest, c) == Count(rest, c) && Count(q + rest, q) == 1 + Count(rest, q)
  {
    var after := ReplaceAll(rest, q, c + q);
    hide ReplaceAll, Count;
    CountPassesWord(q, after, c);
    CountPassesWord(q, rest, c);
    assert (c + (q + after))[|c|..] == q + after && (q + rest)[|q|..] == rest;
    Takes(c + (q + after), c);
    Takes(q + rest, q);
  }

  /** Inserting a word before every q adds as many of it as there were q. */
  lemma {:induction false} InsertionsCounted(s: string, q: string, c: string)
    requires Word(q) && Word(c) && Part(c, q) && Part(q, c)
    ensures Count(ReplaceAll(s, q, c + q), c) == Count(s, c) + Count(s, q)
    decreases |s|
  {
    assert q != "" && c != "";
    hide Part, Word;
    if s != "" {
      if q <= s {
        var rest := s[|q|..];
        assert s == q + rest && ReplaceAll(s, q, c + q) == c + (q + ReplaceAll(rest, q, c + q));
        InsertionAtWord(rest, q, c);
        InsertionsCounted(rest, q, c);
      } else {
        InsertionElsewhere(s, q, c);
        if c <= s {
          InsertionsCounted(s[|c|..], q, c);
        } else {
          InsertionsCounted(s[1..], q, c);
        }
      }
    }
  }

  lemma InsertionElsewhere(s: string, q: string, c: string)
    requires Word(q) && Word(c) && Part(q, c) && s != "" && !(q <= s)
    ensures var out := ReplaceAll(s, q, c + q);
            if c <= s then
              && Count(out, c) == 1 + Count(ReplaceAll(s[|c|..], q, c + q), c)
              && Count(s, c) == 1 + Count(s[|c|..], c) && Count(s, q) == Count(s[|c|..], q)
            else
              && Count(out, c) == Count(ReplaceAll(s[1..], q, c + q), c)
              && Count(s, c) == Count(s[1..], c) && Count(s, q) == Count(s[1..], q)
  {
    hide ReplaceAll, Count;
    var out := ReplaceAll(s, q, c + q);
    WordStarts(s, q, c + q, c);
    Skips(s, q, c + q);
    if c <= s {
      assert s == c + s[|c|..];
      CountPassesWord(c, s[|c|..], q);
      Takes(out, c);
      Takes(s, c);
    } else {
      assert out[1..] == ReplaceAll(s[1..], q, c + q);
      Skips(out, c, "");
      Skips(s, c, "");
    }
  }

  lemma TailKept(s: string, p: string, substitute: string, tail: string)
    requires Word(p) && substitute != "" && substitute[0] == 'R' && 'R' !in tail
    ensures tail <= ReplaceAll(s, p, substitute) <==> tail <= s
    ensures tail <= s ==> ReplaceAll(s, p, substitute)[|tail|..] == ReplaceAll(s[|tail|..], p, substitute)
  {
    CopiedPrefix(s, p, substitute, |tail|);
    if tail <= s {
      assert s[..|tail|] == tail;
    }
    var out := ReplaceAll(s, p, substitute);
    if tail <= out {
      assert out[..|tail|] == tail;
    }
  }

  // Both counts when the shorter word is at the front.
  lemma LongerAtWord(rest: string, q: string, tail: string, c: string)
    requires Word(q) && Word(c) && Word(q + tail) && 'R' !in tail && Part(c, q + tail) && Part(q + tail, c)
    ensures var after, longer := ReplaceAll(rest, q, c + q), q + tail;
            if tail <= rest then
              && Count(c + (q + after), longer) == 1 + Count(ReplaceAll(rest[|tail|..], q, c + q), longer)
              && Count(q + rest, longer) == 1 + Count(rest[|tail|..], longer)
            else
              Count(c + (q + after), longer) == Count(after, longer) && Count(q + rest, longer) == Count(rest, longer)
  {
    var after, longer := ReplaceAll(rest, q, c + q), q + tail;
    hide ReplaceAll, Count, Part;
    assert longer[0] == q[0] && 'R' !in q[1..];
    CountPassesWord(c, q + after, longer);
    TailKept(rest, q, c + q, tail);
    LongerStarts(q, tail, rest);
    LongerStarts(q, tail, after);
    if tail <= rest {
      assert (q + after)[|longer|..] == after[|tail|..] && (q + rest)[|longer|..] == rest[|tail|..];
      Takes(q + after, longer);
      Takes(q + rest, longer);
    } else {
      assert (q + after)[1..] == q[1..] + after && (q + rest)[1..] == q[1..] + rest;
      Skips(q + after, longer, "");
      Skips(q + rest, longer, "");
      CountPasses(q[1..], after, longer);
      CountPasses(q[1..], rest, longer);
    }
  }

  /** Inserting before every q leaves the count of a longer word that begins with q. */
  lemma {:induction false} LongerWordKept(s: string, q: string, tail: string, c: string)
    requires Word(q) && Word(c) && Word(q + tail) && 'R' !in tail && Part(c, q + tail) && Part(q + tail, c)
    ensures Count(ReplaceAll(s, q, c + q), q + tail) == Count(s, q + tail)
    decreases |s|
  {
    if s != "" {
      if q <= s {
        var rest := s[|q|..];
        var after := ReplaceAll(rest, q, c + q);
        assert s == q + rest && ReplaceAll(s, q, c + q) == c + (q + after);
        LongerAtWord(rest, q, tail, c);
        if tail <= rest {
          LongerWordKept(rest[|tail|..], q, tail, c);
        } else {
          LongerWordKept(rest, q, tail, c);
        }
      } else {
        WordStarts(s, q, c + q, q + tail);
        assert !(q + tail <= s);
        LongerWordKept(s[1..], q, tail, c);
      }
    }
  }

  lemma LongerStarts(q: string, tail: string, rest: string)
    ensures q + tail <= q + rest <==> tail <= rest
  {
    if q + tail <= q + rest {
      assert rest == (q + rest)[|q|..];
      assert tail == (q + tail)[|q|..];
    }
  }

  // ---------- No install without corepack ----------

  predicate EndsWith(s: string, p: string) { |p| <= |s| && s[|s| - |p|..] == p }

  /** Behind the text before, every p in s follows directly on a c. */
  ghost predicate Guarded(before: string, s: string, p: string, c: string) {
    forall k | At(s, p, k) :: EndsWith(before + s[..k], c)
  }

  // What is guarded before a change is guarded after it: the same last characters.
  predicate SameEnd(before: string, after: string, n: nat) {
    var m := if |before| < n then |before| else n;
    m <= |after| && after[|after| - m..] == before[|before| - m..]
  }

  lemma SameEndAppended(before: string, after: string, n: nat, x: string)
    requires SameEnd(before, after, n)
    ensures SameEnd(before + x, after + x, n)
  {
    var m := if |before| < n then |before| else n;
    var m' := if |before + x| < n then |before + x| else n;
    assert (after + x)[|after + x| - m'..] == (before + x)[|before + x| - m'..] by {
      if m' > |x| {
        var n' := m' - |x|;
        assert (after + x)[|after + x| - m'..] == after[|after| - m..][m - n'..] + x;
        assert (before + x)[|before + x| - m'..] == before[|before| - m..][m - n'..] + x;
      } else {
        assert (after + x)[|after + x| - m'..] == x[|x| - m'..] == (before + x)[|before + x| - m'..];
      }
    }
  }

  lemma SameEndKeeps(before: string, after: string, c: string)
    requires SameEnd(before, after, |c|) && EndsWith(before, c)
    ensures EndsWith(after, c)
  {}

  /** Where a word can be found behind a replacement: right at its second part, or later. */
  lemma WordInReplacement(c: string, q: string, rest: string, p: string, k: nat)
    requires Word(c) && Word(q) && Word(p) && Part(p, c) && At(c + q + rest, p, k)
    ensures k == |c| || k >= |c| + |q|
  {
    var out := c + q + rest;
    assert out[k] == out[k..k + |p|][0] == 'R';
    RsInReplacement(c, q, rest);
    PartedStarts(p, c, q + rest);
    assert out == c + (q + rest);
    assert k == 0 ==> p <= out;
  }

  lemma RsInReplacement(c: string, q: string, rest: string)
    requires Word(c) && Word(q)
    ensures forall k | 0 <= k < |c| + |q| && (c + q + rest)[k] == 'R' :: k == 0 || k == |c|
  {
    forall k | 0 <= k < |c| + |q| ensures k == 0 || k == |c| || (c + q + rest)[k] != 'R' {
      if 0 < k < |c| {
        assert (c + q + rest)[k] == c[1..][k - 1];
      } else if |c| < k {
        assert (c + q + rest)[k] == q[1..][k - |c| - 1];
      }
    }
  }

  /**
   Putting c before every q guards what q begins, and keeps guarded what was:
   p is q itself or the beginning of it.
   */
  lemma {:induction false} RewriteGuards(before: string, after: string, s: string, q: string, p: string, c: string)
    requires Word(q) && Word(p) && Word(c) && Part(p, c) && p <= q && |c| <= |q|
    requires SameEnd(before, after, |c|)
    requires p == q || Guarded(before, s, p, c)
    ensures Guarded(after, ReplaceAll(s, q, c + q), p, c)
    decreases |s|
  {
    var out := ReplaceAll(s, q, c + q);
    if s != "" {
      if q <= s {
        var rest := s[|q|..];
        var tail := ReplaceAll(rest, q, c + q);
        assert out == c + q + tail && s == q + rest;
        assert SameEnd(before + q, after + (c + q), |c|);
        if p != q { GuardedRest(before, q, rest, p, c); }
        RewriteGuards(before + q, after + (c + q), rest, q, p, c);
        GuardedReplacement(after, tail, q, p, c);
      } else {
        var x, rest := [s[0]], s[1..];
        var tail := ReplaceAll(rest, q, c + q);
        assert out == x + tail && s == x + rest;
        SameEndAppended(before, after, |c|, x);
        if p != q { GuardedRest(before, x, rest, p, c); }
        RewriteGuards(before + x, after + x, rest, q, p, c);
        WordStarts(s, q, c + q, p);
        if p <= out {
          assert At(s, p, 0);
          assert before + s[..0] == before;
          SameEndKeeps(before, after, c);
        }
        GuardedChar(after, x, tail, p, c);
      }
    }
  }

  lemma GuardedRest(before: string, x: string, rest: string, p: string, c: string)
    requires Guarded(before, x + rest, p, c)
    ensures Guarded(before + x, rest, p, c)
  {
    forall k | At(rest, p, k) ensures EndsWith(before + x + rest[..k], c) {
      assert (x + rest)[|x| + k..|x| + k + |p|] == rest[k..k + |p|];
      assert At(x + rest, p, |x| + k);
      assert before + (x + rest)[..|x| + k] == before + x + rest[..k];
    }
  }

  lemma GuardedReplacement(after: string, tail: string, q: string, p: string, c: string)
    requires Word(q) && Word(p) && Word(c) && Part(p, c) && Guarded(after + (c + q), tail, p, c)
    ensures Guarded(after, c + q + tail, p, c)
  {
    hide Word, Part;
    var out := c + q + tail;
    forall k | At(out, p, k) ensures EndsWith(after + out[..k], c) {
      WordInReplacement(c, q, tail, p, k);
      if k == |c| {
        assert out[..k] == c;
      } else {
        var k' := k - |c| - |q|;
        assert tail[k'..k' + |p|] == out[k..k + |p|];
        assert At(tail, p, k');
        assert after + out[..k] == after + (c + q) + tail[..k'];
      }
    }
  }

  lemma GuardedChar(after: string, x: string, tail: string, p: string, c: string)
    requires |x| == 1 && Guarded(after + x, tail, p, c) && (p <= x + tail ==> EndsWith(after, c))
    ensures Guarded(after, x + tail, p, c)
  {
    forall k | At(x + tail, p, k) ensures EndsWith(after + (x + tail)[..k], c) {
      if k == 0 {
        assert after + (x + tail)[..0] == after;
      } else {
        assert tail[k - 1..k - 1 + |p|] == (x + tail)[k..k + |p|];
        assert At(tail, p, k - 1);
        assert after + (x + tail)[..k] == after + x + tail[..k - 1];
      }
    }
  }

  // ---------- The rendered template ----------

  predicate UsesCorepack(pm: string) { pm == PNPM || pm == YARN }

  lemma RunIsWord(command: string)
    requires 'R' !in command
    ensures Word(Run(command))
  {
    assert Run(command)[1..] == "UN " + command;
    assert forall x | x in "UN " + command :: x in "UN " || x in command;
  }

  lemma CorepackParts(command: string)
    requires command != "" && command[0] != 'c'
    ensures Part(COREPACK, Run(command)) && Part(Run(command), COREPACK)
  {
    assert COREPACK[4] != Run(command)[4];
  }

  lemma CorepackIsWord()
    ensures Word(COREPACK) && |COREPACK| == 20
  {
    assert 'R' !in ENABLE && |ENABLE| == 16;
    hide ENABLE;
    RunIsWord(ENABLE);
  }

  // What the proofs need of the two managers' commands.
  lemma CommandsAreWords(pm: string)
    requires UsesCorepack(pm)
    ensures var c := CommandsOf(pm).value;
            && Word(Run(c.install)) && Word(Run(c.production)) && Run(c.install) <= Run(c.production)
            && 'R' !in Run(c.production)[|Run(c.install)|..] && |Run(c.production)| >= |COREPACK|
            && Part(COREPACK, Run(c.install)) && Part(Run(c.install), COREPACK)
            && Part(COREPACK, Run(c.production)) && Part(Run(c.production), COREPACK)
  {
    var c := CommandsOf(pm).value;
    var tail := CommandsShape(pm);
    hide CommandsOf, Run, COREPACK, Word, Part;
    NoRs(c.install, tail);
    RunIsWord(c.install);
    RunIsWord(c.production);
    CorepackParts(c.install);
    CorepackParts(c.production);
    RunsExtend(c.install, tail);
  }

  lemma RunsExtend(command: string, tail: string)
    ensures Run(command + tail) == Run(command) + tail && |Run(command)| >= |command|
    ensures Run(command) <= Run(command + tail) && Run(command + tail)[|Run(command)|..] == tail
  {
    assert Run(command + tail) == Run(command) + tail;
    assert (Run(command) + tail)[|Run(command)|..] == tail;
  }

  predicate Rewrites(pm: string) { UsesCorepack(pm) || pm == BUN }

  lemma CommandsShape(pm: string) returns (tail: string)
    requires Rewrites(pm)
    ensures var c := CommandsOf(pm).value;
            && c.install == FrozenInstall(pm) && c.production == c.install + tail
            && 'R' !in tail && 'R' !in c.install && tail != "" && tail[0] == ' '
            && |c.install| > |COREPACK| && c.install[0] != 'c' && c.production[0] != 'c'
  {
    tail := if pm == PNPM then " --prod" else if pm == YARN then " --production=true" else " --production";
    assert CommandsOf(pm).value.install == FrozenInstall(pm) && CommandsOf(pm).value.production == FrozenInstall(pm) + tail;
    assert 'R' !in tail;
    FrozenHasNoR(pm);
    hide CommandsOf, FrozenInstall, COREPACK;
  }

  lemma NoRs(s: string, t: string)
    ensures 'R' !in s + t <==> 'R' !in s && 'R' !in t
  {
    assert forall x | x in s + t :: x in s || x in t;
    assert forall x | x in s || x in t :: x in s + t;
  }

  lemma FrozenHasNoR(pm: string)
    requires Rewrites(pm)
    ensures 'R' !in FrozenInstall(pm) && |FrozenInstall(pm)| > |COREPACK| && FrozenInstall(pm)[0] != 'c'
  {
    assert 'R' !in pm && pm[0] != 'c' && |INSTALL| == 8 && |FROZEN| == 18 && |COREPACK| == 20 by { CorepackIsWord(); }
    assert 'R' !in INSTALL && 'R' !in FROZEN && 'R' !in SCRIPTS;
    hide INSTALL, FROZEN, SCRIPTS, COREPACK, PNPM, YARN, BUN;
    NoRs(FROZEN, SCRIPTS);
    NoRs(INSTALL, FROZEN + SCRIPTS);
    NoRs(pm, INSTALL + (FROZEN + SCRIPTS));
  }

  /** The rendering is the identity for npm and for managers that are not known. */
  lemma OthersUnchanged(content: string, pm: string)
    requires pm !in {PNPM, YARN, BUN}
    ensures RenderNodePackageManagerTemplate(content, pm) == content
  {
    assert pm != PNPM && pm != YARN && pm != BUN;
  }

  lemma RenderedWithCorepack(content: string, pm: string)
    requires UsesCorepack(pm)
    ensures var c := CommandsOf(pm).value;
            RenderNodePackageManagerTemplate(content, pm) == WithCorepack(Substituted(content, pm, c), c)
  {
    hide Substituted, WithCorepack;
  }

  lemma RenderedWithBunImages(content: string)
    ensures RenderNodePackageManagerTemplate(content, BUN) == WithBunImages(Substituted(content, BUN, CommandsOf(BUN).value))
  {
    hide Substituted, WithBunImages;
  }

  /** With pnpm and yarn every install command directly follows a corepack line, for every template. */
  lemma NoInstallWithoutCorepack(content: string, pm: string)
    requires UsesCorepack(pm)
    ensures var install := Run(CommandsOf(pm).value.install);
            forall k | At(RenderNodePackageManagerTemplate(content, pm), install, k) ::
              EndsWith(RenderNodePackageManagerTemplate(content, pm)[..k], COREPACK)
  {
    var c := CommandsOf(pm).value;
    var text, install, production := Substituted(content, pm, c), Run(c.install), Run(c.production);
    CommandsAreWords(pm);
    CorepackIsWord();
    RenderedWithCorepack(content, pm);
    hide Word, Part, Substituted, COREPACK, Run, CommandsOf, RenderNodePackageManagerTemplate, ReplaceAll, Count, UsesCorepack;
    var once := ReplaceAll(text, install, COREPACK + install);
    RewriteGuards("", "", text, install, install, COREPACK);
    RewriteGuards("", "", once, production, install, COREPACK);
    var out := RenderNodePackageManagerTemplate(content, pm);
    forall k | At(out, install, k) ensures EndsWith(out[..k], COREPACK) {
      assert "" + out[..k] == out[..k];
    }
  }

  /** The number of corepack lines grows by the number of install commands plus that of production installs. */
  lemma CorepackLinesCounted(content: string, pm: string)
    requires UsesCorepack(pm)
    ensures var c := CommandsOf(pm).value;
            var text := Substituted(content, pm, c);
            Count(RenderNodePackageManagerTemplate(content, pm), COREPACK) ==
              Count(text, COREPACK) + Count(text, Run(c.install)) + Count(text, Run(c.production))
  {
    var c := CommandsOf(pm).value;
    var text, install, production := Substituted(content, pm, c), Run(c.install), Run(c.production);
    CommandsAreWords(pm);
    CorepackIsWord();
    RenderedWithCorepack(content, pm);
    hide Word, Part, Substituted, COREPACK, Run, CommandsOf, RenderNodePackageManagerTemplate, ReplaceAll, Count, UsesCorepack;
    var once := ReplaceAll(text, install, COREPACK + install);
    var tail := production[|install|..];
    assert production == install + tail;
    InsertionsCounted(text, install, COREPACK);
    InsertionsCounted(once, production, COREPACK);
    LongerWordKept(text, install, tail, COREPACK);
  }
}
