/**
 Seven overlapping rewrites act like one: on a template made of plain text and
 the commands that are to be rewritten, the rendering translates each command
 for itself and leaves the text alone.
 */
module Rendering {
  import opened Wrappers
  import opened Template

  // ---------- Templates in pieces ----------

  // What the rewrites look for, with the text around it that makes it whole,
  // and text in which none of them begins.
  datatype Piece =
    | Plain(text: string)
    | Builder
    | Runtime
    | Manifest
    | Install
    | Production
    | Script
    | RunScript
    | Quoted

  function Source(p: Piece): string {
    match p
    case Plain(text) => text
    case Builder => NODE_BUILDER
    case Runtime => NODE_STAGE
    case Manifest => COPY
    case Install => "RUN " + NPM_INSTALL + "\n"
    case Production => "RUN " + (NPM_INSTALL + OMIT_DEV) + "\n"
    case Script => NPM_RUN + " "
    case RunScript => "RUN " + NPM_RUN + " "
    case Quoted => QUOTED_NPM + "\","
  }

  /** What each piece becomes; a production install gets two corepack lines. */
  function Target(p: Piece, pm: string, c: Commands): string {
    var corepack := if UsesCorepack(pm) then COREPACK else "";
    match p
    case Plain(text) => text
    case Builder => if pm == BUN then BUN_BUILDER else NODE_BUILDER
    case Runtime => if pm == BUN then BUN_STAGE else NODE_STAGE
    case Manifest => c.manifest
    case Install => corepack + Run(c.install) + "\n"
    case Production => corepack + (corepack + Run(c.production)) + "\n"
    case Script => pm + " run" + " "
    case RunScript => "RUN " + (pm + " run") + " "
    case Quoted => "\"" + pm + "\","
  }

  function Flat(pieces: seq<Piece>, text: Piece -> string): string {
    if pieces == [] then "" else text(pieces[0]) + Flat(pieces[1..], text)
  }

  // ---------- Where a pattern cannot begin ----------

  /** The pattern begins nowhere in the text, whatever follows. */
  ghost predicate Safe(t: string, p: string) { forall i | 0 <= i < |t| :: Part(p, t[i..]) }

  /** Whatever follows x, the rewrite turns x into y. */
  ghost predicate Turns(x: string, y: string, p: string, n: string)
    requires p != ""
  {
    forall s :: ReplaceAll(x + s, p, n) == y + ReplaceAll(s, p, n)
  }

  lemma {:induction false} SafeIsKept(t: string, s: string, p: string, n: string)
    requires p != "" && Safe(t, p)
    ensures ReplaceAll(t + s, p, n) == t + ReplaceAll(s, p, n)
  {
    if t == "" {
      assert t + s == s;
    } else {
      assert Part(p, t[0..]) && t[0..] == t;
      PartedStarts(p, t, s);
      Skips(t + s, p, n);
      assert (t + s)[1..] == t[1..] + s;
      forall i | 0 <= i < |t[1..]| ensures Part(p, t[1..][i..]) {
        assert t[1..][i..] == t[i + 1..];
      }
      SafeIsKept(t[1..], s, p, n);
    }
  }

  lemma SafeTurns(t: string, p: string, n: string)
    requires p != "" && Safe(t, p)
    ensures Turns(t, t, p, n)
  {
    forall s ensures ReplaceAll(t + s, p, n) == t + ReplaceAll(s, p, n) {
      SafeIsKept(t, s, p, n);
    }
  }

  lemma PatternTurns(p: string, n: string)
    requires p != ""
    ensures Turns(p, n, p, n)
  {
    forall s ensures ReplaceAll(p + s, p, n) == n + ReplaceAll(s, p, n) {
      assert (p + s)[|p|..] == s;
    }
  }

  lemma TurnsConcat(a: string, a': string, b: string, b': string, p: string, n: string)
    requires p != "" && Turns(a, a', p, n) && Turns(b, b', p, n)
    ensures Turns(a + b, a' + b', p, n)
  {
    hide ReplaceAll;
    forall s ensures ReplaceAll(a + b + s, p, n) == a' + b' + ReplaceAll(s, p, n) {
      assert a + b + s == a + (b + s);
      assert a' + b' + ReplaceAll(s, p, n) == a' + (b' + ReplaceAll(s, p, n));
    }
  }

  /** A pattern between two safe stretches is replaced, and nothing else. */
  lemma TurnsBetween(a: string, b: string, p: string, n: string)
    requires p != "" && Safe(a, p) && Safe(b, p)
    ensures Turns(a + p + b, a + n + b, p, n)
  {
    SafeTurns(a, p, n);
    SafeTurns(b, p, n);
    PatternTurns(p, n);
    TurnsConcat(a, a, p, n, p, n);
    TurnsConcat(a + p, a + n, b, b, p, n);
  }

  lemma {:induction false} FlatTurns(pieces: seq<Piece>, before: Piece -> string, after: Piece -> string, p: string, n: string)
    requires p != "" && forall x | x in pieces :: Turns(before(x), after(x), p, n)
    ensures ReplaceAll(Flat(pieces, before), p, n) == Flat(pieces, after)
  {
    if pieces != [] {
      assert pieces[0] in pieces;
      FlatTurns(pieces[1..], before, after, p, n);
      hide ReplaceAll;
      assert Turns(before(pieces[0]), after(pieces[0]), p, n);
    }
  }

  lemma SafeConcat(a: string, b: string, p: string)
    requires Safe(a, p) && Safe(b, p)
    ensures Safe(a + b, p)
  {
    forall i | 0 <= i < |a + b| ensures Part(p, (a + b)[i..]) {
      if i < |a| {
        assert (a + b)[i..] == a[i..] + b;
        PartLonger(p, a[i..], b);
      } else {
        assert (a + b)[i..] == b[i - |a|..];
      }
    }
  }

  lemma PartLonger(p: string, q: string, rest: string)
    requires Part(p, q)
    ensures Part(p, q + rest)
  {
    var j :| 0 <= j < |p| && j < |q| && p[j] != q[j];
    assert (q + rest)[j] == q[j];
  }

  lemma SafeWithoutFirst(t: string, p: string)
    requires p != "" && p[0] !in t
    ensures Safe(t, p)
  {
    forall i | 0 <= i < |t| ensures Part(p, t[i..]) {
      assert t[i..][0] == t[i] && t[i] in t;
    }
  }

  // A text that begins with the pattern's first character, and has no other.
  lemma SafeAtHead(t: string, p: string)
    requires t != "" && p != "" && Part(p, t) && p[0] !in t[1..]
    ensures Safe(t, p)
  {
    SafeWithoutFirst(t[1..], p);
    forall i | 0 <= i < |t| ensures Part(p, t[i..]) {
      if i > 0 {
        assert t[i..] == t[1..][i - 1..];
      } else {
        assert t[0..] == t;
      }
    }
  }

  lemma SafeCons(t: string, p: string)
    requires t != "" && Part(p, t) && Safe(t[1..], p)
    ensures Safe(t, p)
  {
    forall i | 0 <= i < |t| ensures Part(p, t[i..]) {
      if i > 0 {
        assert t[i..] == t[1..][i - 1..];
      } else {
        assert t[0..] == t;
      }
    }
  }

  // ---------- Texts that contain no npm command ----------

  // Neither npm c... nor npm r... begins here.
  predicate Off(t: string, i: nat)
    requires i < |t|
  {
    || t[i] != 'n'
    || (i + 1 < |t| && t[i + 1] != 'p')
    || (i + 3 < |t| && t[i + 3] != ' ')
    || (i + 4 < |t| && t[i + 4] != 'c' && t[i + 4] != 'r')
  }

  predicate Quiet(t: string) { forall i | 0 <= i < |t| :: Off(t, i) }

  predicate NpmCommand(p: string) {
    |p| > 4 && p[0] == 'n' && p[1] == 'p' && p[3] == ' ' && (p[4] == 'c' || p[4] == 'r')
  }

  lemma QuietIsSafe(t: string, p: string)
    requires Quiet(t) && NpmCommand(p)
    ensures Safe(t, p)
  {
    forall i | 0 <= i < |t| ensures Part(p, t[i..]) {
      assert Off(t, i);
      var j := if t[i] != 'n' then 0 else if i + 1 < |t| && t[i + 1] != 'p' then 1 else if i + 3 < |t| && t[i + 3] != ' ' then 3 else 4;
      assert t[i..][j] == t[i + j] != p[j];
    }
  }

  lemma QuietConcat(a: string, b: string)
    requires Quiet(a) && Quiet(b)
    ensures Quiet(a + b)
  {
    forall i | 0 <= i < |a + b| ensures Off(a + b, i) {
      if i < |a| {
        assert Off(a, i);
      } else {
        assert Off(b, i - |a|);
      }
    }
  }

  lemma QuietWithoutN(t: string)
    requires 'n' !in t
    ensures Quiet(t)
  {
    forall i | 0 <= i < |t| ensures Off(t, i) {
      assert t[i] in t;
    }
  }

  // A text whose only n is at its head, and harmless.
  lemma QuietAtHead(t: string)
    requires t != "" && Off(t, 0) && 'n' !in t[1..]
    ensures Quiet(t)
  {
    forall i | 0 <= i < |t| ensures Off(t, i) {
      if i > 0 {
        assert t[i] == t[1..][i - 1];
      }
    }
  }

  // Harmless in the rewrites of npm commands, of the quoted npm, of corepack and of images.
  predicate Inert(t: string) { Quiet(t) && '\"' !in t && 'R' !in t && 'F' !in t }

  lemma InertConcat(a: string, b: string)
    requires Inert(a) && Inert(b)
    ensures Inert(a + b)
  {
    hide Quiet;
    QuietConcat(a, b);
    assert forall x | x in a + b :: x in a || x in b;
  }

  lemma FrozenIsInert()
    ensures Inert(FROZEN)
  {
    QuietWithoutN(" --froze");
    QuietAtHead("n-lockfile");
    assert Inert(" --froze") && Inert("n-lockfile");
    hide Inert;
    InertConcat(" --froze", "n-lockfile");
    assert FROZEN == " --froze" + "n-lockfile";
  }

  lemma ScriptsAreInert()
    ensures Inert(SCRIPTS)
  {
    QuietWithoutN(" --ig");
    QuietAtHead("nore");
    QuietWithoutN("-scripts");
    assert Inert(" --ig") && Inert("nore") && Inert("-scripts");
    hide Inert;
    InertConcat(" --ig", "nore");
    InertConcat(" --ig" + "nore", "-scripts");
    assert SCRIPTS == " --ig" + "nore" + "-scripts";
  }

  lemma InstallVerbIsInert(pm: string)
    requires Rewrites(pm)
    ensures Inert(pm + INSTALL)
  {
    QuietAtHead("nstall");
    if pm == PNPM {
      QuietWithoutN("p");
      QuietAtHead("npm i");
      InertConcat("npm i", "nstall");
      InertConcat("p", "npm i" + "nstall");
      assert PNPM + INSTALL == "p" + ("npm i" + "nstall");
    } else {
      var head := if pm == YARN then "yar" else "bu";
      QuietWithoutN(head);
      QuietAtHead("n i");
      InertConcat("n i", "nstall");
      InertConcat(head, "n i" + "nstall");
      assert pm + INSTALL == head + ("n i" + "nstall");
    }
  }

  lemma InstallIsInert(pm: string)
    requires Rewrites(pm)
    ensures Inert(FrozenInstall(pm))
  {
    InstallVerbIsInert(pm);
    FrozenIsInert();
    ScriptsAreInert();
    hide INSTALL, FROZEN, SCRIPTS, PNPM, YARN, BUN, Inert;
    InertConcat(FROZEN, SCRIPTS);
    InertConcat(pm + INSTALL, FROZEN + SCRIPTS);
    assert FrozenInstall(pm) == pm + INSTALL + (FROZEN + SCRIPTS);
  }

  // As the commands stand in a template: at the end of a line.
  lemma CommandsAreInert(pm: string)
    requires Rewrites(pm)
    ensures var c := CommandsOf(pm).value; Inert(c.install + "\n") && Inert(c.production + "\n")
  {
    var c := CommandsOf(pm).value;
    var tail := if pm == PNPM then " --prod" else if pm == YARN then " --production=true" else " --production";
    assert c.install == FrozenInstall(pm) && c.production == FrozenInstall(pm) + tail;
    TailIsInert(tail);
    InstallIsInert(pm);
    QuietWithoutN("\n");
    assert Inert("\n");
    hide CommandsOf, FrozenInstall, Inert;
    InertConcat(c.install, "\n");
    InertConcat(c.install, tail + "\n");
    assert c.production + "\n" == c.install + (tail + "\n");
  }

  lemma TailIsInert(tail: string)
    requires tail == " --prod" || tail == " --production=true" || tail == " --production"
    ensures Inert(tail + "\n")
  {
    if tail == " --prod" {
      QuietWithoutN(tail + "\n");
    } else {
      EndIsInert(tail == " --production");
      assert tail + "\n" == " --productio" + (if tail == " --production" then "n\n" else "n=true\n");
    }
  }

  lemma EndIsInert(short: bool)
    ensures Inert(" --productio" + (if short then "n\n" else "n=true\n"))
  {
    var end := if short then "n\n" else "n=true\n";
    QuietWithoutN(" --productio");
    QuietAtHead(end);
    assert Inert(" --productio") && Inert(end);
    hide Inert;
    InertConcat(" --productio", end);
  }

  lemma RunIsQuiet(command: string)
    requires Inert(command + "\n")
    ensures Quiet(Run(command) + "\n") && '\"' !in Run(command) + "\n" && 'F' !in Run(command) + "\n"
  {
    var t := command + "\n";
    QuietWithoutN("RUN ");
    assert '\"' !in "RUN " && 'F' !in "RUN " && '\"' !in t && 'F' !in t;
    hide Quiet;
    QuietConcat("RUN ", t);
    assert Run(command) + "\n" == "RUN " + t;
    assert forall x | x in "RUN " + t :: x in "RUN " || x in t;
  }

  lemma PnpmLockIsInert()
    ensures Inert("pnpm-lock.yaml")
  {
    QuietWithoutN("p");
    QuietAtHead("npm-l");
    QuietWithoutN("ock.yaml");
    assert Inert("p") && Inert("npm-l") && Inert("ock.yaml");
    hide Inert;
    InertConcat("npm-l", "ock.yaml");
    InertConcat("p", "npm-l" + "ock.yaml");
    assert "pnpm-lock.yaml" == "p" + ("npm-l" + "ock.yaml");
  }

  lemma ShortLockIsInert(lock: string)
    requires lock == "yarn.lock" || lock == "bun.lock*"
    ensures Inert(lock)
  {
    var head, rest := if lock == "yarn.lock" then "yar" else "bu", if lock == "yarn.lock" then "n.lock" else "n.lock*";
    QuietWithoutN(head);
    QuietAtHead(rest);
    assert Inert(head) && Inert(rest);
    hide Inert;
    InertConcat(head, rest);
    assert lock == head + rest;
  }

  lemma CopyIsInert()
    ensures Inert("COPY package.json ")
  {
    QuietWithoutN("COPY pack");
    QuietWithoutN("age.jso");
    QuietAtHead("n ");
    InertConcat("age.jso", "n ");
    InertConcat("COPY pack", "age.jso" + "n ");
    assert "COPY package.json " == "COPY pack" + ("age.jso" + "n ");
  }

  lemma ManifestIsInert(pm: string)
    requires Rewrites(pm)
    ensures Inert(CommandsOf(pm).value.manifest)
  {
    var lock := if pm == PNPM then "pnpm-lock.yaml" else if pm == YARN then "yarn.lock" else "bun.lock*";
    assert CommandsOf(pm).value.manifest == ManifestCopy(lock);
    if pm == PNPM {
      PnpmLockIsInert();
    } else {
      ShortLockIsInert(lock);
    }
    CopyIsInert();
    QuietWithoutN(" ./");
    assert Inert(" ./");
    hide Inert, CommandsOf;
    InertConcat("COPY package.json ", lock);
    InertConcat("COPY package.json " + lock, " ./");
  }

  // ---------- The seven rewrites ----------

  function Pattern(k: nat, pm: string, c: Commands): (p: string)
    ensures p != ""
  {
    match k
    case 1 => COPY
    case 2 => NPM_INSTALL + OMIT_DEV
    case 3 => NPM_INSTALL
    case 4 => NPM_RUN
    case 5 => QUOTED_NPM
    case 6 => if pm == BUN then NODE_BUILDER else Run(c.install)
    case _ => if pm == BUN then NODE_STAGE else Run(c.production)
  }

  function Replacement(k: nat, pm: string, c: Commands): string {
    match k
    case 1 => c.manifest
    case 2 => c.production
    case 3 => c.install
    case 4 => pm + " run"
    case 5 => "\"" + pm
    case 6 => if pm == BUN then BUN_BUILDER else COREPACK + Run(c.install)
    case _ => if pm == BUN then BUN_STAGE else COREPACK + Run(c.production)
  }

  /** A piece after the first k rewrites. */
  function Stage(k: nat, p: Piece, pm: string, c: Commands): string {
    match p
    case Plain(text) => text
    case Builder => if k < 6 || pm != BUN then NODE_BUILDER else BUN_BUILDER
    case Runtime => if k < 7 || pm != BUN then NODE_STAGE else BUN_STAGE
    case Manifest => if k < 1 then COPY else c.manifest
    case Install =>
      if k < 3 then "RUN " + NPM_INSTALL + "\n"
      else if k < 6 || pm == BUN then Run(c.install) + "\n"
      else COREPACK + Run(c.install) + "\n"
    case Production =>
      if k < 2 then "RUN " + (NPM_INSTALL + OMIT_DEV) + "\n"
      else if k < 6 || pm == BUN then Run(c.production) + "\n"
      else if k < 7 then COREPACK + Run(c.production) + "\n"
      else COREPACK + (COREPACK + Run(c.production)) + "\n"
    case Script => if k < 4 then NPM_RUN + " " else pm + " run" + " "
    case RunScript => if k < 4 then "RUN " + NPM_RUN + " " else "RUN " + (pm + " run") + " "
    case Quoted => if k < 5 then QUOTED_NPM + "\"," else "\"" + pm + "\","
  }

  ghost predicate PlainIsSafe(p: Piece, pm: string, c: Commands) {
    p.Plain? ==> forall k | 1 <= k <= 7 :: Safe(p.text, Pattern(k, pm, c))
  }

  ghost predicate StageTurns(k: nat, p: Piece, pm: string, c: Commands)
    requires k > 0
  {
    Turns(Stage(k - 1, p, pm, c), Stage(k, p, pm, c), Pattern(k, pm, c), Replacement(k, pm, c))
  }

  // A piece that the rewrite does not touch.
  lemma Untouched(k: nat, p: Piece, pm: string, c: Commands)
    requires k > 0 && Stage(k, p, pm, c) == Stage(k - 1, p, pm, c) && Safe(Stage(k - 1, p, pm, c), Pattern(k, pm, c))
    ensures StageTurns(k, p, pm, c)
  {
    hide Stage, Pattern, Replacement;
    SafeTurns(Stage(k - 1, p, pm, c), Pattern(k, pm, c), Replacement(k, pm, c));
  }

  // A piece in which it replaces the pattern between a and b.
  lemma Rewritten(k: nat, p: Piece, pm: string, c: Commands, a: string, b: string)
    requires k > 0 && Safe(a, Pattern(k, pm, c)) && Safe(b, Pattern(k, pm, c))
    requires Stage(k - 1, p, pm, c) == a + Pattern(k, pm, c) + b && Stage(k, p, pm, c) == a + Replacement(k, pm, c) + b
    ensures StageTurns(k, p, pm, c)
  {
    hide Stage, Pattern, Replacement;
    TurnsBetween(a, b, Pattern(k, pm, c), Replacement(k, pm, c));
  }

  // ---------- Piece by piece ----------

  lemma PatternsBegin(k: nat, pm: string, c: Commands)
    requires 1 <= k <= 7
    ensures if k == 1 then Pattern(k, pm, c)[0] == 'C'
            else if k <= 4 then NpmCommand(Pattern(k, pm, c))
            else if k == 5 then Pattern(k, pm, c)[0] == '\"'
            else if pm == BUN then Pattern(k, pm, c)[0] == 'F' else Pattern(k, pm, c)[0] == 'R'
  {
    if k == 2 {
      assert (NPM_INSTALL + OMIT_DEV)[..5] == NPM_INSTALL[..5];
    }
  }

  lemma InertIsSafe(t: string, k: nat, pm: string, c: Commands)
    requires Inert(t) && 2 <= k <= 7
    ensures Safe(t, Pattern(k, pm, c))
  {
    PatternsBegin(k, pm, c);
    hide Pattern, Safe, Quiet;
    if k <= 4 {
      QuietIsSafe(t, Pattern(k, pm, c));
    } else {
      SafeWithoutFirst(t, Pattern(k, pm, c));
    }
  }

  lemma NothingIsSafe(p: string)
    ensures Safe("", p)
  {}

  lemma ManifestTurns(k: nat, pm: string)
    requires 1 <= k <= 7 && Rewrites(pm)
    ensures StageTurns(k, Manifest, pm, CommandsOf(pm).value)
  {
    var c := CommandsOf(pm).value;
    hide CommandsOf, StageTurns, COPY;
    if k == 1 {
      assert COPY == "" + COPY + "" && c.manifest == "" + c.manifest + "";
      Rewritten(k, Manifest, pm, c, "", "");
    } else {
      ManifestIsInert(pm);
      InertIsSafe(c.manifest, k, pm, c);
      Untouched(k, Manifest, pm, c);
    }
  }

  lemma QuotedTurns(k: nat, pm: string)
    requires 1 <= k <= 7 && Rewrites(pm)
    ensures StageTurns(k, Quoted, pm, CommandsOf(pm).value)
  {
    var c := CommandsOf(pm).value;
    PatternsBegin(k, pm, c);
    if k == 5 {
      assert '\"' !in "," && "\","[1..] == ",";
      assert Part(QUOTED_NPM, "\",") by { assert QUOTED_NPM[1] != "\","[1]; }
      SafeAtHead("\",", QUOTED_NPM);
      QuotedRewritten(pm, c);
    } else {
      var t := Stage(k - 1, Quoted, pm, c);
      QuotedIsQuiet(pm);
      hide CommandsOf, StageTurns, Pattern, Quiet;
      if 2 <= k <= 4 {
        QuietIsSafe(t, Pattern(k, pm, c));
      } else {
        SafeWithoutFirst(t, Pattern(k, pm, c));
      }
      Untouched(k, Quoted, pm, c);
    }
  }

  lemma QuotedRewritten(pm: string, c: Commands)
    requires Safe("\",", QUOTED_NPM)
    ensures StageTurns(5, Quoted, pm, c)
  {
    hide StageTurns, Safe, QUOTED_NPM;
    assert "" + QUOTED_NPM + "\"," == QUOTED_NPM + "\",";
    assert "" + ("\"" + pm) + "\"," == "\"" + pm + "\",";
    assert Safe("", QUOTED_NPM) by { NothingIsSafe(QUOTED_NPM); }
    Rewritten(5, Quoted, pm, c, "", "\",");
  }

  lemma QuotedIsQuiet(pm: string)
    requires Rewrites(pm)
    ensures Quiet(QUOTED_NPM + "\",") && 'C' !in QUOTED_NPM + "\","
    ensures 'R' !in "\"" + pm + "\"," && 'F' !in "\"" + pm + "\","
  {
    QuietWithoutN("\"");
    QuietAtHead("npm\",");
    QuietConcat("\"", "npm\",");
    assert QUOTED_NPM + "\"," == "\"" + "npm\",";
    assert forall x | x in "\"" + pm + "\"," :: x in "\"" || x in pm || x in "\",";
  }

  lemma ScriptTurns(k: nat, pm: string)
    requires 1 <= k <= 7 && Rewrites(pm)
    ensures StageTurns(k, Script, pm, CommandsOf(pm).value)
  {
    var c := CommandsOf(pm).value;
    PatternsBegin(k, pm, c);
    ScriptFacts(pm);
    if k == 4 {
      assert "" + NPM_RUN + " " == NPM_RUN + " " && "" + (pm + " run") + " " == pm + " run" + " ";
      NothingIsSafe(NPM_RUN);
      SafeWithoutFirst(" ", NPM_RUN);
      hide StageTurns, Safe;
      Rewritten(k, Script, pm, c, "", " ");
    } else {
      hide CommandsOf, StageTurns, Safe, Pattern;
      var t := Stage(k - 1, Script, pm, c);
      if k == 2 || k == 3 {
        ScriptIsNoInstall(k, pm, c);
      } else {
        SafeWithoutFirst(t, Pattern(k, pm, c));
      }
      Untouched(k, Script, pm, c);
    }
  }

  lemma ScriptFacts(pm: string)
    requires Rewrites(pm)
    ensures 'C' !in NPM_RUN + " "
    ensures var t := pm + " run" + " "; 'R' !in t && '\"' !in t && 'F' !in t
  {
    assert forall x | x in pm + " run" + " " :: x in pm || x in " run" || x in " ";
  }

  lemma ScriptIsNoInstall(k: nat, pm: string, c: Commands)
    requires k == 2 || k == 3
    ensures Safe(NPM_RUN + " ", Pattern(k, pm, c))
  {
    PatternsBegin(k, pm, c);
    var p := Pattern(k, pm, c);
    assert p[1] == 'p' && p[4] == 'c' by { assert k == 2 ==> p[..5] == NPM_INSTALL[..5]; }
    hide Pattern;
    assert NPM_RUN + " " == "npm ru" + "n ";
    assert Part(p, "npm ru") by { assert "npm ru"[4] != p[4]; }
    SafeAtHead("npm ru", p);
    assert Part(p, "n ") by { assert "n "[1] != p[1]; }
    SafeAtHead("n ", p);
    SafeConcat("npm ru", "n ", p);
  }

  lemma RunScriptTurns(k: nat, pm: string)
    requires 1 <= k <= 7 && Rewrites(pm)
    ensures StageTurns(k, RunScript, pm, CommandsOf(pm).value)
  {
    var c := CommandsOf(pm).value;
    PatternsBegin(k, pm, c);
    RunScriptFacts(pm);
    var t := Stage(k - 1, RunScript, pm, c);
    if k == 4 {
      NoNInRun(NPM_RUN);
      SafeWithoutFirst(" ", NPM_RUN);
      hide StageTurns, Safe;
      Rewritten(k, RunScript, pm, c, "RUN ", " ");
    } else if k == 2 || k == 3 {
      NoNInRun(Pattern(k, pm, c));
      ScriptIsNoInstall(k, pm, c);
      hide CommandsOf, StageTurns, Safe, Pattern;
      SafeConcat("RUN ", NPM_RUN + " ", Pattern(k, pm, c));
      assert t == "RUN " + (NPM_RUN + " ");
      Untouched(k, RunScript, pm, c);
    } else if k >= 6 && pm != BUN {
      ScriptIsNoInstallEither(k, pm);
      hide CommandsOf, StageTurns, Safe, Pattern;
      Untouched(k, RunScript, pm, c);
    } else {
      hide CommandsOf, StageTurns, Safe, Pattern;
      SafeWithoutFirst(t, Pattern(k, pm, c));
      Untouched(k, RunScript, pm, c);
    }
  }

  lemma RunScriptFacts(pm: string)
    requires Rewrites(pm)
    ensures 'C' !in "RUN " + NPM_RUN + " "
    ensures var t := "RUN " + (pm + " run") + " "; '\"' !in t && 'F' !in t && 'R' !in t[1..]
  {
    ScriptFacts(pm);
    assert 'C' !in "RUN ";
    var rest := pm + " run" + " ";
    assert '\"' !in "RUN " && 'F' !in "RUN " && 'R' !in "UN ";
    hide NPM_RUN;
    assert forall x | x in "RUN " + NPM_RUN + " " :: x in "RUN " || x in NPM_RUN + " ";
    assert "RUN " + (pm + " run") + " " == "RUN " + rest && ("RUN " + rest)[1..] == "UN " + rest;
    assert forall x | x in "RUN " + rest :: x in "RUN " || x in rest;
    assert forall x | x in "UN " + rest :: x in "UN " || x in rest;
  }

  // A run command parts from an install where the verbs begin.
  lemma ScriptIsNoInstallEither(k: nat, pm: string)
    requires k >= 6 && UsesCorepack(pm)
    ensures Safe("RUN " + (pm + " run") + " ", Pattern(k, pm, CommandsOf(pm).value))
  {
    var c := CommandsOf(pm).value;
    var tail := CommandsShape(pm);
    RunScriptFacts(pm);
    var t, p, j := "RUN " + (pm + " run") + " ", Pattern(k, pm, c), 5 + |pm|;
    assert pm != BUN;
    hide CommandsOf;
    assert t[j] == 'r' by { assert t == ("RUN " + pm) + " run "; assert |"RUN " + pm| == 4 + |pm|; }
    assert p[j] == 'i' && p[0] == 'R' by { VerbAt(pm, tail); }
    hide Pattern;
    assert Part(p, t);
    SafeAtHead(t, p);
  }

  lemma VerbAt(pm: string, tail: string)
    ensures |Run(FrozenInstall(pm))| > 5 + |pm|
    ensures Run(FrozenInstall(pm))[5 + |pm|] == 'i' && Run(FrozenInstall(pm) + tail)[5 + |pm|] == 'i'
    ensures Run(FrozenInstall(pm))[0] == 'R' && Run(FrozenInstall(pm) + tail)[0] == 'R'
  {
    assert INSTALL[1] == 'i' && |INSTALL| == 8;
    hide INSTALL, FROZEN, SCRIPTS;
    assert Run(FrozenInstall(pm)) == ("RUN " + pm) + (INSTALL + (FROZEN + SCRIPTS));
    assert Run(FrozenInstall(pm) + tail) == ("RUN " + pm) + (INSTALL + (FROZEN + SCRIPTS) + tail);
    assert |"RUN " + pm| == 4 + |pm|;
  }

  // ---------- Base images ----------

  lemma NodeImageIsQuiet()
    ensures Quiet(NODE_IMAGE[..17]) && Quiet(NODE_IMAGE[17..] + "\n") && Quiet(NODE_IMAGE[17..] + AS_BUILDER)
  {
    assert NODE == "node:20-alpi" + "ne";
    assert NODE_IMAGE[..17] == "FROM " + "node:20-alpi" && NODE_IMAGE[17..] == "ne";
    QuietWithoutN("FROM ");
    QuietAtHead("node:20-alpi");
    QuietAtHead("ne");
    QuietWithoutN("\n");
    QuietWithoutN(AS_BUILDER);
    hide Quiet, NODE_IMAGE, AS_BUILDER;
    QuietConcat("FROM ", "node:20-alpi");
    QuietConcat("ne", "\n");
    QuietConcat("ne", AS_BUILDER);
  }

  lemma NodeImageHasNo()
    ensures forall x | x == 'C' || x == '\"' :: x !in NODE_IMAGE && x !in AS_BUILDER && x !in "\n"
  {
    assert 'C' !in NODE && '\"' !in NODE && 'C' !in "FROM " && '\"' !in "FROM ";
    hide NODE;
    assert forall x | x in NODE_IMAGE :: x in "FROM " || x in NODE;
    assert 'C' !in AS_BUILDER && '\"' !in AS_BUILDER;
    assert 'C' !in "\n" && '\"' !in "\n";
  }

  lemma ImagesAreQuiet()
    ensures Quiet(NODE_BUILDER) && Quiet(NODE_STAGE)
    ensures 'C' !in NODE_BUILDER && 'C' !in NODE_STAGE && '\"' !in NODE_BUILDER && '\"' !in NODE_STAGE
  {
    NodeImageIsQuiet();
    NodeImageHasNo();
    assert |NODE_IMAGE| == 19;
    hide Quiet, NODE_IMAGE, AS_BUILDER;
    QuietConcat(NODE_IMAGE[..17], NODE_IMAGE[17..] + AS_BUILDER);
    QuietConcat(NODE_IMAGE[..17], NODE_IMAGE[17..] + "\n");
    assert NODE_BUILDER == NODE_IMAGE[..17] + (NODE_IMAGE[17..] + AS_BUILDER);
    assert NODE_STAGE == NODE_IMAGE[..17] + (NODE_IMAGE[17..] + "\n");
    assert forall x | x in NODE_BUILDER :: x in NODE_IMAGE || x in AS_BUILDER;
    assert forall x | x in NODE_STAGE :: x in NODE_IMAGE || x in "\n";
  }

  lemma ImagesAreNoRuns(p: string)
    requires |p| > 1 && p[0] == 'R' && p[1] == 'U'
    ensures Safe(NODE_BUILDER, p) && Safe(NODE_STAGE, p)
  {
    NodeImageHead();
    assert 'R' !in AS_BUILDER && 'R' !in "\n";
    hide AS_BUILDER, NODE_IMAGE;
    var image := NODE_IMAGE[1..];
    assert Part(p, image) by { assert image[1] != p[1]; }
    assert image[1..] == NODE_IMAGE[2..] && NODE_IMAGE == [NODE_IMAGE[0]] + image;
    assert p[0] !in [NODE_IMAGE[0]];
    hide Safe, Part;
    SafeWithoutFirst([NODE_IMAGE[0]], p);
    SafeAtHead(image, p);
    SafeConcat([NODE_IMAGE[0]], image, p);
    SafeWithoutFirst(AS_BUILDER, p);
    SafeWithoutFirst("\n", p);
    SafeConcat(NODE_IMAGE, AS_BUILDER, p);
    SafeConcat(NODE_IMAGE, "\n", p);
  }

  lemma NodeImageHead()
    ensures |NODE_IMAGE| == 19 && NODE_IMAGE[0] == 'F' && NODE_IMAGE[5] == 'n' && NODE_IMAGE[1] == 'R' && NODE_IMAGE[2] == 'O'
    ensures 'F' !in NODE_IMAGE[1..] && 'R' !in NODE_IMAGE[2..]
  {
    assert |NODE| == 14 && NODE[0] == 'n' && 'F' !in NODE && 'R' !in NODE;
    hide NODE;
    assert NODE_IMAGE[2..] == "OM " + NODE && NODE_IMAGE[1..] == "ROM " + NODE;
  }

  lemma BunImageHead()
    ensures |BUN_IMAGE| > 19 && BUN_IMAGE[0] == 'F' && BUN_IMAGE[5] == 'd' && 'F' !in BUN_IMAGE[1..]
  {
    var image := "docker.io/oven/bun:1-alpine";
    assert 'F' !in image && image[0] == 'd' && |image| == 27;
    assert BUN_IMAGE[1..] == "ROM " + image;
  }

  lemma ImageHeads()
    ensures |NODE_IMAGE| == 19 && NODE_IMAGE[0] == 'F' && NODE_IMAGE[5] == 'n' && 'F' !in NODE_IMAGE[1..]
    ensures |BUN_IMAGE| > 19 && BUN_IMAGE[0] == 'F' && BUN_IMAGE[5] == 'd' && 'F' !in BUN_IMAGE[1..]
    ensures AS_BUILDER != "" && AS_BUILDER[0] == ' ' && 'F' !in AS_BUILDER && 'F' !in "\n"
  {
    NodeImageHead();
    BunImageHead();
    hide NODE_IMAGE, BUN_IMAGE;
  }

  lemma ImagesDiffer()
    ensures Safe(NODE_STAGE, NODE_BUILDER) && Safe(BUN_BUILDER, NODE_STAGE)
  {
    ImageHeads();
    hide NODE_IMAGE, BUN_IMAGE, AS_BUILDER;
    assert Part(NODE_BUILDER, NODE_STAGE) by { assert NODE_STAGE[19] != NODE_BUILDER[19]; }
    assert Part(NODE_STAGE, BUN_BUILDER) by { assert NODE_STAGE[5] != BUN_BUILDER[5]; }
    assert NODE_STAGE[1..] == NODE_IMAGE[1..] + "\n" && BUN_BUILDER[1..] == BUN_IMAGE[1..] + AS_BUILDER;
    SafeAtHead(NODE_STAGE, NODE_BUILDER);
    SafeAtHead(BUN_BUILDER, NODE_STAGE);
  }

  lemma ImageTurns(k: nat, p: Piece, pm: string)
    requires 1 <= k <= 7 && Rewrites(pm) && (p.Builder? || p.Runtime?)
    ensures StageTurns(k, p, pm, CommandsOf(pm).value)
  {
    var c := CommandsOf(pm).value;
    PatternsBegin(k, pm, c);
    ImagesAreQuiet();
    var t := Stage(k - 1, p, pm, c);
    hide CommandsOf, StageTurns, Safe, Quiet, NpmCommand, NODE_BUILDER, NODE_STAGE, BUN_BUILDER, BUN_STAGE;
    if k == 1 || k == 5 {
      SafeWithoutFirst(t, Pattern(k, pm, c));
      Untouched(k, p, pm, c);
    } else if k <= 4 {
      QuietIsSafe(t, Pattern(k, pm, c));
      Untouched(k, p, pm, c);
    } else if pm != BUN {
      ImagesAreNoRuns(Pattern(k, pm, c));
      Untouched(k, p, pm, c);
    } else if p.Builder? == (k == 6) {
      NothingIsSafe(Pattern(k, pm, c));
      assert t == "" + Pattern(k, pm, c) + "" && Stage(k, p, pm, c) == "" + Replacement(k, pm, c) + "";
      Rewritten(k, p, pm, c, "", "");
    } else {
      ImagesDiffer();
      Untouched(k, p, pm, c);
    }
  }

  // ---------- Install commands ----------

  lemma SourcesHaveNo()
    ensures 'C' !in "RUN " + NPM_INSTALL + "\n" && 'C' !in "RUN " + (NPM_INSTALL + OMIT_DEV) + "\n"
  {
    assert 'C' !in "RUN " && 'C' !in NPM_INSTALL && 'C' !in OMIT_DEV && 'C' !in "\n";
    hide NPM_INSTALL, OMIT_DEV;
    assert forall x | x in NPM_INSTALL + OMIT_DEV :: x in NPM_INSTALL || x in OMIT_DEV;
    assert forall x | x in "RUN " + NPM_INSTALL + "\n" :: x in "RUN " || x in NPM_INSTALL || x in "\n";
    assert forall x | x in "RUN " + (NPM_INSTALL + OMIT_DEV) + "\n" :: x in "RUN " || x in NPM_INSTALL + OMIT_DEV || x in "\n";
  }

  lemma InstallRest()
    ensures |NPM_INSTALL| == 23 && NPM_INSTALL[1..] == "pm ci --ig" + "nore-scripts" && NpmCommand(NPM_INSTALL)
  {
    assert NPM_INSTALL == "n" + ("pm ci --ig" + "nore-scripts");
  }

  lemma RestIsQuiet()
    ensures Quiet("pm ci --ig" + ("nore-scripts" + "\n"))
  {
    QuietWithoutN("pm ci --ig");
    QuietAtHead("nore-scripts");
    QuietWithoutN("\n");
    hide Quiet;
    QuietConcat("nore-scripts", "\n");
    QuietConcat("pm ci --ig", "nore-scripts" + "\n");
  }

  // The production pattern does not begin at an install command that ends its line.
  lemma InstallIsNoProduction()
    ensures Safe("RUN " + NPM_INSTALL + "\n", NPM_INSTALL + OMIT_DEV)
  {
    var p, t := NPM_INSTALL + OMIT_DEV, NPM_INSTALL + "\n";
    InstallRest();
    RestIsQuiet();
    assert OMIT_DEV[0] == ' ';
    hide NPM_INSTALL, OMIT_DEV, Quiet;
    assert NpmCommand(p);
    assert Part(p, t) by { assert t[23] != p[23]; }
    assert t[1..] == NPM_INSTALL[1..] + "\n" == "pm ci --ig" + ("nore-scripts" + "\n");
    QuietIsSafe(t[1..], p);
    SafeCons(t, p);
    NoNInRun(p);
    SafeConcat("RUN ", t, p);
    assert "RUN " + NPM_INSTALL + "\n" == "RUN " + t;
  }

  // Nor does the rewritten one at a rewritten install.
  lemma InstallIsNoProductionEither(install: string, tail: string)
    requires Word(Run(install)) && Word(COREPACK) && Part(Run(install + tail), COREPACK)
    requires tail != "" && tail[0] == ' '
    ensures Safe(COREPACK + Run(install) + "\n", Run(install + tail))
    ensures Safe(COREPACK, Run(install + tail))
  {
    var p, t := Run(install + tail), Run(install) + "\n";
    RunsExtend(install, tail);
    assert p == Run(install) + tail;
    assert Part(p, t) by { assert p[|Run(install)|] != t[|Run(install)|]; }
    assert t[1..] == Run(install)[1..] + "\n";
    assert p[0] == Run(install)[0] == 'R';
    hide Run, COREPACK;
    assert forall x | x in t[1..] :: x in Run(install)[1..] || x in "\n";
    SafeAtHead(t, p);
    SafeAtHead(COREPACK, p);
    SafeConcat(COREPACK, t, p);
    assert COREPACK + Run(install) + "\n" == COREPACK + t;
  }

  lemma InstallTurns(k: nat, pm: string)
    requires 1 <= k <= 7 && Rewrites(pm)
    ensures StageTurns(k, Install, pm, CommandsOf(pm).value)
  {
    var c := CommandsOf(pm).value;
    var tail := CommandsShape(pm);
    CorepackIsWord();
    CommandsAreInert(pm);
    RunIsQuiet(c.install);
    PatternsBegin(k, pm, c);
    hide CommandsOf, StageTurns, Safe, Quiet, Inert, NpmCommand, Word, Part, COREPACK, NPM_INSTALL, OMIT_DEV;
    if k == 1 {
      SourcesHaveNo();
      SafeWithoutFirst(Stage(0, Install, pm, c), Pattern(k, pm, c));
      Untouched(k, Install, pm, c);
    } else if k == 2 {
      InstallIsNoProduction();
      Untouched(k, Install, pm, c);
    } else if k == 3 {
      NoNInRun(Pattern(k, pm, c));
      assert Run(c.install) == "RUN " + c.install;
      Rewritten(k, Install, pm, c, "RUN ", "\n");
    } else if k == 4 {
      QuietIsSafe(Stage(3, Install, pm, c), Pattern(k, pm, c));
      Untouched(k, Install, pm, c);
    } else if k == 5 || pm == BUN {
      SafeWithoutFirst(Stage(4, Install, pm, c), Pattern(k, pm, c));
      Untouched(k, Install, pm, c);
    } else if k == 6 {
      CommandsAreWords(pm);
      NothingIsSafe(Pattern(k, pm, c));
      SafeWithoutFirst("\n", Pattern(k, pm, c));
      assert "" + Run(c.install) + "\n" == Run(c.install) + "\n";
      assert "" + (COREPACK + Run(c.install)) + "\n" == COREPACK + Run(c.install) + "\n";
      Rewritten(k, Install, pm, c, "", "\n");
    } else {
      CommandsAreWords(pm);
      InstallIsNoProductionEither(c.install, tail);
      Untouched(k, Install, pm, c);
    }
  }

  lemma NoNInRun(p: string)
    requires NpmCommand(p)
    ensures Safe("RUN ", p) && Safe("\n", p)
  {
    assert 'n' !in "RUN " && 'n' !in "\n";
    SafeWithoutFirst("RUN ", p);
    SafeWithoutFirst("\n", p);
  }

  lemma ProductionTurns(k: nat, pm: string)
    requires 1 <= k <= 7 && Rewrites(pm)
    ensures StageTurns(k, Production, pm, CommandsOf(pm).value)
  {
    var c := CommandsOf(pm).value;
    var tail := CommandsShape(pm);
    CorepackIsWord();
    CommandsAreInert(pm);
    RunIsQuiet(c.production);
    PatternsBegin(k, pm, c);
    hide CommandsOf, StageTurns, Safe, Quiet, Inert, NpmCommand, Word, Part, COREPACK, NPM_INSTALL, OMIT_DEV;
    if k == 1 {
      SourcesHaveNo();
      SafeWithoutFirst(Stage(0, Production, pm, c), Pattern(k, pm, c));
      Untouched(k, Production, pm, c);
    } else if k == 2 {
      NoNInRun(Pattern(k, pm, c));
      assert Run(c.production) == "RUN " + c.production;
      Rewritten(k, Production, pm, c, "RUN ", "\n");
    } else if k <= 4 {
      QuietIsSafe(Stage(2, Production, pm, c), Pattern(k, pm, c));
      Untouched(k, Production, pm, c);
    } else if k == 5 || pm == BUN {
      SafeWithoutFirst(Stage(4, Production, pm, c), Pattern(k, pm, c));
      Untouched(k, Production, pm, c);
    } else if k == 6 {
      ProductionGetsFirst(pm, c, tail);
    } else {
      CommandsAreWords(pm);
      InstallIsNoProductionEither(c.install, tail);
      SafeWithoutFirst("\n", Pattern(k, pm, c));
      Rewritten(k, Production, pm, c, COREPACK, "\n");
    }
  }

  lemma ProductionGetsFirst(pm: string, c: Commands, tail: string)
    requires pm != BUN && c.production == c.install + tail && 'R' !in tail
    ensures StageTurns(6, Production, pm, c)
  {
    hide StageTurns, Safe, COREPACK;
    RunsExtend(c.install, tail);
    NothingIsSafe(Run(c.install));
    assert forall x | x in tail + "\n" :: x in tail || x in "\n";
    SafeWithoutFirst(tail + "\n", Run(c.install));
    hide Run;
    assert Run(c.production) + "\n" == "" + Run(c.install) + (tail + "\n");
    assert COREPACK + Run(c.production) + "\n" == "" + (COREPACK + Run(c.install)) + (tail + "\n");
    Rewritten(6, Production, pm, c, "", tail + "\n");
  }

  // ---------- The whole template ----------

  lemma PieceTurns(k: nat, p: Piece, pm: string)
    requires 1 <= k <= 7 && Rewrites(pm) && PlainIsSafe(p, pm, CommandsOf(pm).value)
    ensures StageTurns(k, p, pm, CommandsOf(pm).value)
  {
    var c := CommandsOf(pm).value;
    hide CommandsOf, StageTurns, Safe, Pattern;
    match p {
      case Plain(text) => Untouched(k, p, pm, c);
      case Builder => ImageTurns(k, p, pm);
      case Runtime => ImageTurns(k, p, pm);
      case RunScript => RunScriptTurns(k, pm);
      case Manifest => ManifestTurns(k, pm);
      case Install => InstallTurns(k, pm);
      case Production => ProductionTurns(k, pm);
      case Script => ScriptTurns(k, pm);
      case Quoted => QuotedTurns(k, pm);
    }
  }

  function AfterPasses(k: nat, pm: string, c: Commands): Piece -> string { p => Stage(k, p, pm, c) }

  lemma PassTurns(k: nat, pieces: seq<Piece>, pm: string)
    requires 1 <= k <= 7 && Rewrites(pm) && forall p | p in pieces :: PlainIsSafe(p, pm, CommandsOf(pm).value)
    ensures var c := CommandsOf(pm).value;
            Pass(k, Flat(pieces, AfterPasses(k - 1, pm, c)), pm, c) == Flat(pieces, AfterPasses(k, pm, c))
  {
    var c := CommandsOf(pm).value;
    hide CommandsOf, PlainIsSafe, Pattern, Replacement, Stage;
    forall p | p in pieces ensures Turns(AfterPasses(k - 1, pm, c)(p), AfterPasses(k, pm, c)(p), Pattern(k, pm, c), Replacement(k, pm, c)) {
      PieceTurns(k, p, pm);
    }
    FlatTurns(pieces, AfterPasses(k - 1, pm, c), AfterPasses(k, pm, c), Pattern(k, pm, c), Replacement(k, pm, c));
  }

  lemma {:induction false} FlatAlike(pieces: seq<Piece>, f: Piece -> string, g: Piece -> string)
    requires forall p: Piece :: f(p) == g(p)
    ensures Flat(pieces, f) == Flat(pieces, g)
  {
    if pieces != [] {
      FlatAlike(pieces[1..], f, g);
    }
  }

  lemma SourceIsFirst(p: Piece, pm: string, c: Commands)
    ensures Stage(0, p, pm, c) == Source(p)
  {
    hide COPY, NPM_INSTALL, OMIT_DEV, NPM_RUN, QUOTED_NPM, NODE_BUILDER, NODE_STAGE;
  }

  lemma TargetIsLast(p: Piece, pm: string, c: Commands)
    requires Rewrites(pm)
    ensures Stage(7, p, pm, c) == Target(p, pm, c)
  {
    assert UsesCorepack(pm) <==> pm != BUN;
    hide COREPACK, Run, NODE_BUILDER, NODE_STAGE, BUN_BUILDER, BUN_STAGE, PNPM, YARN, BUN;
    if pm == BUN {
      assert "" + Run(c.install) == Run(c.install) && "" + ("" + Run(c.production)) == Run(c.production);
    }
  }

  lemma FirstAndLast(pieces: seq<Piece>, pm: string)
    requires Rewrites(pm)
    ensures var c := CommandsOf(pm).value;
            && Flat(pieces, Source) == Flat(pieces, AfterPasses(0, pm, c))
            && Flat(pieces, AfterPasses(7, pm, c)) == Flat(pieces, p => Target(p, pm, c))
  {
    var c := CommandsOf(pm).value;
    hide CommandsOf, Source, Target, Stage, Rewrites;
    forall p ensures Source(p) == AfterPasses(0, pm, c)(p) {
      SourceIsFirst(p, pm, c);
    }
    FlatAlike(pieces, Source, AfterPasses(0, pm, c));
    var target := p => Target(p, pm, c);
    forall p ensures AfterPasses(7, pm, c)(p) == target(p) {
      TargetIsLast(p, pm, c);
    }
    FlatAlike(pieces, AfterPasses(7, pm, c), target);
  }

  function Pass(k: nat, s: string, pm: string, c: Commands): string {
    ReplaceAll(s, Pattern(k, pm, c), Replacement(k, pm, c))
  }

  lemma FivePasses(s: string, pm: string, c: Commands)
    ensures Substituted(s, pm, c) == Pass(5, Pass(4, Pass(3, Pass(2, Pass(1, s, pm, c), pm, c), pm, c), pm, c), pm, c)
  {
    hide ReplaceAll, COPY, NPM_INSTALL, OMIT_DEV, NPM_RUN, QUOTED_NPM;
  }

  lemma TwoPasses(s: string, pm: string, c: Commands)
    ensures (if pm == BUN then WithBunImages(s) else WithCorepack(s, c)) == Pass(7, Pass(6, s, pm, c), pm, c)
  {
    hide ReplaceAll, COREPACK, Run, NODE_BUILDER, NODE_STAGE, BUN_BUILDER, BUN_STAGE;
  }

  // The rendering is the seven rewrites in order.
  lemma SevenPasses(content: string, pm: string)
    requires Rewrites(pm)
    ensures var c := CommandsOf(pm).value;
            var c5 := Pass(5, Pass(4, Pass(3, Pass(2, Pass(1, content, pm, c), pm, c), pm, c), pm, c), pm, c);
            RenderNodePackageManagerTemplate(content, pm) == Pass(7, Pass(6, c5, pm, c), pm, c)
  {
    var c := CommandsOf(pm).value;
    if pm == BUN {
      RenderedWithBunImages(content);
    } else {
      RenderedWithCorepack(content, pm);
    }
    assert BUN != PNPM && BUN != YARN;
    hide RenderNodePackageManagerTemplate, CommandsOf, Pass, Substituted, WithCorepack, WithBunImages;
    FivePasses(content, pm, c);
    TwoPasses(Substituted(content, pm, c), pm, c);
  }

  /**
   For every template made of such pieces the rendering is the concatenation of
   the pieces' translations, in their order.
   */
  lemma RendersPieceByPiece(pieces: seq<Piece>, pm: string)
    requires Rewrites(pm) && forall p | p in pieces :: PlainIsSafe(p, pm, CommandsOf(pm).value)
    ensures RenderNodePackageManagerTemplate(Flat(pieces, Source), pm) == Flat(pieces, p => Target(p, pm, CommandsOf(pm).value))
  {
    var c := CommandsOf(pm).value;
    SevenPasses(Flat(pieces, Source), pm);
    FirstAndLast(pieces, pm);
    hide CommandsOf, PlainIsSafe, Pattern, Replacement, Stage, Pass, RenderNodePackageManagerTemplate, Flat, Source, Target;
    PassTurns(1, pieces, pm);
    PassTurns(2, pieces, pm);
    PassTurns(3, pieces, pm);
    PassTurns(4, pieces, pm);
    PassTurns(5, pieces, pm);
    PassTurns(6, pieces, pm);
    PassTurns(7, pieces, pm);
  }
}
