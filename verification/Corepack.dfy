/**
 How many corepack lines the rendering writes, in terms of the template alone:
 where the install commands behind the substitutions come from.
 */
module Corepack {
  import opened Template
  import opened Rendering

  // ---------- Counting at the R of a word ----------

  // At how many R's the text satisfies the test.
  ghost function Number(s: string, test: string -> bool): nat {
    if s == "" then 0 else Number(s[1..], test) + if s[0] == 'R' && test(s) then 1 else 0
  }

  ghost function Begins(p: string): string -> bool { t => p <= t }

  lemma {:induction false} NumberSkips(a: string, s: string, test: string -> bool)
    requires 'R' !in a
    ensures Number(a + s, test) == Number(s, test)
  {
    if a == "" {
      assert a + s == s;
    } else {
      assert (a + s)[1..] == a[1..] + s;
      NumberSkips(a[1..], s, test);
    }
  }

  /** A word cannot overlap itself, so that every occurrence counts. */
  lemma {:induction false} CountIsNumber(s: string, p: string)
    requires Word(p)
    ensures Count(s, p) == Number(s, Begins(p))
    decreases |s|
  {
    if s != "" {
      if p <= s {
        CountIsNumber(s[|p|..], p);
        assert s[1..] == p[1..] + s[|p|..];
        NumberSkips(p[1..], s[|p|..], Begins(p));
      } else {
        CountIsNumber(s[1..], p);
      }
    }
  }

  /** A rewrite without R moves no R: test after it what stood at each R before it. */
  lemma {:induction false} NumberAfter(s: string, p: string, n: string, test: string -> bool)
    requires p != "" && 'R' !in p && 'R' !in n
    ensures Number(ReplaceAll(s, p, n), test) == Number(s, t => test(ReplaceAll(t, p, n)))
    decreases |s|
  {
    var before := (t: string) => test(ReplaceAll(t, p, n));
    if s != "" {
      if p <= s {
        NumberAfter(s[|p|..], p, n, test);
        NumberSkips(n, ReplaceAll(s[|p|..], p, n), test);
        assert s == p + s[|p|..];
        NumberSkips(p, s[|p|..], before);
      } else {
        NumberAfter(s[1..], p, n, test);
        assert ReplaceAll(s, p, n)[1..] == ReplaceAll(s[1..], p, n);
      }
    }
  }

  lemma {:induction false} NumberSame(s: string, a: string -> bool, b: string -> bool)
    requires forall t :: a(t) <==> b(t)
    ensures Number(s, a) == Number(s, b)
  {
    if s != "" {
      NumberSame(s[1..], a, b);
    }
  }

  lemma {:induction false} NumberOfEither(s: string, a: string -> bool, b: string -> bool)
    requires forall t :: !(a(t) && b(t))
    ensures Number(s, t => a(t) || b(t)) == Number(s, a) + Number(s, b)
  {
    if s != "" {
      NumberOfEither(s[1..], a, b);
    }
  }

  // ---------- One rewrite ----------

  /** Where neither the pattern nor the substitute can begin, nothing changes. */
  lemma {:induction false} BeginningKept(t: string, b: string, p: string, n: string)
    requires p != "" && n != "" && Safe(b, p) && Safe(b, n)
    ensures b <= ReplaceAll(t, p, n) <==> b <= t
    decreases |b|
  {
    if b != "" && t != "" {
      assert b[0..] == b && Part(p, b[0..]) && Part(n, b[0..]);
      if p <= t {
        BeginsOther(t, p, b);
        BeginsOther(n + ReplaceAll(t[|p|..], p, n), n, b);
      } else {
        SafeRest(b, p);
        SafeRest(b, n);
        BeginningKept(t[1..], b[1..], p, n);
        PrefixCons(b, ReplaceAll(t, p, n));
        PrefixCons(b, t);
      }
    }
  }

  lemma PrefixCons(b: string, t: string)
    requires b != "" && t != ""
    ensures b <= t <==> b[0] == t[0] && b[1..] <= t[1..]
  {
    if b[0] == t[0] && b[1..] <= t[1..] {
      assert b == [b[0]] + b[1..] && t == [t[0]] + t[1..];
    }
  }

  lemma BeginsOther(t: string, p: string, b: string)
    requires p <= t && Part(p, b)
    ensures !(b <= t)
  {
    var j :| 0 <= j < |p| && j < |b| && p[j] != b[j];
    assert t[j] == p[j];
  }

  lemma SafeRest(b: string, p: string)
    requires b != "" && Safe(b, p)
    ensures Safe(b[1..], p)
  {
    forall i | 0 <= i < |b[1..]| ensures Part(p, b[1..][i..]) {
      assert b[1..][i..] == b[i + 1..];
    }
  }

  /** At the place of the pattern its substitute decides. */
  lemma BeginningMoves(t: string, b: string, p: string, n: string)
    requires p != "" && n != "" && b != "" && Safe(b[1..], p) && Safe(b[1..], n)
    ensures b <= ReplaceAll(t, p, n) <==> if p <= t then b <= n + ReplaceAll(t[|p|..], p, n) else b <= t
  {
    if t != "" && !(p <= t) {
      BeginningKept(t[1..], b[1..], p, n);
      PrefixCons(b, ReplaceAll(t, p, n));
      PrefixCons(b, t);
    }
  }

  /** What stands before the place is kept. */
  lemma {:induction false} BehindKept(t: string, a: string, b: string, p: string, n: string)
    requires p != "" && n != "" && Safe(a, p) && Safe(a, n)
    ensures a + b <= ReplaceAll(t, p, n) <==> a <= t && b <= ReplaceAll(t[|a|..], p, n)
    decreases |a|
  {
    if a == "" {
      assert a + b == b && t[0..] == t;
    } else if t != "" {
      assert a[0..] == a && Part(p, a[0..]) && Part(n, a[0..]);
      if p <= t {
        BeginsOther(t, p, a);
        PartLonger(n, a, b);
        BeginsOther(n + ReplaceAll(t[|p|..], p, n), n, a + b);
      } else {
        SafeRest(a, p);
        SafeRest(a, n);
        assert (a + b)[1..] == a[1..] + b;
        BehindKept(t[1..], a[1..], b, p, n);
        PrefixCons(a + b, ReplaceAll(t, p, n));
        PrefixCons(a, t);
        if a <= t {
          assert t[1..][|a| - 1..] == t[|a|..];
        }
      }
    }
  }

  // ---------- The five substitutions ----------

  // The substitution that a manager's rewrites begin with, and what they keep.
  function Step(k: nat, t: string, pm: string, c: Commands): string { ReplaceAll(t, Pattern(k, pm, c), Replacement(k, pm, c)) }

  // The manager's name begins nowhere.
  predicate Nameless(t: string, pm: string) {
    if pm == PNPM then forall i | 0 <= i < |t| :: t[i] == 'p' ==> i + 1 < |t| && t[i + 1] != 'n' else 'y' !in t
  }

  // Text in which neither the patterns nor what they become can begin.
  predicate Mild(t: string, pm: string) { Quiet(t) && 'C' !in t && '\"' !in t && Nameless(t, pm) }

  lemma MildConcat(a: string, b: string, pm: string)
    requires Mild(a, pm) && Mild(b, pm)
    ensures Mild(a + b, pm)
  {
    QuietConcat(a, b);
    hide Quiet;
    assert forall x | x in a + b :: x in a || x in b;
  }

  lemma NameIsSafe(t: string, pm: string, n: string)
    requires UsesCorepack(pm) && Nameless(t, pm) && pm <= n
    ensures Safe(t, n)
  {
    if pm == YARN {
      assert n[0] == YARN[0] == 'y';
      SafeWithoutFirst(t, n);
    } else {
      assert n[0] == PNPM[0] == 'p' && n[1] == PNPM[1] == 'n';
      forall i | 0 <= i < |t| ensures Part(n, t[i..]) {
        assert t[i..][0] == t[i];
        if t[i] == 'p' {
          assert t[i..][1] == t[i + 1] != n[1];
        }
      }
    }
  }

  // How what is looked for, and what it becomes, begins.
  lemma StepHeads(k: nat, pm: string)
    requires 1 <= k <= 5 && UsesCorepack(pm)
    ensures var c := CommandsOf(pm).value;
            && Replacement(k, pm, c) != ""
            && (k == 1 ==> Pattern(k, pm, c)[0] == 'C' && Replacement(k, pm, c)[0] == 'C')
            && (2 <= k <= 4 ==> NpmCommand(Pattern(k, pm, c)) && pm <= Replacement(k, pm, c))
            && (k == 5 ==> Pattern(k, pm, c)[0] == '\"' && Replacement(k, pm, c)[0] == '\"')
  {
    var c := CommandsOf(pm).value;
    PatternsBegin(k, pm, c);
    hide INSTALL, FROZEN, SCRIPTS;
    assert pm <= FrozenInstall(pm) && FrozenInstall(pm) <= c.production;
    assert k == 1 ==> "COPY package.json "[0] == 'C';
  }

  lemma MildIsSafe(k: nat, t: string, pm: string)
    requires 1 <= k <= 5 && UsesCorepack(pm) && Mild(t, pm)
    ensures var c := CommandsOf(pm).value; Safe(t, Pattern(k, pm, c)) && Safe(t, Replacement(k, pm, c))
  {
    var c := CommandsOf(pm).value;
    StepHeads(k, pm);
    hide CommandsOf, Pattern, Replacement, Safe, Quiet, UsesCorepack;
    if 2 <= k <= 4 {
      QuietIsSafe(t, Pattern(k, pm, c));
      NameIsSafe(t, pm, Replacement(k, pm, c));
    } else {
      SafeWithoutFirst(t, Pattern(k, pm, c));
      SafeWithoutFirst(t, Replacement(k, pm, c));
    }
  }

  // A command behind RUN, and one substitution.
  lemma RunStep(k: nat, t: string, x: string, pm: string)
    requires 1 <= k <= 5 && UsesCorepack(pm) && x != "" && Mild("RUN ", pm) && Mild(x[1..], pm)
    ensures var c := CommandsOf(pm).value;
            var p, n := Pattern(k, pm, c), Replacement(k, pm, c);
            Run(x) <= Step(k, t, pm, c) <==>
              "RUN " <= t && if p <= t[4..] then x <= n + Step(k, t[4..][|p|..], pm, c) else x <= t[4..]
  {
    var c := CommandsOf(pm).value;
    var p, n := Pattern(k, pm, c), Replacement(k, pm, c);
    StepHeads(k, pm);
    MildIsSafe(k, "RUN ", pm);
    MildIsSafe(k, x[1..], pm);
    hide CommandsOf, Pattern, Replacement, Safe, Mild, UsesCorepack, ReplaceAll;
    BehindKept(t, "RUN ", x, p, n);
    if "RUN " <= t {
      BeginningMoves(t[4..], x, p, n);
    }
  }

  lemma RunPrefix(t: string, x: string)
    ensures Run(x) <= t <==> "RUN " <= t && x <= t[4..]
  {
    if "RUN " <= t && x <= t[4..] {
      assert t == "RUN " + t[4..];
    }
  }

  // ---------- The commands are mild behind their first character ----------

  lemma MildWithout(t: string, pm: string)
    requires UsesCorepack(pm) && 'n' !in t && 'p' !in t && 'y' !in t && 'C' !in t && '\"' !in t
    ensures Mild(t, pm)
  {
    QuietWithoutN(t);
    forall i | 0 <= i < |t| ensures t[i] != 'p' {
      assert t[i] in t;
    }
  }

  // A text with at most a harmless n or p, and that at its head.
  lemma MildAtHead(t: string, pm: string)
    requires UsesCorepack(pm) && |t| > 1 && t[0] in {'n', 'p'} && t[1] !in {'n', 'p', 'y', 'C', '\"'}
    requires 'n' !in t[2..] && 'p' !in t[2..] && 'y' !in t[2..] && 'C' !in t[2..] && '\"' !in t[2..]
    ensures Mild(t, pm)
  {
    forall i | 1 <= i < |t| ensures t[i] !in {'n', 'p', 'y', 'C', '\"'} {
      assert i > 1 ==> t[i] == t[2..][i - 2];
    }
  }

  lemma ScriptsAreMild(pm: string)
    requires UsesCorepack(pm)
    ensures Mild(SCRIPTS, pm)
  {
    hide Mild;
    MildWithout(" --ig", pm);
    MildAtHead("nore-scri", pm);
    MildAtHead("pts", pm);
    MildConcat(" --ig", "nore-scri", pm);
    MildConcat(" --ig" + "nore-scri", "pts", pm);
    assert SCRIPTS == " --ig" + "nore-scri" + "pts";
  }

  lemma FrozenIsMild(pm: string)
    requires UsesCorepack(pm)
    ensures Mild(FROZEN, pm)
  {
    hide Mild;
    MildWithout(" --froze", pm);
    MildAtHead("n-lockfile", pm);
    MildConcat(" --froze", "n-lockfile", pm);
    assert FROZEN == " --froze" + "n-lockfile";
  }

  lemma VerbIsMild(pm: string)
    requires UsesCorepack(pm)
    ensures Mild(pm[1..] + INSTALL, pm)
  {
    InstallVerbIsInert(pm);
    var t := pm + INSTALL;
    assert t[1..] == pm[1..] + INSTALL;
    forall i | 0 <= i < |t[1..]| ensures Off(t[1..], i) {
      assert Off(t, i + 1);
    }
    assert '\"' !in t[1..] && 'C' !in pm[1..] && 'C' !in INSTALL;
    assert 'y' !in YARN[1..] && 'y' !in INSTALL && 'p' !in INSTALL;
    if pm == PNPM {
      forall i | 0 <= i < |t[1..]| ensures t[1..][i] == 'p' ==> i == 1 {
        assert i > 2 ==> t[1..][i] == INSTALL[i - 3];
      }
      assert t[1..][2] == 'm';
    }
  }

  lemma InstallIsMild(pm: string)
    requires UsesCorepack(pm)
    ensures Mild(FrozenInstall(pm)[1..], pm)
  {
    VerbIsMild(pm);
    FrozenIsMild(pm);
    ScriptsAreMild(pm);
    hide Mild, INSTALL, FROZEN, SCRIPTS;
    MildConcat(FROZEN, SCRIPTS, pm);
    MildConcat(pm[1..] + INSTALL, FROZEN + SCRIPTS, pm);
    assert FrozenInstall(pm)[1..] == pm[1..] + INSTALL + (FROZEN + SCRIPTS);
  }

  // What makes an install a production install.
  function Tail(pm: string): string { if pm == PNPM then " --prod" else " --production=true" }

  lemma TailIsMild(pm: string)
    requires UsesCorepack(pm)
    ensures Mild(Tail(pm), pm)
  {
    hide Mild;
    if pm == PNPM {
      MildWithout(" --", pm);
      MildAtHead("prod", pm);
      MildConcat(" --", "prod", pm);
      assert Tail(pm) == " --" + "prod";
    } else {
      MildWithout(" --", pm);
      MildAtHead("productio", pm);
      MildAtHead("n=true", pm);
      MildConcat("productio", "n=true", pm);
      MildConcat(" --", "productio" + "n=true", pm);
      assert Tail(pm) == " --" + ("productio" + "n=true");
    }
  }

  lemma NpmInstallIsMild(pm: string)
    requires UsesCorepack(pm)
    ensures Mild(NPM_INSTALL[1..], pm) && Mild(OMIT_DEV, pm)
  {
    hide Mild;
    MildWithout(OMIT_DEV, pm);
    MildAtHead("pm ci --ig", pm);
    MildAtHead("nore-scri", pm);
    MildAtHead("pts", pm);
    MildConcat("pm ci --ig", "nore-scri", pm);
    MildConcat("pm ci --ig" + "nore-scri", "pts", pm);
    assert NPM_INSTALL[1..] == "pm ci --ig" + "nore-scri" + "pts";
  }

  lemma CorepackIsMild(pm: string)
    requires UsesCorepack(pm)
    ensures Mild("RUN ", pm) && Mild(COREPACK, pm)
  {
    hide Mild;
    MildWithout("RUN ", pm);
    MildWithout("core", pm);
    MildAtHead("pack e", pm);
    MildAtHead("nable\n", pm);
    MildConcat("core", "pack e", pm);
    MildConcat("core" + "pack e", "nable\n", pm);
    MildConcat("RUN ", "core" + "pack e" + "nable\n", pm);
    assert COREPACK == "RUN " + ("core" + "pack e" + "nable\n");
  }

  // ---------- What one substitution makes of a command ----------

  predicate Steps(k: nat, pm: string) { 1 <= k <= 5 && UsesCorepack(pm) }

  predicate Behind(x: string, pm: string) { x != "" && Mild("RUN ", pm) && Mild(x[1..], pm) }

  /** Neither the pattern nor its substitute agrees with the command. */
  lemma StepKeeps(k: nat, t: string, x: string, pm: string)
    requires Steps(k, pm) && Behind(x, pm)
    requires var c := CommandsOf(pm).value; Part(Pattern(k, pm, c), x) && Part(Replacement(k, pm, c), x)
    ensures Run(x) <= Step(k, t, pm, CommandsOf(pm).value) <==> Run(x) <= t
  {
    var c := CommandsOf(pm).value;
    var p, n := Pattern(k, pm, c), Replacement(k, pm, c);
    hide CommandsOf, Pattern, Replacement, Mild, Step, Run;
    RunStep(k, t, x, pm);
    RunPrefix(t, x);
    if "RUN " <= t && p <= t[4..] {
      BeginsOther(t[4..], p, x);
      BeginsOther(n + Step(k, t[4..][|p|..], pm, c), n, x);
    }
  }

  /** The substitute begins with the command. */
  lemma StepMakes(k: nat, t: string, x: string, pm: string)
    requires Steps(k, pm) && Behind(x, pm)
    requires var c := CommandsOf(pm).value; Part(Pattern(k, pm, c), x) && x <= Replacement(k, pm, c)
    ensures var c := CommandsOf(pm).value; Run(x) <= Step(k, t, pm, c) <==> Run(Pattern(k, pm, c)) <= t || Run(x) <= t
  {
    var c := CommandsOf(pm).value;
    var p, n := Pattern(k, pm, c), Replacement(k, pm, c);
    hide CommandsOf, Pattern, Replacement, Mild, Step, Run;
    RunStep(k, t, x, pm);
    RunPrefix(t, x);
    RunPrefix(t, p);
    if "RUN " <= t && p <= t[4..] {
      BeginsOther(t[4..], p, x);
    }
  }

  /** The pattern begins with the command, and its substitute does not. */
  lemma StepTakes(k: nat, t: string, x: string, pm: string)
    requires Steps(k, pm) && Behind(x, pm)
    requires var c := CommandsOf(pm).value; x <= Pattern(k, pm, c) && Part(Replacement(k, pm, c), x)
    ensures var c := CommandsOf(pm).value; Run(x) <= Step(k, t, pm, c) <==> Run(x) <= t && !(Run(Pattern(k, pm, c)) <= t)
  {
    var c := CommandsOf(pm).value;
    var p, n := Pattern(k, pm, c), Replacement(k, pm, c);
    hide CommandsOf, Pattern, Replacement, Mild, Step, Run;
    RunStep(k, t, x, pm);
    RunPrefix(t, x);
    RunPrefix(t, p);
    if "RUN " <= t && p <= t[4..] {
      BeginsOther(n + Step(k, t[4..][|p|..], pm, c), n, x);
    }
  }

  /** The command is the substitute with something behind it. */
  lemma StepJoins(k: nat, t: string, y: string, pm: string)
    requires Steps(k, pm) && Mild(y, pm)
    requires var c := CommandsOf(pm).value;
             Behind(Replacement(k, pm, c) + y, pm) && Part(Pattern(k, pm, c), Replacement(k, pm, c) + y)
    ensures var c := CommandsOf(pm).value;
            Run(Replacement(k, pm, c) + y) <= Step(k, t, pm, c) <==>
              Run(Pattern(k, pm, c) + y) <= t || Run(Replacement(k, pm, c) + y) <= t
  {
    var c := CommandsOf(pm).value;
    var p, n := Pattern(k, pm, c), Replacement(k, pm, c);
    hide CommandsOf, Pattern, Replacement, Mild, Run, Step;
    RunStep(k, t, n + y, pm);
    RunPrefix(t, n + y);
    RunPrefix(t, p + y);
    if "RUN " <= t {
      SumBegins(p, y, t[4..]);
      if p <= t[4..] {
        BeginsOther(t[4..], p, n + y);
        JoinedHere(k, t[4..][|p|..], y, pm);
      }
    }
  }

  lemma JoinedHere(k: nat, rest: string, y: string, pm: string)
    requires Steps(k, pm) && Mild(y, pm)
    ensures var c := CommandsOf(pm).value;
            var p, n := Pattern(k, pm, c), Replacement(k, pm, c);
            n + y <= n + Step(k, rest, pm, c) <==> y <= rest
  {
    var c := CommandsOf(pm).value;
    var p, n := Pattern(k, pm, c), Replacement(k, pm, c);
    MildIsSafe(k, y, pm);
    StepHeads(k, pm);
    hide CommandsOf, Pattern, Replacement, Safe, ReplaceAll;
    BeginningKept(rest, y, p, n);
    SamePrefix(n, y, Step(k, rest, pm, c));
  }

  lemma SamePrefix(a: string, b: string, rest: string)
    ensures a + b <= a + rest <==> b <= rest
  {
    SumBegins(a, b, a + rest);
    assert (a + rest)[|a|..] == rest;
  }

  lemma SumBegins(a: string, b: string, t: string)
    ensures a + b <= t <==> a <= t && b <= t[|a|..]
  {
    if a + b <= t {
      assert (a + b)[..|a|] == a == t[..|a|] && (a + b)[|a|..] == b;
    }
    if a <= t && b <= t[|a|..] {
      assert t == a + t[|a|..];
    }
  }

  // ---------- All of them ----------

  // How the commands begin, and where the texts part.
  lemma CommandsPart(pm: string)
    requires UsesCorepack(pm)
    ensures var c := CommandsOf(pm).value;
            && c.install == FrozenInstall(pm) && c.production == c.install + Tail(pm)
            && (forall k | 1 <= k <= 5 :: Part(Pattern(k, pm, c), c.install) && Part(Pattern(k, pm, c), c.production))
            && (forall k | k == 1 || k == 4 || k == 5 :: Part(Replacement(k, pm, c), c.install) && Part(Replacement(k, pm, c), c.production))
  {
    var c := CommandsOf(pm).value;
    hide FROZEN, SCRIPTS;
    var x := FrozenInstall(pm);
    assert c.production == x + Tail(pm);
    assert x[0] == pm[0] && (pm[0] == 'p' || pm[0] == 'y');
    assert x[|pm| + 1] == INSTALL[1] == 'i' && (pm + " run")[|pm| + 1] == 'r';
    forall k | 1 <= k <= 5 ensures Part(Pattern(k, pm, c), x) {
      PatternsBegin(k, pm, c);
    }
    forall k | k == 1 || k == 4 || k == 5 ensures Part(Replacement(k, pm, c), x) {
      StepHeads(k, pm);
      assert k == 4 ==> Replacement(k, pm, c)[|pm| + 1] != x[|pm| + 1];
    }
    hide CommandsOf, Pattern, Replacement, FrozenInstall;
    forall k | 1 <= k <= 5 ensures Part(Pattern(k, pm, c), c.production) {
      PartLonger(Pattern(k, pm, c), x, Tail(pm));
    }
    forall k | k == 1 || k == 4 || k == 5 ensures Part(Replacement(k, pm, c), c.production) {
      PartLonger(Replacement(k, pm, c), x, Tail(pm));
    }
  }

  lemma SubstitutedInSteps(t: string, pm: string)
    requires UsesCorepack(pm)
    ensures var c := CommandsOf(pm).value;
            Substituted(t, pm, c) == Step(5, Step(4, Step(3, Step(2, Step(1, t, pm, c), pm, c), pm, c), pm, c), pm, c)
  {
    hide CommandsOf, ReplaceAll;
  }

  lemma CommandsAreBehind(pm: string)
    requires UsesCorepack(pm)
    ensures var c := CommandsOf(pm).value;
            Behind(c.install, pm) && Behind(c.production, pm) && Behind(NPM_INSTALL, pm) && Behind(NPM_INSTALL + OMIT_DEV, pm)
            && Behind(NPM_INSTALL + Tail(pm), pm) && Mild(Tail(pm), pm)
  {
    CommandsPart(pm);
    InstallIsMild(pm);
    TailIsMild(pm);
    NpmInstallIsMild(pm);
    CorepackIsMild(pm);
    var x := FrozenInstall(pm);
    assert x != "" && NPM_INSTALL != "";
    hide CommandsOf, FrozenInstall, Mild, NPM_INSTALL, OMIT_DEV, Tail, COREPACK, Part;
    MildConcat(x[1..], Tail(pm), pm);
    MildConcat(NPM_INSTALL[1..], OMIT_DEV, pm);
    MildConcat(NPM_INSTALL[1..], Tail(pm), pm);
    assert (x + Tail(pm))[1..] == x[1..] + Tail(pm);
    assert (NPM_INSTALL + OMIT_DEV)[1..] == NPM_INSTALL[1..] + OMIT_DEV;
    assert (NPM_INSTALL + Tail(pm))[1..] == NPM_INSTALL[1..] + Tail(pm);
  }

  // Where the npm commands part from what is looked for and what it becomes.
  lemma NpmPart(pm: string)
    requires UsesCorepack(pm)
    ensures var c := CommandsOf(pm).value;
            && Part(COPY, NPM_INSTALL) && Part(c.manifest, NPM_INSTALL) && Part(c.production, NPM_INSTALL)
            && Part(NPM_INSTALL + OMIT_DEV, NPM_INSTALL + Tail(pm))
  {
    var c := CommandsOf(pm).value;
    StepHeads(1, pm);
    StepHeads(2, pm);
    assert COPY[0] == 'C' && NPM_INSTALL[0] == 'n' && c.manifest[0] == 'C' && c.production[0] == pm[0] != 'n';
    assert OMIT_DEV[3] == 'o' && Tail(pm)[3] == 'p';
    hide CommandsOf, NPM_INSTALL;
    assert (NPM_INSTALL + OMIT_DEV)[|NPM_INSTALL| + 3] == OMIT_DEV[3] && (NPM_INSTALL + Tail(pm))[|NPM_INSTALL| + 3] == Tail(pm)[3];
  }

  /** An install stands behind the substitutions where one stood before, or one with npm. */
  lemma InstallBegins(t: string, pm: string)
    requires UsesCorepack(pm)
    ensures var c := CommandsOf(pm).value;
            Run(c.install) <= Substituted(t, pm, c) <==> Run(c.install) <= t || Run(NPM_INSTALL) <= t
  {
    var c := CommandsOf(pm).value;
    var t1 := Step(1, t, pm, c);
    var t2 := Step(2, t1, pm, c);
    var t3 := Step(3, t2, pm, c);
    CommandsAreBehind(pm);
    CommandsPart(pm);
    NpmPart(pm);
    SubstitutedInSteps(t, pm);
    var npm, omit := NPM_INSTALL, NPM_INSTALL + OMIT_DEV;
    PatternsAre(pm);
    RunsOmit(t);
    PartLonger(COPY, npm, OMIT_DEV);
    PartLonger(c.manifest, npm, OMIT_DEV);
    hide CommandsOf, Behind, Part, Substituted, Step, Pattern, Replacement, Run, FrozenInstall, NPM_INSTALL, OMIT_DEV, COPY, Tail, NPM_RUN, QUOTED_NPM;
    StepKeeps(1, t, c.install, pm);
    StepKeeps(1, t, npm, pm);
    StepKeeps(1, t, omit, pm);
    StepMakes(2, t1, c.install, pm);
    StepTakes(2, t1, npm, pm);
    StepMakes(3, t2, c.install, pm);
    StepKeeps(4, t3, c.install, pm);
    StepKeeps(5, Step(4, t3, pm, c), c.install, pm);
  }

  lemma PatternsAre(pm: string)
    requires UsesCorepack(pm)
    ensures var c := CommandsOf(pm).value;
            && Pattern(1, pm, c) == COPY && Pattern(2, pm, c) == NPM_INSTALL + OMIT_DEV && Pattern(3, pm, c) == NPM_INSTALL
            && Replacement(1, pm, c) == c.manifest && Replacement(2, pm, c) == c.production && Replacement(3, pm, c) == c.install
            && c.install <= c.production && NPM_INSTALL <= NPM_INSTALL + OMIT_DEV
  {
    CommandsPart(pm);
    hide CommandsOf, FrozenInstall, Part;
  }

  lemma RunsOmit(t: string)
    ensures Run(NPM_INSTALL + OMIT_DEV) <= t ==> Run(NPM_INSTALL) <= t
  {
    hide NPM_INSTALL, OMIT_DEV;
    assert Run(NPM_INSTALL + OMIT_DEV) == Run(NPM_INSTALL) + OMIT_DEV;
  }

  /** And a production install where one stood, or one with npm, marked in npm's way or in the manager's. */
  lemma ProductionBegins(t: string, pm: string)
    requires UsesCorepack(pm)
    ensures var c := CommandsOf(pm).value;
            Run(c.production) <= Substituted(t, pm, c) <==>
              Run(c.production) <= t || Run(NPM_INSTALL + OMIT_DEV) <= t || Run(NPM_INSTALL + Tail(pm)) <= t
  {
    var c := CommandsOf(pm).value;
    var t1 := Step(1, t, pm, c);
    var t2 := Step(2, t1, pm, c);
    var t3 := Step(3, t2, pm, c);
    CommandsAreBehind(pm);
    CommandsPart(pm);
    NpmPart(pm);
    SubstitutedInSteps(t, pm);
    PatternsAre(pm);
    PartLonger(COPY, NPM_INSTALL, OMIT_DEV);
    PartLonger(c.manifest, NPM_INSTALL, OMIT_DEV);
    PartLonger(COPY, NPM_INSTALL, Tail(pm));
    PartLonger(c.manifest, NPM_INSTALL, Tail(pm));
    PartLonger(c.production, NPM_INSTALL, Tail(pm));
    hide CommandsOf, Behind, Mild, Part, Substituted, Step, Pattern, Replacement, Run, FrozenInstall, NPM_INSTALL, OMIT_DEV, COPY, Tail, NPM_RUN, QUOTED_NPM;
    StepKeeps(1, t, c.production, pm);
    StepKeeps(1, t, NPM_INSTALL + OMIT_DEV, pm);
    StepKeeps(1, t, NPM_INSTALL + Tail(pm), pm);
    StepMakes(2, t1, c.production, pm);
    StepKeeps(2, t1, NPM_INSTALL + Tail(pm), pm);
    StepJoins(3, t2, Tail(pm), pm);
    StepKeeps(4, t3, c.production, pm);
    StepKeeps(5, Step(4, t3, pm, c), c.production, pm);
  }

  lemma CorepackBegins(t: string, pm: string)
    requires UsesCorepack(pm)
    ensures COREPACK <= Substituted(t, pm, CommandsOf(pm).value) <==> COREPACK <= t
  {
    var c := CommandsOf(pm).value;
    SubstitutedInSteps(t, pm);
    CorepackIsMild(pm);
    hide CommandsOf, Mild, COREPACK, Substituted, Step;
    CorepackKept(1, t, pm);
    CorepackKept(2, Step(1, t, pm, c), pm);
    CorepackKept(3, Step(2, Step(1, t, pm, c), pm, c), pm);
    CorepackKept(4, Step(3, Step(2, Step(1, t, pm, c), pm, c), pm, c), pm);
    CorepackKept(5, Step(4, Step(3, Step(2, Step(1, t, pm, c), pm, c), pm, c), pm, c), pm);
  }

  lemma CorepackKept(k: nat, t: string, pm: string)
    requires Steps(k, pm) && Mild(COREPACK, pm)
    ensures COREPACK <= Step(k, t, pm, CommandsOf(pm).value) <==> COREPACK <= t
  {
    var c := CommandsOf(pm).value;
    MildIsSafe(k, COREPACK, pm);
    StepHeads(k, pm);
    hide CommandsOf, Pattern, Replacement, Safe, ReplaceAll, COREPACK, Mild;
    BeginningKept(t, COREPACK, Pattern(k, pm, c), Replacement(k, pm, c));
  }

  // ---------- The number of corepack lines ----------

  lemma StepsHaveNoR(k: nat, pm: string)
    requires Steps(k, pm)
    ensures var c := CommandsOf(pm).value; 'R' !in Pattern(k, pm, c) && 'R' !in Replacement(k, pm, c)
  {
    var c := CommandsOf(pm).value;
    if k == 1 {
      ManifestIsInert(pm);
      assert 'R' !in COPY;
    } else if k <= 3 {
      CommandsPart(pm);
      FrozenHasNoR(pm);
      NpmHasNoR(pm);
      hide FrozenInstall, NPM_INSTALL, OMIT_DEV, Tail;
      NoRs(NPM_INSTALL, OMIT_DEV);
      NoRs(c.install, Tail(pm));
    } else {
      assert 'R' !in NPM_RUN && 'R' !in QUOTED_NPM && 'R' !in pm && 'R' !in " run" && 'R' !in "\"";
      NoRs(pm, " run");
      NoRs("\"", pm);
    }
  }

  lemma NumberStep(k: nat, s: string, test: string -> bool, pm: string)
    requires Steps(k, pm)
    ensures var c := CommandsOf(pm).value; Number(Step(k, s, pm, c), test) == Number(s, t => test(Step(k, t, pm, c)))
  {
    var c := CommandsOf(pm).value;
    StepsHaveNoR(k, pm);
    hide CommandsOf, Pattern, Replacement, ReplaceAll, Number;
    var p, n := Pattern(k, pm, c), Replacement(k, pm, c);
    var a, b := (t: string) => test(ReplaceAll(t, p, n)), (t: string) => test(Step(k, t, pm, c));
    NumberAfter(s, p, n, test);
    forall t ensures a(t) <==> b(t) {
      assert Step(k, t, pm, c) == ReplaceAll(t, p, n);
    }
    NumberSame(s, a, b);
  }

  /** What stands at an R behind the five substitutions, in terms of what stood there before. */
  lemma NumberSubstituted(s: string, test: string -> bool, pm: string)
    requires UsesCorepack(pm)
    ensures var c := CommandsOf(pm).value; Number(Substituted(s, pm, c), test) == Number(s, t => test(Substituted(t, pm, c)))
  {
    var c := CommandsOf(pm).value;
    var q4 := (t: string) => test(Step(5, t, pm, c));
    var q3 := (t: string) => q4(Step(4, t, pm, c));
    var q2 := (t: string) => q3(Step(3, t, pm, c));
    var q1 := (t: string) => q2(Step(2, t, pm, c));
    var s1 := Step(1, s, pm, c);
    var s2 := Step(2, s1, pm, c);
    var s3 := Step(3, s2, pm, c);
    forall t ensures Substituted(t, pm, c) == Step(5, Step(4, Step(3, Step(2, Step(1, t, pm, c), pm, c), pm, c), pm, c), pm, c) {
      SubstitutedInSteps(t, pm);
    }
    hide CommandsOf, Substituted, Step, Number, UsesCorepack;
    NumberStep(5, Step(4, s3, pm, c), test, pm);
    NumberStep(4, s3, q4, pm);
    NumberStep(3, s2, q3, pm);
    NumberStep(2, s1, q2, pm);
    NumberStep(1, s, q1, pm);
    NumberSame(s, t => q1(Step(1, t, pm, c)), t => test(Substituted(t, pm, c)));
  }

  lemma CountSubstituted(s: string, p: string, test: string -> bool, pm: string)
    requires UsesCorepack(pm) && Word(p) && forall t :: p <= Substituted(t, pm, CommandsOf(pm).value) <==> test(t)
    ensures Count(Substituted(s, pm, CommandsOf(pm).value), p) == Number(s, test)
  {
    var c := CommandsOf(pm).value;
    hide CommandsOf, Substituted, Number, Count, UsesCorepack, Word;
    CountIsNumber(Substituted(s, pm, c), p);
    NumberSubstituted(s, Begins(p), pm);
    NumberSame(s, t => Begins(p)(Substituted(t, pm, c)), test);
  }

  // Of two words neither of which begins the other, each text has at most one.
  lemma EitherCounted(s: string, p: string, q: string)
    requires Word(p) && Word(q) && Part(p, q)
    ensures Number(s, t => p <= t || q <= t) == Count(s, p) + Count(s, q)
  {
    hide Number, Count, Word;
    CountIsNumber(s, p);
    CountIsNumber(s, q);
    forall t ensures !(Begins(p)(t) && Begins(q)(t)) {
      if p <= t {
        BeginsOther(t, p, q);
      }
    }
    NumberOfEither(s, Begins(p), Begins(q));
    NumberSame(s, t => Begins(p)(t) || Begins(q)(t), t => p <= t || q <= t);
  }

  lemma NpmHasNoR(pm: string)
    requires UsesCorepack(pm)
    ensures 'R' !in NPM_INSTALL && 'R' !in OMIT_DEV && 'R' !in Tail(pm) && NPM_INSTALL[0] == 'n' && pm[0] != 'n'
  {}

  lemma WordsPart(pm: string)
    requires UsesCorepack(pm)
    ensures var c := CommandsOf(pm).value;
            && Word(Run(NPM_INSTALL)) && Word(Run(NPM_INSTALL + OMIT_DEV)) && Word(Run(NPM_INSTALL + Tail(pm)))
            && Part(Run(c.install), Run(NPM_INSTALL)) && Part(Run(c.production), Run(NPM_INSTALL + OMIT_DEV))
            && Part(Run(c.production), Run(NPM_INSTALL + Tail(pm)))
            && Part(Run(NPM_INSTALL + OMIT_DEV), Run(NPM_INSTALL + Tail(pm)))
  {
    var c := CommandsOf(pm).value;
    CommandsPart(pm);
    StepHeads(2, pm);
    NpmPart(pm);
    NpmHasNoR(pm);
    assert c.install[0] == pm[0];
    hide CommandsOf, NPM_INSTALL, OMIT_DEV, Tail, FrozenInstall, Word, PNPM, YARN, Run;
    NoRs(NPM_INSTALL, OMIT_DEV);
    NoRs(NPM_INSTALL, Tail(pm));
    RunIsWord(NPM_INSTALL);
    RunIsWord(NPM_INSTALL + OMIT_DEV);
    RunIsWord(NPM_INSTALL + Tail(pm));
    RunsPart(c.install, NPM_INSTALL);
    RunsPart(c.production, NPM_INSTALL + OMIT_DEV);
    RunsPart(c.production, NPM_INSTALL + Tail(pm));
    RunsPart(NPM_INSTALL + OMIT_DEV, NPM_INSTALL + Tail(pm));
  }

  lemma RunsPart(a: string, b: string)
    requires Part(a, b)
    ensures Part(Run(a), Run(b))
  {
    var j :| 0 <= j < |a| && j < |b| && a[j] != b[j];
    assert Run(a)[j + 4] != Run(b)[j + 4];
  }

  lemma InstallsCounted(s: string, pm: string)
    requires UsesCorepack(pm)
    ensures var c := CommandsOf(pm).value;
            Count(Substituted(s, pm, c), Run(c.install)) == Count(s, Run(c.install)) + Count(s, Run(NPM_INSTALL))
  {
    var c := CommandsOf(pm).value;
    var p, q := Run(c.install), Run(NPM_INSTALL);
    WordsPart(pm);
    CommandsAreWords(pm);
    hide CommandsOf, Substituted, Word, Part, Count, Number, Run, UsesCorepack;
    forall t ensures p <= Substituted(t, pm, c) <==> p <= t || q <= t {
      InstallBegins(t, pm);
    }
    CountSubstituted(s, p, t => p <= t || q <= t, pm);
    EitherCounted(s, p, q);
  }

  lemma ProductionsCounted(s: string, pm: string)
    requires UsesCorepack(pm)
    ensures var c := CommandsOf(pm).value;
            Count(Substituted(s, pm, c), Run(c.production)) ==
              Count(s, Run(c.production)) + Count(s, Run(NPM_INSTALL + OMIT_DEV)) + Count(s, Run(NPM_INSTALL + Tail(pm)))
  {
    var c := CommandsOf(pm).value;
    var p, q, r := Run(c.production), Run(NPM_INSTALL + OMIT_DEV), Run(NPM_INSTALL + Tail(pm));
    WordsPart(pm);
    CommandsAreWords(pm);
    hide CommandsOf, Substituted, Word, Part, Count, Number, Run, UsesCorepack;
    forall t ensures p <= Substituted(t, pm, c) <==> p <= t || q <= t || r <= t {
      ProductionBegins(t, pm);
    }
    CountSubstituted(s, p, t => p <= t || q <= t || r <= t, pm);
    ThreeCounted(s, p, q, r);
  }

  lemma ThreeCounted(s: string, p: string, q: string, r: string)
    requires Word(p) && Word(q) && Word(r) && Part(p, q) && Part(p, r) && Part(q, r)
    ensures Number(s, t => p <= t || q <= t || r <= t) == Count(s, p) + Count(s, q) + Count(s, r)
  {
    hide Number, Count, Word;
    EitherCounted(s, p, q);
    CountIsNumber(s, r);
    var either := (t: string) => p <= t || q <= t;
    forall t ensures !(either(t) && Begins(r)(t)) {
      if p <= t {
        BeginsOther(t, p, r);
      } else if q <= t {
        BeginsOther(t, q, r);
      }
    }
    NumberOfEither(s, either, Begins(r));
    NumberSame(s, t => either(t) || Begins(r)(t), t => p <= t || q <= t || r <= t);
  }

  /**
   For every template: the rendering adds one corepack line for each install
   behind RUN, npm's or the manager's own, and a second one for each of them
   that is a production install.
   */
  lemma LinesCounted(template: string, pm: string)
    requires UsesCorepack(pm)
    ensures var c := CommandsOf(pm).value;
            Count(RenderNodePackageManagerTemplate(template, pm), COREPACK) ==
              Count(template, COREPACK)
              + Count(template, Run(NPM_INSTALL)) + Count(template, Run(c.install))
              + Count(template, Run(NPM_INSTALL + OMIT_DEV)) + Count(template, Run(NPM_INSTALL + Tail(pm))) + Count(template, Run(c.production))
  {
    var c := CommandsOf(pm).value;
    CorepackIsWord();
    CorepackLinesCounted(template, pm);
    InstallsCounted(template, pm);
    ProductionsCounted(template, pm);
    hide CommandsOf, Substituted, Word, Count, Number, Run, COREPACK, UsesCorepack, RenderNodePackageManagerTemplate, NPM_INSTALL, OMIT_DEV, Tail;
    forall t ensures COREPACK <= Substituted(t, pm, c) <==> COREPACK <= t {
      CorepackBegins(t, pm);
    }
    CountSubstituted(template, COREPACK, Begins(COREPACK), pm);
    CountIsNumber(template, COREPACK);
  }
}
