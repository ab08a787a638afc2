/**
 Two of the repository's templates, cut where a rewrite could begin, and hence
 rendered command by command.
 */
module Dockerfiles {
  import opened Wrappers
  import opened Template
  import opened Rendering

  // ---------- Text in which no rewrite can begin ----------

  // No pattern begins here: the text itself shows a difference.
  predicate Clear(t: string, i: nat)
    requires i < |t|
  {
    match t[i]
    case 'C' => (i + 1 < |t| && t[i + 1] != 'O') || (i + 5 < |t| && t[i + 5] != 'p')
    case 'n' => Off(t, i)
    case '\"' => (i + 1 < |t| && t[i + 1] != 'n') || (i + 2 < |t| && t[i + 2] != 'p')
    case 'R' => (i + 1 < |t| && t[i + 1] != 'U') || (i + 4 < |t| && t[i + 4] != 'p' && t[i + 4] != 'y')
    case 'F' => (i + 1 < |t| && t[i + 1] != 'R') || (i + 23 < |t| && t[i + 19] == ' ' && t[i + 23] != 'b')
    case _ => true
  }

  predicate Calm(t: string) { forall i | 0 <= i < |t| :: Clear(t, i) }

  predicate Free(t: string) { 'C' !in t && 'n' !in t && '\"' !in t && 'R' !in t && 'F' !in t }

  lemma CalmWhenFree(t: string)
    requires Free(t)
    ensures Calm(t)
  {
    forall i | 0 <= i < |t| ensures Clear(t, i) {
      assert t[i] in t;
    }
  }

  // A text that is calm behind its first character.
  lemma CalmCons(t: string)
    requires t != "" && Clear(t, 0) && Calm(t[1..])
    ensures Calm(t)
  {
    forall i | 0 <= i < |t| ensures Clear(t, i) {
      if i > 0 {
        assert Clear(t[1..], i - 1);
      }
    }
  }

  lemma CalmAtHead(t: string)
    requires t != "" && Clear(t, 0) && Free(t[1..])
    ensures Calm(t)
  {
    CalmWhenFree(t[1..]);
    CalmCons(t);
  }

  lemma CalmConcat(a: string, b: string)
    requires Calm(a) && Calm(b)
    ensures Calm(a + b)
  {
    forall i | 0 <= i < |a + b| ensures Clear(a + b, i) {
      if i < |a| {
        assert Clear(a, i);
      } else {
        assert Clear(b, i - |a|);
      }
    }
  }

  // Where the patterns differ from a clear place.
  lemma PatternShapes(k: nat, pm: string)
    requires 1 <= k <= 7 && Rewrites(pm)
    ensures var p := Pattern(k, pm, CommandsOf(pm).value);
            && (k == 1 ==> |p| > 5 && p[0] == 'C' && p[1] == 'O' && p[5] == 'p')
            && (2 <= k <= 4 ==> NpmCommand(p))
            && (k == 5 ==> |p| > 2 && p[0] == '\"' && p[1] == 'n' && p[2] == 'p')
            && (k >= 6 && pm != BUN ==> |p| > 4 && p[0] == 'R' && p[1] == 'U' && (p[4] == 'p' || p[4] == 'y'))
            && (k == 6 && pm == BUN ==> |p| > 23 && p[0] == 'F' && p[1] == 'R' && p[23] == 'b')
            && (k == 7 && pm == BUN ==> |p| > 19 && p[0] == 'F' && p[1] == 'R' && p[19] != ' ')
  {
    var c := CommandsOf(pm).value;
    PatternsBegin(k, pm, c);
    if k >= 6 && pm == BUN {
      NodeImageHead();
      assert AS_BUILDER[4] == 'b' && |AS_BUILDER| == 11;
    } else if k >= 6 {
      var _ := CommandsShape(pm);
      RunBegins(pm, FrozenInstall(pm));
      RunBegins(pm, c.production);
    }
  }

  lemma RunBegins(pm: string, command: string)
    requires UsesCorepack(pm) && FrozenInstall(pm) <= command
    ensures var p := Run(command); |p| > 4 && p[0] == 'R' && p[1] == 'U' && (p[4] == 'p' || p[4] == 'y')
  {
    hide INSTALL, FROZEN, SCRIPTS;
    assert pm[0] == 'p' || pm[0] == 'y';
    assert command[0] == FrozenInstall(pm)[0] == pm[0];
    assert Run(command)[4] == command[0];
  }

  lemma CalmIsSafe(t: string, k: nat, pm: string)
    requires Calm(t) && 1 <= k <= 7 && Rewrites(pm)
    ensures Safe(t, Pattern(k, pm, CommandsOf(pm).value))
  {
    var p := Pattern(k, pm, CommandsOf(pm).value);
    PatternShapes(k, pm);
    hide Pattern, CommandsOf;
    if 2 <= k <= 4 {
      forall i | 0 <= i < |t| ensures Off(t, i) {
        assert Clear(t, i);
      }
      QuietIsSafe(t, p);
    } else {
      forall i | 0 <= i < |t| ensures Part(p, t[i..]) {
        assert Clear(t, i);
        var j := Mismatch(t, i, p);
        assert t[i..][j] == t[i + j] != p[j];
      }
    }
  }

  lemma Mismatch(t: string, i: nat, p: string) returns (j: nat)
    requires i < |t| && Clear(t, i)
    requires || (|p| > 5 && p[0] == 'C' && p[1] == 'O' && p[5] == 'p')
             || (|p| > 2 && p[0] == '\"' && p[1] == 'n' && p[2] == 'p')
             || (|p| > 4 && p[0] == 'R' && p[1] == 'U' && (p[4] == 'p' || p[4] == 'y'))
             || (|p| > 23 && p[0] == 'F' && p[1] == 'R' && p[23] == 'b')
             || (|p| > 19 && p[0] == 'F' && p[1] == 'R' && p[19] != ' ')
    ensures j < |p| && i + j < |t| && t[i + j] != p[j]
  {
    if t[i] != p[0] {
      j := 0;
    } else if i + 1 < |t| && t[i + 1] != p[1] {
      j := 1;
    } else if t[i] == 'C' {
      j := 5;
    } else if t[i] == '\"' {
      j := 2;
    } else if t[i] == 'R' {
      j := 4;
    } else {
      j := if p[19] != ' ' then 19 else 23;
    }
  }

  // ---------- Texts cut into parts ----------

  // The command that this part is, or plain text.
  function PieceOf(t: string): (p: Piece)
    ensures Source(p) == t && (p.Plain? ==> p.text == t)
  {
    if t == Source(Builder) then Builder
    else if t == Source(Runtime) then Runtime
    else if t == Source(Manifest) then Manifest
    else if t == Source(Install) then Install
    else if t == Source(Production) then Production
    else if t == Source(Script) then Script
    else if t == Source(RunScript) then RunScript
    else if t == Source(Quoted) then Quoted
    else Plain(t)
  }

  // A command to be rewritten, or text in which no rewrite begins.
  predicate Fine(t: string) { PieceOf(t).Plain? ==> Calm(t) }

  predicate AllFine(parts: seq<string>) { forall i | 0 <= i < |parts| :: Fine(parts[i]) }

  function Text(parts: seq<string>): string {
    if parts == [] then "" else parts[0] + Text(parts[1..])
  }

  function Pieces(parts: seq<string>): (ps: seq<Piece>)
    ensures |ps| == |parts| && forall i | 0 <= i < |ps| :: ps[i] == PieceOf(parts[i])
  {
    seq(|parts|, i requires 0 <= i < |parts| => PieceOf(parts[i]))
  }

  lemma {:induction false} TextIsFlat(parts: seq<string>)
    ensures Flat(Pieces(parts), Source) == Text(parts)
  {
    hide Source, PieceOf;
    if parts != [] {
      TextIsFlat(parts[1..]);
      assert Pieces(parts)[1..] == Pieces(parts[1..]);
    }
  }

  /** A text cut into such parts is rendered part by part, whatever it says. */
  lemma CutTextRenders(parts: seq<string>, pm: string)
    requires AllFine(parts) && Rewrites(pm)
    ensures var c := CommandsOf(pm).value;
            RenderNodePackageManagerTemplate(Text(parts), pm) == Flat(Pieces(parts), p => Target(p, pm, c))
  {
    var c := CommandsOf(pm).value;
    TextIsFlat(parts);
    hide CommandsOf, Rewrites, Flat, RenderNodePackageManagerTemplate, Source, Target, PieceOf, Calm;
    forall p | p in Pieces(parts) ensures PlainIsSafe(p, pm, c) {
      var i :| 0 <= i < |parts| && Pieces(parts)[i] == p;
      assert Fine(parts[i]);
      if p.Plain? {
        forall k | 1 <= k <= 7 ensures Safe(p.text, Pattern(k, pm, c)) {
          CalmIsSafe(p.text, k, pm);
        }
      }
    }
    RendersPieceByPiece(Pieces(parts), pm);
  }

  lemma AllFineConcat(a: seq<string>, b: seq<string>)
    requires AllFine(a) && AllFine(b)
    ensures AllFine(a + b)
  {
    hide Fine;
  }

  lemma CommandIsFine(t: string, p: Piece)
    requires t == Source(p) && !p.Plain?
    ensures Fine(t)
  {
    hide Source;
  }

  lemma FreeIsFine(t: string)
    requires Free(t)
    ensures Fine(t)
  {
    CalmWhenFree(t);
  }

  lemma HeadIsFine(t: string)
    requires t != "" && Clear(t, 0) && Free(t[1..])
    ensures Fine(t)
  {
    CalmAtHead(t);
  }

  lemma CommandsAreFine()
    ensures Fine("FROM node:20-alpine AS builder") && Fine("FROM node:20-alpine\n")
    ensures Fine("COPY package*.json ./") && Fine("npm run ") && Fine("RUN npm run ") && Fine("\"npm\",")
  {
    CommandIsFine("FROM node:20-alpine AS builder", Builder);
    CommandIsFine("FROM node:20-alpine\n", Runtime);
    CommandIsFine("COPY package*.json ./", Manifest);
    CommandIsFine("npm run ", Script);
    CommandIsFine("RUN npm run ", RunScript);
    CommandIsFine("\"npm\",", Quoted);
  }

  lemma InstallIsFine()
    ensures Fine("RUN npm ci --ignore-scripts\n")
  {
    CommandIsFine("RUN npm ci --ignore-scripts\n", Install);
  }

  lemma ProductionIsFine()
    ensures Fine("RUN npm ci --ignore-scripts --omit=dev\n")
  {
    hide Fine;
    CommandIsFine("RUN npm ci --ignore-scripts --omit=dev\n", Production);
  }

  lemma RunNpmIsFine()
    ensures Fine("RUN npm i")
  {
    assert "RUN npm i"[1..] == "UN " + "npm i";
    CalmWhenFree("UN ");
    CalmAtHead("npm i");
    CalmConcat("UN ", "npm i");
    CalmCons("RUN npm i");
  }

  lemma NodeIsCalm()
    ensures Calm("node:20-alpi")
  {
    CalmAtHead("node:20-alpi");
  }

  lemma ImageIsCalm()
    ensures Calm("ROM " + ("node:20-alpi" + "ne AS ru"))
  {
    CalmAtHead("ROM ");
    CalmAtHead("ne AS ru");
    NodeIsCalm();
    hide Calm, Free;
    CalmConcat("node:20-alpi", "ne AS ru");
    CalmConcat("ROM ", "node:20-alpi" + "ne AS ru");
  }

  lemma NamedRuntimeIsFine()
    ensures Fine("FROM " + ("node:20-alpi" + "ne AS ru"))
  {
    var image := "node:20-alpi" + "ne AS ru";
    var t := "FROM " + image;
    ImageIsCalm();
    assert |"node:20-alpi"| == 12 && |"ne AS ru"| == 8 && "ne AS ru"[2] == ' ' && "ne AS ru"[6] == 'r';
    hide Calm, PieceOf;
    assert t[0] == 'F' && t[19] == ' ' && t[23] == 'r';
    assert t[1..] == "ROM " + image;
    CalmCons(t);
  }

  lemma PartsAreFine1()
    ensures Fine("\n\nWO") && Fine("RKDI")
  {
    hide Fine;
    FreeIsFine("\n\nWO");
    HeadIsFine("RKDI");
  }

  lemma PartsAreFine2()
    ensures Fine("R /app\n\n") && Fine("\n")
  {
    hide Fine;
    HeadIsFine("R /app\n\n");
    FreeIsFine("\n");
  }

  lemma PartsAreFine3()
    ensures Fine("COPY . .\n")
  {
    hide Fine;
    HeadIsFine("COPY . .\n");
  }

  lemma PartsAreFine4()
    ensures Fine("build\n\n") && Fine("\nWO")
  {
    hide Fine;
    FreeIsFine("build\n\n");
    FreeIsFine("\nWO");
  }

  lemma PartsAreFine5()
    ensures Fine("R /app\n\nE")
  {
    hide Fine;
    HeadIsFine("R /app\n\nE");
  }

  lemma PartsAreFine6()
    ensures Fine("NV NODE_E") && Fine("NV=produc") && Fine("tio")
  {
    hide Fine;
    FreeIsFine("NV NODE_E");
    FreeIsFine("NV=produc");
    FreeIsFine("tio");
  }

  lemma PartsAreFine7()
    ensures Fine("n\n\n") && Fine("COPY --fr")
  {
    hide Fine;
    HeadIsFine("n\n\n");
    HeadIsFine("COPY --fr");
  }

  lemma PartsAreFine8()
    ensures Fine("om=builde") && Fine("r /app/di")
  {
    hide Fine;
    FreeIsFine("om=builde");
    FreeIsFine("r /app/di");
  }

  lemma PartsAreFine9()
    ensures Fine("st ./dist") && Fine("\n\nEXPOSE ") && Fine("3000\n\n")
  {
    hide Fine;
    FreeIsFine("st ./dist");
    FreeIsFine("\n\nEXPOSE ");
    FreeIsFine("3000\n\n");
  }

  lemma PartsAreFine10()
    ensures Fine("CMD [") && Fine(" ") && Fine("\"start")
  {
    hide Fine;
    HeadIsFine("CMD [");
    FreeIsFine(" ");
    HeadIsFine("\"start");
  }

  lemma PartsAreFine11()
    ensures Fine("\"]\n") && Fine("build\n")
  {
    hide Fine;
    HeadIsFine("\"]\n");
    FreeIsFine("build\n");
  }

  lemma PartsAreFine12()
    ensures Fine("RUN test ")
  {
    hide Fine;
    HeadIsFine("RUN test ");
  }

  lemma PartsAreFine13()
    ensures Fine("-f ./__OU") && Fine("TPUT_DI")
  {
    hide Fine;
    FreeIsFine("-f ./__OU");
    FreeIsFine("TPUT_DI");
  }

  lemma PartsAreFine14()
    ensures Fine("R__/i")
  {
    hide Fine;
    HeadIsFine("R__/i");
  }

  lemma PartsAreFine15()
    ensures Fine("ndex.html")
  {
    hide Fine;
    HeadIsFine("ndex.html");
  }

  lemma PartsAreFine16()
    ensures Fine(" || (echo ") && Fine("\"ZE")
  {
    hide Fine;
    FreeIsFine(" || (echo ");
    HeadIsFine("\"ZE");
  }

  lemma PartsAreFine17()
    ensures Fine("RODEVOPS_SS")
  {
    hide Fine;
    HeadIsFine("RODEVOPS_SS");
  }

  lemma PartsAreFine18()
    ensures Fine("R_MISMAT") && Fine("CH: ")
  {
    hide Fine;
    HeadIsFine("R_MISMAT");
    HeadIsFine("CH: ");
  }

  lemma PartsAreFine19()
    ensures Fine("no i")
  {
    hide Fine;
    HeadIsFine("no i");
  }

  lemma PartsAreFine20()
    ensures Fine("ndex.html i")
  {
    hide Fine;
    HeadIsFine("ndex.html i");
  }

  lemma PartsAreFine21()
    ensures Fine("n __OUTPU") && Fine("T_DI")
  {
    hide Fine;
    HeadIsFine("n __OUTPU");
    FreeIsFine("T_DI");
  }

  lemma PartsAreFine22()
    ensures Fine("R__ after ")
  {
    hide Fine;
    HeadIsFine("R__ after ");
  }

  lemma PartsAreFine23()
    ensures Fine("build") && Fine("\" && exit")
  {
    hide Fine;
    FreeIsFine("build");
    HeadIsFine("\" && exit");
  }

  lemma PartsAreFine24()
    ensures Fine(" 1)\n\n") && Fine("ntime\n\nWO")
  {
    hide Fine;
    FreeIsFine(" 1)\n\n");
    HeadIsFine("ntime\n\nWO");
  }

  lemma PartsAreFine25()
    ensures Fine("nstall -g")
  {
    hide Fine;
    HeadIsFine("nstall -g");
  }

  lemma PartsAreFine26()
    ensures Fine(" serve\n\n") && Fine("r /app/__")
  {
    hide Fine;
    FreeIsFine(" serve\n\n");
    FreeIsFine("r /app/__");
  }

  lemma PartsAreFine27()
    ensures Fine("OUTPUT_DI")
  {
    hide Fine;
    FreeIsFine("OUTPUT_DI");
  }

  lemma PartsAreFine28()
    ensures Fine("R__ ./__O")
  {
    hide Fine;
    HeadIsFine("R__ ./__O");
  }

  lemma PartsAreFine29()
    ensures Fine("UTPUT_DI")
  {
    hide Fine;
    FreeIsFine("UTPUT_DI");
  }

  lemma PartsAreFine30()
    ensures Fine("R__\n\nEXPO")
  {
    hide Fine;
    HeadIsFine("R__\n\nEXPO");
  }

  lemma PartsAreFine31()
    ensures Fine("SE 3000\n\n") && Fine("\"serve")
  {
    hide Fine;
    FreeIsFine("SE 3000\n\n");
    HeadIsFine("\"serve");
  }

  lemma PartsAreFine32()
    ensures Fine("\", ") && Fine("\"-s")
  {
    hide Fine;
    HeadIsFine("\", ");
    HeadIsFine("\"-s");
  }

  lemma PartsAreFine33()
    ensures Fine("\"__OUTPUT") && Fine("_DI")
  {
    hide Fine;
    HeadIsFine("\"__OUTPUT");
    FreeIsFine("_DI");
  }

  lemma PartsAreFine34()
    ensures Fine("R__") && Fine("\"-l") && Fine("\"3000")
  {
    hide Fine;
    HeadIsFine("R__");
    HeadIsFine("\"-l");
    HeadIsFine("\"3000");
  }

  // worker-server/templates/dynamic/Dockerfile.node.tmpl, from top to bottom.
  const NODE_1: seq<string> := [
    "FROM node:20-alpine AS builder", "\n\nWO", "RKDI", "R /app\n\n", "COPY package*.json ./", "\n",
    "RUN npm ci --ignore-scripts\n", "\n"]

  const NODE_2: seq<string> := [
    "COPY . .\n", "RUN npm run ", "build\n\n", "FROM node:20-alpine\n", "\nWO", "RKDI",
    "R /app\n\nE", "NV NODE_E"]

  const NODE_3: seq<string> := [
    "NV=produc", "tio", "n\n\n", "COPY package*.json ./", "\n",
    "RUN npm ci --ignore-scripts --omit=dev\n", "\n", "COPY --fr"]

  const NODE_4: seq<string> := [
    "om=builde", "r /app/di", "st ./dist", "\n\nEXPOSE ", "3000\n\n", "CMD [", "\"npm\",", " "]

  const NODE_5: seq<string> := [
    "\"start", "\"]\n"]

  const NODE_TEMPLATE: seq<string> := NODE_1 + NODE_2 + NODE_3 + NODE_4 + NODE_5

  lemma NodeIsFine1()
    ensures AllFine(NODE_1)
  {
    hide Fine;
    CommandsAreFine();
    PartsAreFine1();
    PartsAreFine2();
    InstallIsFine();
  }

  lemma NodeIsFine2()
    ensures AllFine(NODE_2)
  {
    hide Fine;
    PartsAreFine3();
    CommandsAreFine();
    PartsAreFine4();
    PartsAreFine1();
    PartsAreFine5();
    PartsAreFine6();
  }

  lemma NodeIsFine3()
    ensures AllFine(NODE_3)
  {
    hide Fine;
    PartsAreFine6();
    PartsAreFine7();
    CommandsAreFine();
    PartsAreFine2();
    ProductionIsFine();
  }

  lemma NodeIsFine4()
    ensures AllFine(NODE_4)
  {
    hide Fine;
    PartsAreFine8();
    PartsAreFine9();
    PartsAreFine10();
    CommandsAreFine();
  }

  lemma NodeIsFine5()
    ensures AllFine(NODE_5)
  {
    hide Fine;
    PartsAreFine10();
    PartsAreFine11();
  }

  lemma NodeIsFine()
    ensures AllFine(NODE_TEMPLATE)
  {
    NodeIsFine1();
    NodeIsFine2();
    NodeIsFine3();
    NodeIsFine4();
    NodeIsFine5();
    hide AllFine, NODE_1, NODE_2, NODE_3, NODE_4, NODE_5;
    AllFineConcat(NODE_1, NODE_2);
    AllFineConcat(NODE_1 + NODE_2, NODE_3);
    AllFineConcat(NODE_1 + NODE_2 + NODE_3, NODE_4);
    AllFineConcat(NODE_1 + NODE_2 + NODE_3 + NODE_4, NODE_5);
  }

  // worker-server/templates/static/Dockerfile.react.tmpl, from top to bottom.
  const REACT_1: seq<string> := [
    "FROM node:20-alpine AS builder", "\n\nWO", "RKDI", "R /app\n\n", "COPY package*.json ./", "\n",
    "RUN npm ci --ignore-scripts\n", "\n"]

  const REACT_2: seq<string> := [
    "COPY . .\n", "RUN npm run ", "build\n", "RUN test ", "-f ./__OU", "TPUT_DI", "R__/i",
    "ndex.html"]

  const REACT_3: seq<string> := [
    " || (echo ", "\"ZE", "RODEVOPS_SS", "R_MISMAT", "CH: ", "no i", "ndex.html i", "n __OUTPU"]

  const REACT_4: seq<string> := [
    "T_DI", "R__ after ", "npm run ", "build", "\" && exit", " 1)\n\n",
    "FROM " + ("node:20-alpi" + "ne AS ru"), "ntime\n\nWO"]

  const REACT_5: seq<string> := [
    "RKDI", "R /app\n\n", "RUN npm i", "nstall -g", " serve\n\n", "COPY --fr", "om=builde",
    "r /app/__"]

  const REACT_6: seq<string> := [
    "OUTPUT_DI", "R__ ./__O", "UTPUT_DI", "R__\n\nEXPO", "SE 3000\n\n", "CMD [", "\"serve", "\", "]

  const REACT_7: seq<string> := [
    "\"-s", "\", ", "\"__OUTPUT", "_DI", "R__", "\", ", "\"-l", "\", "]

  const REACT_8: seq<string> := [
    "\"3000", "\"]\n"]

  const REACT_TEMPLATE: seq<string> := REACT_1 + REACT_2 + REACT_3 + REACT_4 + REACT_5 + REACT_6 + REACT_7 + REACT_8

  lemma ReactIsFine1()
    ensures AllFine(REACT_1)
  {
    hide Fine;
    CommandsAreFine();
    PartsAreFine1();
    PartsAreFine2();
    InstallIsFine();
  }

  lemma ReactIsFine2()
    ensures AllFine(REACT_2)
  {
    hide Fine;
    PartsAreFine3();
    CommandsAreFine();
    PartsAreFine11();
    PartsAreFine12();
    PartsAreFine13();
    PartsAreFine14();
    PartsAreFine15();
  }

  lemma ReactIsFine3()
    ensures AllFine(REACT_3)
  {
    hide Fine;
    PartsAreFine16();
    PartsAreFine17();
    PartsAreFine18();
    PartsAreFine19();
    PartsAreFine20();
    PartsAreFine21();
  }

  lemma ReactIsFine4()
    ensures AllFine(REACT_4)
  {
    hide Fine;
    PartsAreFine21();
    PartsAreFine22();
    CommandsAreFine();
    PartsAreFine23();
    PartsAreFine24();
    NamedRuntimeIsFine();
  }

  lemma ReactIsFine5()
    ensures AllFine(REACT_5)
  {
    hide Fine;
    PartsAreFine1();
    PartsAreFine2();
    RunNpmIsFine();
    PartsAreFine25();
    PartsAreFine26();
    PartsAreFine7();
    PartsAreFine8();
  }

  lemma ReactIsFine6()
    ensures AllFine(REACT_6)
  {
    hide Fine;
    PartsAreFine27();
    PartsAreFine28();
    PartsAreFine29();
    PartsAreFine30();
    PartsAreFine31();
    PartsAreFine10();
    PartsAreFine32();
  }

  lemma ReactIsFine7()
    ensures AllFine(REACT_7)
  {
    hide Fine;
    PartsAreFine32();
    PartsAreFine33();
    PartsAreFine34();
  }

  lemma ReactIsFine8()
    ensures AllFine(REACT_8)
  {
    hide Fine;
    PartsAreFine34();
    PartsAreFine11();
  }

  lemma ReactIsFine()
    ensures AllFine(REACT_TEMPLATE)
  {
    ReactIsFine1();
    ReactIsFine2();
    ReactIsFine3();
    ReactIsFine4();
    ReactIsFine5();
    ReactIsFine6();
    ReactIsFine7();
    ReactIsFine8();
    hide AllFine, REACT_1, REACT_2, REACT_3, REACT_4, REACT_5, REACT_6, REACT_7, REACT_8;
    AllFineConcat(REACT_1, REACT_2);
    AllFineConcat(REACT_1 + REACT_2, REACT_3);
    AllFineConcat(REACT_1 + REACT_2 + REACT_3, REACT_4);
    AllFineConcat(REACT_1 + REACT_2 + REACT_3 + REACT_4, REACT_5);
    AllFineConcat(REACT_1 + REACT_2 + REACT_3 + REACT_4 + REACT_5, REACT_6);
    AllFineConcat(REACT_1 + REACT_2 + REACT_3 + REACT_4 + REACT_5 + REACT_6, REACT_7);
    AllFineConcat(REACT_1 + REACT_2 + REACT_3 + REACT_4 + REACT_5 + REACT_6 + REACT_7, REACT_8);
  }

  /** A dynamic and a static template of the repository are rendered command by command. */
  lemma RepositoryTemplatesRender(pm: string)
    requires Rewrites(pm)
    ensures var c := CommandsOf(pm).value;
            && RenderNodePackageManagerTemplate(Text(NODE_TEMPLATE), pm) == Flat(Pieces(NODE_TEMPLATE), p => Target(p, pm, c))
            && RenderNodePackageManagerTemplate(Text(REACT_TEMPLATE), pm) == Flat(Pieces(REACT_TEMPLATE), p => Target(p, pm, c))
  {
    NodeIsFine();
    ReactIsFine();
    hide NODE_TEMPLATE, REACT_TEMPLATE;
    CutTextRenders(NODE_TEMPLATE, pm);
    CutTextRenders(REACT_TEMPLATE, pm);
  }
}
