/**
 Slash-separated paths as Go's path/filepath treats them on Unix: cleaning,
 joining and relative paths, worked out on components.
 */
module Paths {
  import opened Wrappers
  import opened Text

  // ---------- Components ----------

  predicate SlashFree(s: string) { '/' !in s }

  /** strings.Split(s, "/"): always at least one component. */
  function Split(s: string): (cs: seq<string>)
    ensures cs != [] && forall c | c in cs :: SlashFree(c)
  {
    if s == "" then [""]
    else
      var rest := Split(s[1..]);
      assert SlashFree(rest[0]) && forall c | c in rest[1..] :: c in rest;
      if s[0] == '/' then [""] + rest else [[s[0]] + rest[0]] + rest[1..]
  }

  /** strings.Join(cs, "/") */
  function Joined(cs: seq<string>): string {
    if cs == [] then "" else if |cs| == 1 then cs[0] else cs[0] + "/" + Joined(cs[1..])
  }

  lemma {:induction false} SplitSlashFree(c: string)
    requires SlashFree(c)
    ensures Split(c) == [c]
  {
    if c != "" {
      SplitSlashFree(c[1..]);
      assert [c[0]] + c[1..] == c;
    }
  }

  lemma {:induction false} SplitAtSlash(s: string, t: string)
    ensures Split(s + "/" + t) == Split(s) + Split(t)
  {
    var whole := s + "/" + t;
    if s == "" {
      assert whole[1..] == t;
    } else {
      assert whole[1..] == s[1..] + "/" + t;
      SplitAtSlash(s[1..], t);
    }
  }

  lemma {:induction false} SplitJoined(cs: seq<string>)
    requires cs != [] && forall c | c in cs :: SlashFree(c)
    ensures Split(Joined(cs)) == cs
  {
    SplitSlashFree(cs[0]);
    if |cs| == 1 {
      assert cs == [cs[0]];
    } else {
      SplitJoined(cs[1..]);
      SplitAtSlash(cs[0], Joined(cs[1..]));
      assert cs == [cs[0]] + cs[1..];
    }
  }

  /** Joining is injective on components without slashes. */
  lemma JoinedDiffers(a: seq<string>, b: seq<string>)
    requires a != [] && b != [] && (forall c | c in a :: SlashFree(c)) && (forall c | c in b :: SlashFree(c))
    requires Joined(a) == Joined(b)
    ensures a == b
  {
    SplitJoined(a);
    SplitJoined(b);
  }

  // ---------- Cleaning ----------

  const UP := ".."

  // So many steps up.
  function Ups(k: nat): (ups: seq<string>)
    ensures |ups| == k && forall i | 0 <= i < k :: ups[i] == UP
  {
    seq(k, _ => UP)
  }

  predicate Name(c: string) { c != "" && c != "." && c != UP && SlashFree(c) }

  function Push(stack: seq<string>, c: string, rooted: bool): seq<string> {
    if c == "" || c == "." then stack
    else if c == UP then
      if stack != [] && stack[|stack| - 1] != UP then stack[..|stack| - 1]
      else if rooted then stack
      else stack + [UP]
    else stack + [c]
  }

  function Norm(cs: seq<string>, rooted: bool): seq<string> {
    if cs == [] then [] else Push(Norm(cs[..|cs| - 1], rooted), cs[|cs| - 1], rooted)
  }

  predicate Rooted(s: string) { s != "" && s[0] == '/' }

  function Components(s: string): seq<string> { Norm(Split(s), Rooted(s)) }

  function Built(cs: seq<string>, rooted: bool): string {
    if rooted then "/" + Joined(cs) else if cs == [] then "." else Joined(cs)
  }

  /** filepath.Clean */
  function Clean(s: string): string { Built(Components(s), Rooted(s)) }

  /** Climbing components first, then names; a rooted path does not climb. */
  predicate NormalForm(cs: seq<string>, rooted: bool) {
    && (forall i | 0 <= i < |cs| :: cs[i] == UP || Name(cs[i]))
    && (forall i, j | 0 <= i < j < |cs| && cs[j] == UP :: cs[i] == UP)
    && (rooted ==> UP !in cs)
  }

  predicate Climbs(cs: seq<string>) { cs != [] && cs[0] == UP }

  lemma {:induction false} NormIsNormal(cs: seq<string>, rooted: bool)
    requires forall c | c in cs :: SlashFree(c)
    ensures NormalForm(Norm(cs, rooted), rooted)
  {
    if cs != [] {
      NormIsNormal(cs[..|cs| - 1], rooted);
      assert SlashFree(cs[|cs| - 1]);
    }
  }

  /** Names only go on top of what is there. */
  lemma {:induction false} NamesArePushed(base: seq<string>, names: seq<string>, rooted: bool)
    requires forall c | c in names :: Name(c)
    ensures Norm(base + names, rooted) == Norm(base, rooted) + names
  {
    if names == [] {
      assert base + names == base;
    } else {
      var shorter, last := names[..|names| - 1], names[|names| - 1];
      NamesArePushed(base, shorter, rooted);
      assert Name(last) && names == shorter + [last];
      assert (base + names)[..|base + names| - 1] == base + shorter;
    }
  }

  /** A normal form is its own norm. */
  lemma {:induction false} NormalIsFixed(cs: seq<string>, rooted: bool)
    requires NormalForm(cs, rooted)
    ensures Norm(cs, rooted) == cs
  {
    if cs != [] {
      var shorter, last := cs[..|cs| - 1], cs[|cs| - 1];
      NormalIsFixed(shorter, rooted);
      if last == UP && shorter != [] {
        assert cs[|cs| - 2] == UP;
      }
    }
  }

  // ---------- What the components mean ----------

  // One step from a directory that is given by its components below the root.
  function Stepped(at: seq<string>, c: string): seq<string> {
    if c == "" || c == "." then at
    else if c == UP then if at == [] then at else at[..|at| - 1]
    else at + [c]
  }

  /** Where the components lead from a directory, step by step. */
  function Reached(at: seq<string>, cs: seq<string>): seq<string>
    decreases cs
  {
    if cs == [] then at else Reached(Stepped(at, cs[0]), cs[1..])
  }

  lemma {:induction false} ReachedByMore(at: seq<string>, a: seq<string>, b: seq<string>)
    ensures Reached(at, a + b) == Reached(Reached(at, a), b)
    decreases a
  {
    if a == [] {
      assert a + b == b;
    } else {
      assert (a + b)[1..] == a[1..] + b;
      ReachedByMore(Stepped(at, a[0]), a[1..], b);
    }
  }

  lemma ReachedByOne(at: seq<string>, cs: seq<string>)
    requires cs != []
    ensures Reached(at, cs) == Stepped(Reached(at, cs[..|cs| - 1]), cs[|cs| - 1])
  {
    var last := [cs[|cs| - 1]];
    assert cs == cs[..|cs| - 1] + last;
    ReachedByMore(at, cs[..|cs| - 1], last);
    assert last[1..] == [];
  }

  /** The norm leads where the components lead: from every directory, and a rooted one from the root. */
  lemma {:induction false} NormLeadsThere(at: seq<string>, cs: seq<string>, rooted: bool)
    requires (rooted ==> at == []) && forall c | c in cs :: SlashFree(c)
    ensures Reached(at, Norm(cs, rooted)) == Reached(at, cs)
  {
    if cs != [] {
      var shorter, c := cs[..|cs| - 1], cs[|cs| - 1];
      var stack := Norm(shorter, rooted);
      NormLeadsThere(at, shorter, rooted);
      NormIsNormal(shorter, rooted);
      ReachedByOne(at, cs);
      PushedStep(at, stack, c, rooted);
    }
  }

  lemma PushedStep(at: seq<string>, stack: seq<string>, c: string, rooted: bool)
    requires NormalForm(stack, rooted) && (rooted ==> at == [])
    ensures Reached(at, Push(stack, c, rooted)) == Stepped(Reached(at, stack), c)
  {
    var pushed := Push(stack, c, rooted);
    if pushed == stack + [c] {
      ReachedByOne(at, pushed);
      assert pushed[..|stack|] == stack;
    } else if stack != [] && c == UP {
      ReachedByOne(at, stack);
    }
  }

  lemma {:induction false} NamesAreReached(at: seq<string>, names: seq<string>)
    requires forall c | c in names :: Name(c)
    ensures Reached(at, names) == at + names
    decreases names
  {
    if names != [] {
      NamesAreReached(at + [names[0]], names[1..]);
      assert names == [names[0]] + names[1..];
      assert Name(names[0]);
    }
  }

  lemma {:induction false} UpsAreReached(at: seq<string>, k: nat)
    ensures Reached(at, Ups(k)) == if k <= |at| then at[..|at| - k] else []
    decreases k
  {
    var ups := Ups(k);
    if k > 0 {
      assert ups[1..] == Ups(k - 1);
      UpsAreReached(Stepped(at, UP), k - 1);
    }
  }

  // A normal form is so many steps up and then names.
  lemma {:induction false} NormalParts(cs: seq<string>, rooted: bool) returns (k: nat, names: seq<string>)
    requires NormalForm(cs, rooted)
    ensures cs == Ups(k) + names && forall c | c in names :: Name(c)
  {
    if cs != [] && cs[0] == UP {
      var j, rest := NormalParts(cs[1..], false);
      k, names := j + 1, rest;
      assert Ups(k) == [UP] + Ups(j);
    } else {
      k, names := 0, cs;
      forall c | c in names ensures Name(c) {
        var i :| 0 <= i < |cs| && cs[i] == c;
      }
    }
  }

  lemma NormalReaches(at: seq<string>, k: nat, names: seq<string>)
    requires forall c | c in names :: Name(c)
    ensures Reached(at, Ups(k) + names) == (if k <= |at| then at[..|at| - k] else []) + names
  {
    ReachedByMore(at, Ups(k), names);
    UpsAreReached(at, k);
    NamesAreReached(Reached(at, Ups(k)), names);
  }

  ghost predicate SamePlaces(a: seq<string>, b: seq<string>) { forall at :: Reached(at, a) == Reached(at, b) }

  /** Two normal forms that lead to the same places are the same. */
  lemma NormalFormsDiffer(a: seq<string>, b: seq<string>)
    requires NormalForm(a, false) && NormalForm(b, false) && SamePlaces(a, b)
    ensures a == b
  {
    var j, x := NormalParts(a, false);
    var k, y := NormalParts(b, false);
    hide Name, NormalForm, Reached;
    PlacesTell(j, x, k, y);
  }

  lemma PlacesTell(j: nat, x: seq<string>, k: nat, y: seq<string>)
    requires (forall c | c in x :: Name(c)) && (forall c | c in y :: Name(c))
    requires SamePlaces(Ups(j) + x, Ups(k) + y)
    ensures j == k && x == y
  {
    hide Name, Reached;
    var a, b := Ups(j) + x, Ups(k) + y;
    var root, deep: seq<string> := [], seq(j + k, _ => "d");
    assert Reached(root, a) == Reached(root, b) && Reached(deep, a) == Reached(deep, b);
    NormalReaches(root, j, x);
    NormalReaches(root, k, y);
    assert x == root + x == root + y;
    NormalReaches(deep, j, x);
    NormalReaches(deep, k, y);
    assert |deep[..|deep| - j] + x| == |deep[..|deep| - k] + y|;
  }

  /**
   What cleaning makes of a relative path: the one normal form that leads from
   every directory where the path leads.
   */
  lemma RelativeComponentsExactly(s: string, cs: seq<string>)
    requires !Rooted(s)
    ensures cs == Components(s) <==> NormalForm(cs, false) && SamePlaces(cs, Split(s))
  {
    hide Norm, Split, Reached, NormalForm;
    ComponentsAreNormal(s);
    forall at ensures Reached(at, Components(s)) == Reached(at, Split(s)) {
      NormLeadsThere(at, Split(s), false);
    }
    if NormalForm(cs, false) && SamePlaces(cs, Split(s)) {
      assert SamePlaces(cs, Components(s));
      NormalFormsDiffer(cs, Components(s));
    }
  }

  /** And of a rooted one: the names of the directory to which it leads. */
  lemma RootedComponentsExactly(s: string)
    requires Rooted(s)
    ensures Components(s) == Reached([], Split(s))
  {
    ComponentsAreNormal(s);
    NormLeadsThere([], Split(s), true);
    var cs := Components(s);
    forall c | c in cs ensures Name(c) {
      var i :| 0 <= i < |cs| && cs[i] == c;
    }
    NamesAreReached([], cs);
  }

  // How far below its start a path is after its components, if no directory is in the way.
  function Level(cs: seq<string>): int {
    if cs == [] then 0
    else
      var c := cs[|cs| - 1];
      Level(cs[..|cs| - 1]) + if c == "" || c == "." then 0 else if c == UP then -1 else 1
  }

  predicate Above(cs: seq<string>, k: nat)
    requires k <= |cs|
  {
    Level(cs[..k]) < 0
  }

  ghost predicate GoesAbove(cs: seq<string>) { exists k | 0 <= k <= |cs| :: Above(cs, k) }

  /** A path climbs out exactly when it is above its start at some point on its way. */
  lemma {:induction false} ClimbsExactly(cs: seq<string>)
    requires forall c | c in cs :: SlashFree(c)
    ensures Climbs(Norm(cs, false)) <==> GoesAbove(cs)
    ensures !Climbs(Norm(cs, false)) ==> Level(cs) == |Norm(cs, false)|
  {
    if cs == [] {
      assert !Above(cs, 0);
    } else {
      var n := |cs| - 1;
      var shorter, stack := cs[..n], Norm(cs[..n], false);
      ClimbsExactly(shorter);
      NormIsNormal(shorter, false);
      assert cs[..n + 1] == cs;
      forall k | 0 <= k <= n ensures Above(shorter, k) <==> Above(cs, k) {
        assert shorter[..k] == cs[..k];
      }
      if Climbs(stack) {
        var k :| 0 <= k <= n && Above(shorter, k);
        assert Above(cs, k);
        StaysClimbing(stack, cs[n]);
      } else {
        assert Above(cs, n + 1) <==> Level(cs) < 0;
      }
    }
  }

  lemma StaysClimbing(stack: seq<string>, c: string)
    requires NormalForm(stack, false) && Climbs(stack)
    ensures Climbs(Push(stack, c, false))
  {}

  lemma NormalIsSlashFree(cs: seq<string>, rooted: bool)
    requires NormalForm(cs, rooted)
    ensures forall c | c in cs :: SlashFree(c) && c != "" && c != "."
  {
    forall c | c in cs ensures SlashFree(c) && c != "" && c != "." {
      var i :| 0 <= i < |cs| && cs[i] == c;
    }
  }

  /** A path built from a normal form has just those components. */
  lemma BuiltComponents(cs: seq<string>, rooted: bool)
    requires NormalForm(cs, rooted)
    ensures Rooted(Built(cs, rooted)) == rooted && Components(Built(cs, rooted)) == cs
  {
    NormalIsSlashFree(cs, rooted);
    NormalIsFixed(cs, rooted);
    if cs == [] {
      if rooted {
        assert Built(cs, rooted) == "/";
        SplitAtSlash("", "");
        assert "" + "/" + "" == "/";
        assert Split("/") == ["", ""];
        SkipsEmpty(["", ""], rooted);
      } else {
        SplitSlashFree(".");
        assert Norm(["."], false) == Push(Norm([], false), ".", false) by { assert ["."][..0] == []; }
      }
    } else {
      SplitJoined(cs);
      FirstCharacter(cs);
      if rooted {
        assert "" + "/" + Joined(cs) == "/" + Joined(cs);
        SplitAtSlash("", Joined(cs));
        assert Split("/" + Joined(cs)) == [""] + cs;
        LeadingEmpty(cs, rooted);
      }
    }
  }

  lemma FirstCharacter(cs: seq<string>)
    requires cs != [] && cs[0] != ""
    ensures Joined(cs) != "" && Joined(cs)[0] == cs[0][0]
  {}

  lemma SkipsEmpty(cs: seq<string>, rooted: bool)
    requires cs == ["", ""]
    ensures Norm(cs, rooted) == []
  {
    assert cs[..1] == [""] && [""][..0] == [];
    assert Norm([""], rooted) == Push(Norm([], rooted), "", rooted);
  }

  lemma {:induction false} LeadingEmpty(cs: seq<string>, rooted: bool)
    ensures Norm([""] + cs, rooted) == Norm(cs, rooted)
  {
    if cs == [] {
      assert [""] + cs == [""] && [""][..0] == [];
    } else {
      LeadingEmpty(cs[..|cs| - 1], rooted);
      assert ([""] + cs)[..|cs|] == [""] + cs[..|cs| - 1];
    }
  }

  lemma ComponentsAreNormal(s: string)
    ensures NormalForm(Components(s), Rooted(s))
  {
    NormIsNormal(Split(s), Rooted(s));
  }

  /** Cleaning twice is cleaning once, and cleaning keeps the components. */
  lemma CleanIsIdempotent(s: string)
    ensures Clean(s) != "" && Clean(Clean(s)) == Clean(s) && Components(Clean(s)) == Components(s) && Rooted(Clean(s)) == Rooted(s)
  {
    ComponentsAreNormal(s);
    BuiltComponents(Components(s), Rooted(s));
  }

  /** filepath.Join of two elements. */
  function Join(base: string, rel: string): string {
    if base == "" then (if rel == "" then "" else Clean(rel)) else Clean(base + "/" + rel)
  }

  // ---------- Relative paths ----------

  function Common(a: seq<string>, b: seq<string>): (k: nat)
    ensures k <= |a| && k <= |b| && a[..k] == b[..k]
    ensures k < |a| && k < |b| ==> a[k] != b[k]
  {
    if a != [] && b != [] && a[0] == b[0] then
      var k := Common(a[1..], b[1..]);
      assert a[..k + 1] == [a[0]] + a[1..][..k] && b[..k + 1] == [b[0]] + b[1..][..k];
      k + 1
    else 0
  }

  /** filepath.Rel: None when there is no relative path. */
  function Rel(base: string, target: string): Option<string> {
    var b, t := Components(base), Components(target);
    if Rooted(base) == Rooted(target) && b == t then Some(".")
    else if Rooted(base) != Rooted(target) then None
    else
      var k := Common(b, t);
      if k < |b| && b[k] == UP then None
      else Some(Joined(Ups(|b| - k) + t[k..]))
  }

  /** The relative path leads from the one to the other, wherever they are. */
  lemma RelLeadsThere(base: string, target: string, at: seq<string>)
    requires Rel(base, target).Some? && (Rooted(base) ==> at == [])
    ensures Reached(Reached(at, Components(base)), Split(Rel(base, target).value)) == Reached(at, Components(target))
  {
    ComponentsAreNormal(base);
    ComponentsAreNormal(target);
    hide Components, Reached, Split, Joined, Ups, Common, NormalForm;
    if Rel(base, target).value == "." && Components(base) == Components(target) {
      SplitSlashFree(".");
      StaysHere(Reached(at, Components(base)));
    } else {
      StepsBetween(at, Components(base), Components(target), Rooted(base));
    }
  }

  lemma StepsBetween(at: seq<string>, b: seq<string>, t: seq<string>, rooted: bool)
    requires NormalForm(b, rooted) && NormalForm(t, rooted) && b != t
    requires var k := Common(b, t); k < |b| ==> b[k] != UP
    ensures var k := Common(b, t); Reached(Reached(at, b), Split(Joined(Ups(|b| - k) + t[k..]))) == Reached(at, t)
  {
    hide Reached, Split, Joined, Ups, NormalForm;
    var k := Common(b, t);
    RelIsSplit(b, t, k, rooted);
    ReachedByMore(at, b[..k], b[k..]);
    ReachedByMore(at, b[..k], t[k..]);
    assert b == b[..k] + b[k..] && t == b[..k] + t[k..];
    NamesBehind(b, k, rooted);
    UpAndDown(Reached(at, b[..k]), b[k..], t[k..]);
  }

  lemma StaysHere(at: seq<string>)
    ensures Reached(at, ["."]) == at
  {
    assert ["."][1..] == [];
  }

  lemma RelIsSplit(b: seq<string>, t: seq<string>, k: nat, rooted: bool)
    requires b != t && k == Common(b, t) && NormalForm(t, rooted)
    ensures Split(Joined(Ups(|b| - k) + t[k..])) == Ups(|b| - k) + t[k..]
  {
    var cs := Ups(|b| - k) + t[k..];
    NormalIsSlashFree(t, rooted);
    hide Split, Joined;
    assert b[..|b|] == b && t[..|t|] == t;
    forall c | c in cs ensures SlashFree(c) {
      assert c == UP || c in t;
    }
    SplitJoined(cs);
  }

  lemma NamesBehind(b: seq<string>, k: nat, rooted: bool)
    requires NormalForm(b, rooted) && k <= |b| && (k < |b| ==> b[k] != UP)
    ensures forall c | c in b[k..] :: Name(c)
  {
    forall c | c in b[k..] ensures Name(c) {
      var i :| k <= i < |b| && b[i] == c;
    }
  }

  // Down by some names and up again.
  lemma UpAndDown(at: seq<string>, names: seq<string>, rest: seq<string>)
    requires forall c | c in names :: Name(c)
    ensures Reached(Reached(at, names), Ups(|names|) + rest) == Reached(at, rest)
  {
    hide Reached;
    NamesAreReached(at, names);
    ReachedByMore(at + names, Ups(|names|), rest);
    UpsAreReached(at + names, |names|);
    assert (at + names)[..|at|] == at;
  }

  predicate Escapes(s: string) { s == UP || "../" <= s }

  /** The string test for climbing looks at the first component only. */
  lemma EscapesExactly(cs: seq<string>)
    requires cs != [] && forall c | c in cs :: SlashFree(c) && c != ""
    ensures Escapes(Joined(cs)) <==> cs[0] == UP
  {
    var s := Joined(cs);
    if |cs| > 1 {
      assert s == cs[0] + ("/" + Joined(cs[1..]));
    }
    if cs[0] == UP {
      if |cs| > 1 {
        assert s[..3] == "../";
      }
    } else if Escapes(s) {
      SplitJoined(cs);
      if s == UP {
        SplitSlashFree(UP);
      } else {
        assert s == UP + "/" + s[3..];
        SplitAtSlash(UP, s[3..]);
        SplitSlashFree(UP);
      }
    }
  }

  // ---------- The explicit working directory ----------

  datatype PathError = Absolute | EscapesRoot

  /** The path checks of ResolveAppDir for a trimmed working directory that is neither empty nor the root. */
  function AppPath(repoPath: string, workingDir: string): Result<string, PathError> {
    if Rooted(workingDir) || (workingDir != "" && workingDir[0] == '\\') then Err(Absolute)
    else
      var cleanRel := Clean(workingDir);
      if Escapes(cleanRel) || cleanRel == "/" then Err(EscapesRoot)
      else
        var appPath := Join(repoPath, cleanRel);
        var rel := Rel(repoPath, appPath);
        if rel.None? || Escapes(rel.value) then Err(EscapesRoot)
        else Ok(appPath)
  }

  /** The test on the cleaned string sees exactly the relative paths that climb out. */
  lemma FirstCheck(workingDir: string)
    requires !Rooted(workingDir)
    ensures var cleanRel := Clean(workingDir);
            (Escapes(cleanRel) || cleanRel == "/") <==> Climbs(Components(workingDir))
    ensures !Climbs(Components(workingDir)) ==> forall c | c in Components(workingDir) :: Name(c)
  {
    var cs := Components(workingDir);
    ComponentsAreNormal(workingDir);
    NormalIsSlashFree(cs, false);
    CleanIsIdempotent(workingDir);
    if cs != [] {
      EscapesExactly(cs);
      FirstCharacter(cs);
      assert SlashFree(cs[0]);
    }
    assert forall i | 0 < i < |cs| && cs[i] == UP :: cs[0] == UP;
    if !Climbs(cs) {
      forall c | c in cs ensures Name(c) {
        var i :| 0 <= i < |cs| && cs[i] == c;
      }
    }
  }

  /** Joining names below a directory appends them to its components. */
  lemma JoinAppends(base: string, rel: string)
    requires !Rooted(rel) && rel != "" && forall c | c in Components(rel) :: Name(c)
    ensures Components(Join(base, Clean(rel))) == Components(base) + Components(rel)
    ensures Rooted(Join(base, Clean(rel))) == Rooted(base)
  {
    var names, cleaned := Components(rel), Clean(rel);
    CleanIsIdempotent(rel);
    if base == "" {
      CleanIsIdempotent(cleaned);
      assert Components("") == [] by { NoComponents(); }
    } else {
      var whole := base + "/" + cleaned;
      SplitAtSlash(base, cleaned);
      assert Rooted(whole) == Rooted(base);
      CleanIsIdempotent(whole);
      if names == [] {
        SplitSlashFree(".");
        assert (Split(base) + ["."])[..|Split(base)|] == Split(base);
        assert Components(base) + names == Components(base);
      } else {
        ComponentsAreNormal(rel);
        NormalIsSlashFree(names, false);
        SplitJoined(names);
        NamesArePushed(Split(base), names, Rooted(base));
      }
    }
  }

  lemma NoComponents()
    ensures Components("") == []
  {
    assert [""][..0] == [];
    assert Norm([""], false) == Push(Norm([], false), "", false);
  }

  /** The second containment check never fires after the first. */
  lemma SecondCheckNeverFires(repoPath: string, workingDir: string)
    requires workingDir != "" && !Rooted(workingDir) && !Climbs(Components(workingDir))
    ensures Rel(repoPath, Join(repoPath, Clean(workingDir))) == Some(Clean(workingDir))
    ensures !Escapes(Clean(workingDir))
  {
    var names := Components(workingDir);
    FirstCheck(workingDir);
    JoinAppends(repoPath, workingDir);
    var b, t := Components(repoPath), Components(Join(repoPath, Clean(workingDir)));
    assert t == b + names;
    if names == [] {
      assert t == b;
    } else {
      CommonPrefix(b, names);
      assert Ups(0) + t[|b|..] == names;
    }
  }

  lemma {:induction false} CommonPrefix(b: seq<string>, names: seq<string>)
    ensures Common(b, b + names) == |b|
  {
    if b != [] {
      assert (b + names)[1..] == b[1..] + names;
      CommonPrefix(b[1..], names);
    }
  }

  /**
   A working directory passes the checks exactly when it is neither absolute
   nor backslashed and never climbs above its start; the path is then where its
   components lead from the repository, and inside it.
   */
  lemma PathChecksExactly(repoPath: string, workingDir: string)
    requires workingDir != ""
    ensures var r := AppPath(repoPath, workingDir);
            && (r == Err(Absolute) <==> workingDir[0] == '/' || workingDir[0] == '\\')
            && (r == Err(EscapesRoot) <==> workingDir[0] != '/' && workingDir[0] != '\\' && GoesAbove(Split(workingDir)))
            && (r.Ok? <==> workingDir[0] != '/' && workingDir[0] != '\\' && !GoesAbove(Split(workingDir)))
    ensures var r := AppPath(repoPath, workingDir);
            r.Ok? ==>
              && Components(r.value) == Reached(Components(repoPath), Split(workingDir)) == Components(repoPath) + Components(workingDir)
              && Rooted(r.value) == Rooted(repoPath)
              && !Climbs(Components(workingDir)) && forall c | c in Components(workingDir) :: Name(c)
  {
    hide Reached, GoesAbove, Clean, Join, Rel, Norm, Escapes;
    assert Rooted(workingDir) <==> workingDir[0] == '/';
    if !Rooted(workingDir) {
      FirstCheck(workingDir);
      ClimbsExactly(Split(workingDir));
      if !Climbs(Components(workingDir)) {
        SecondCheckNeverFires(repoPath, workingDir);
        JoinAppends(repoPath, workingDir);
        NormLeadsThere(Components(repoPath), Split(workingDir), false);
        NamesAreReached(Components(repoPath), Components(workingDir));
        assert workingDir[0] != '\\' ==> AppPath(repoPath, workingDir).Ok?;
      } else {
        assert workingDir[0] != '\\' ==> AppPath(repoPath, workingDir) == Err(EscapesRoot);
      }
    }
  }

  // ---------- The output directory ----------

  function Stripped(dir: string): string {
    var t := TrimSpace(dir);
    if "./" <= t then t[2..] else t
  }

  /** sanitizeOutputDir: the cleaned directory, or the empty string for anything unsafe. */
  function SanitizeOutputDir(dir: string): string {
    var c := Clean(Stripped(dir));
    if c == "." || c == "" || Rooted(c) || UP <= c then "" else c
  }

  /** A relative path below the root that no component climbs out of, in its normal form. */
  predicate Inside(s: string) {
    s != "" && !Rooted(s) && Components(s) != [] && Clean(s) == s && forall c | c in Components(s) :: Name(c)
  }

  // Neither absolute nor the root itself, and not beginning with two dots.
  predicate Usable(dir: string) {
    var u := Stripped(dir);
    !Rooted(u) && Components(u) != [] && !(UP <= Components(u)[0])
  }

  /**
   What is let through is inside the repository; refused are exactly the
   absolute paths, the root itself and what begins with two dots.
   */
  lemma SanitizeExactly(dir: string)
    ensures var t, u := TrimSpace(dir), Stripped(dir); if "./" <= t then t == "./" + u else t == u
    ensures var u, r := Stripped(dir), SanitizeOutputDir(dir);
            && (r != "" <==> Usable(dir))
            && (r != "" ==> Inside(r) && Components(r) == Components(u))
  {
    var u := Stripped(dir);
    var cs := Components(u);
    hide TrimSpace;
    CleanIsIdempotent(u);
    ComponentsAreNormal(u);
    NormalIsSlashFree(cs, Rooted(u));
    if cs != [] && !Rooted(u) {
      FirstCharacter(cs);
      BeginsAlike(cs);
      DotOnlyIfDot(cs);
      if !Climbs(cs) {
        FirstCheck(u);
      }
    }
  }

  /** Two dots begin the string exactly when they begin the first component. */
  lemma BeginsAlike(cs: seq<string>)
    requires cs != [] && forall c | c in cs :: SlashFree(c) && c != ""
    ensures UP <= Joined(cs) <==> UP <= cs[0]
  {
    var s := Joined(cs);
    assert cs[0] in cs;
    if |cs| > 1 {
      assert s == cs[0] + ("/" + Joined(cs[1..]));
      if |cs[0]| == 1 {
        assert s[1] == '/';
      }
    }
  }

  lemma DotOnlyIfDot(cs: seq<string>)
    requires cs != [] && forall c | c in cs :: SlashFree(c) && c != "" && c != "."
    ensures Joined(cs) != "."
  {
    assert cs[0] in cs;
    if |cs| > 1 {
      assert |Joined(cs)| >= |cs[0]| + 1 && |cs[0]| >= 1;
    }
  }
}
