/** What a directory's own files say about its framework. */
module Detect {
  import opened Wrappers
  import Paths

  // ---------- Directories ----------

  // What parsing a package.json gives; a missing or null member is a nil map.
  datatype Package = Package(
    dependencies: Option<map<string, string>>,
    devDependencies: Option<map<string, string>>,
    scripts: Option<map<string, string>>)

  // contents is the file parsed as a package.json, None if that fails.
  datatype Node =
    | File(contents: Option<Package>)
    | Folder(entries: seq<Entry>, readable: bool)

  datatype Entry = Entry(name: string, node: Node)

  function LowerChar(c: char): char {
    if 'A' <= c <= 'Z' then (c as int + 32) as char else c
  }

  function Lower(s: string): string { seq(|s|, i requires 0 <= i < |s| => LowerChar(s[i])) }

  /** buildRootFileSet: the lower-case names of the files, nothing for what cannot be read. */
  function RootFiles(dir: Node): set<string> {
    if dir.Folder? && dir.readable then FileNames(dir.entries) else {}
  }

  function FileNames(entries: seq<Entry>): set<string> {
    if entries == [] then {}
    else FileNames(entries[..|entries| - 1]) + if entries[|entries| - 1].node.File? then {Lower(entries[|entries| - 1].name)} else {}
  }

  function Lookup(entries: seq<Entry>, name: string): Option<Node> {
    if entries == [] then None
    else if entries[0].name == name then Some(entries[0].node)
    else Lookup(entries[1..], name)
  }

  const PACKAGE_JSON := "package.json"
  const DOCKERFILE := "dockerfile"

  /** readPackageJSON opens the exact name. */
  function ReadPackage(dir: Node): Option<Package> {
    if !dir.Folder? then None
    else match Lookup(dir.entries, PACKAGE_JSON)
      case Some(File(contents)) => contents
      case _ => None
  }

  // ---------- Builders ----------

  datatype Builder =
    | Angular | Nextjs | Nuxt | Sveltekit | Remix | Gatsby | Astro | Vite | Svelte | Vue | Solid | React
    | GoLang | Rust | Dotnet | JavaMaven | JavaGradle | Ruby | Php | Elixir | Python
    | NodeJs | TanstackStart | Docker

  // In order of priority; NodeJs, TanstackStart and Docker are never looked up here.
  const BUILDERS: seq<Builder> :=
    [Angular, Nextjs, Nuxt, Sveltekit, Remix, Gatsby, Astro, Vite, Svelte, Vue, Solid, React,
     GoLang, Rust, Dotnet, JavaMaven, JavaGradle, Ruby, Php, Elixir, Python]

  function ConfigFiles(b: Builder): seq<string> {
    match b
    case Angular => ["angular.json"]
    case Nextjs => ["next.config.ts", "next.config.js", "next.config.mjs", "next.config.tsx", "next.config.jsx"]
    case Nuxt => ["nuxt.config.ts", "nuxt.config.js", "nuxt.config.mjs"]
    case Sveltekit => ["svelte.config.ts", "svelte.config.js", "svelte.config.cjs"]
    case Remix => ["remix.config.js", "remix.config.ts", "remix.vite.config.ts", "remix.vite.config.js"]
    case Gatsby => ["gatsby-config.ts", "gatsby-config.js", "gatsby-config.mjs"]
    case Astro => ["astro.config.ts", "astro.config.js", "astro.config.mjs"]
    case Vite => ["vite.config.ts", "vite.config.js", "vite.config.mjs"]
    case GoLang => ["go.mod"]
    case Rust => ["Cargo.toml"]
    case Dotnet => ["global.json", "Directory.Build.props"]
    case JavaMaven => ["pom.xml"]
    case JavaGradle => ["build.gradle", "build.gradle.kts"]
    case Ruby => ["Gemfile"]
    case Php => ["composer.json"]
    case Elixir => ["mix.exs"]
    case Python => ["requirements.txt", "pyproject.toml", "Pipfile"]
    case _ => []
  }

  function Deps(b: Builder): seq<string> {
    match b
    case Angular => ["@angular/core"]
    case Nextjs => ["next"]
    case Nuxt => ["nuxt"]
    case Sveltekit => ["@sveltejs/kit"]
    case Remix => ["@remix-run/node", "@remix-run/react"]
    case Gatsby => ["gatsby"]
    case Astro => ["astro"]
    case Vite => ["vite"]
    case Svelte => ["svelte"]
    case Vue => ["vue"]
    case Solid => ["solid-js"]
    case React => ["react", "react-dom"]
    case _ => []
  }

  // Frameworks that hide behind a vite or astro configuration.
  const RECIPE_DEPS: seq<string> := ["@tanstack/react-start", "@tanstack/start", "@tanstack/solid-start"]
  const VITE_SSR_DEPS: seq<string> := ["vike", "vite-plugin-ssr", "@builder.io/qwik-city", "waku"]
  const ASTRO_SSR_DEPS: seq<string> :=
    ["@astrojs/node", "@astrojs/vercel", "@astrojs/cloudflare", "@astrojs/netlify", "@astrojs/deno"]

  datatype Detection = Detected(builder: Builder) | Refused(config: Builder) | NoFramework

  function Members(m: Option<map<string, string>>): map<string, string> {
    match m case Some(members) => members case None => map[]
  }

  predicate HasDep(pkg: Package, dep: string) {
    dep in Members(pkg.dependencies) || dep in Members(pkg.devDependencies)
  }

  predicate HasAnyDep(pkg: Package, deps: seq<string>) { exists i | 0 <= i < |deps| :: HasDep(pkg, deps[i]) }

  predicate Configures(files: set<string>, b: Builder) {
    exists i | 0 <= i < |ConfigFiles(b)| :: Lower(ConfigFiles(b)[i]) in files
  }

  // The first of the builders from position at on that satisfies the test.
  function FirstOf(at: nat, test: Builder -> bool): Option<Builder>
    requires at <= |BUILDERS|
    decreases |BUILDERS| - at
  {
    if at == |BUILDERS| then None else if test(BUILDERS[at]) then Some(BUILDERS[at]) else FirstOf(at + 1, test)
  }

  /** checkSSRMetaFramework and the decision on its answer. */
  function ConfigDetection(pkg: Option<Package>, b: Builder): Detection {
    if pkg.None? || (b != Vite && b != Astro) then Detected(b)
    else if b == Vite && HasAnyDep(pkg.value, RECIPE_DEPS) then Detected(TanstackStart)
    else if HasAnyDep(pkg.value, if b == Vite then VITE_SSR_DEPS else ASTRO_SSR_DEPS) then Refused(b)
    else Detected(b)
  }

  /** package.json without any configuration file. */
  function PackageDetection(pkg: Package): Detection {
    match FirstOf(0, b => HasAnyDep(pkg, Deps(b)))
    case Some(b) => Detected(b)
    case None => if pkg.dependencies.Some? || pkg.devDependencies.Some? then Detected(NodeJs) else NoFramework
  }

  function DetectionAtRoot(dir: Node): Detection {
    var files := RootFiles(dir);
    match FirstOf(0, b => Configures(files, b))
    case Some(b) => ConfigDetection(ReadPackage(dir), b)
    case None =>
      var byPackage := if PACKAGE_JSON in files && ReadPackage(dir).Some? then PackageDetection(ReadPackage(dir).value) else NoFramework;
      if byPackage != NoFramework then byPackage
      else if DOCKERFILE in files then Detected(Docker)
      else NoFramework
  }

  predicate Configured(files: set<string>) { exists i | 0 <= i < |BUILDERS| :: Configures(files, BUILDERS[i]) }

  predicate Declares(pkg: Package) {
    |Members(pkg.dependencies)| > 0 || |Members(pkg.devDependencies)| > 0 || |Members(pkg.scripts)| > 0
  }

  /** The directory identifies itself: a configuration file, a package.json that declares something, or a Dockerfile. */
  predicate Manifest(dir: Node) {
    var files := RootFiles(dir);
    || Configured(files)
    || (PACKAGE_JSON in files && ReadPackage(dir).Some? && Declares(ReadPackage(dir).value))
    || DOCKERFILE in files
  }

  // ---------- The loops ----------

  method AnyConfig(files: set<string>, b: Builder) returns (found: bool)
    ensures found <==> Configures(files, b)
  {
    hide ConfigFiles, Lower;
    var configs := ConfigFiles(b);
    for i := 0 to |configs|
      invariant forall j | 0 <= j < i :: Lower(configs[j]) !in files
    {
      if Lower(configs[i]) in files {
        return true;
      }
    }
    found := false;
  }

  method AnyDep(pkg: Package, deps: seq<string>) returns (found: bool)
    ensures found <==> HasAnyDep(pkg, deps)
  {
    for i := 0 to |deps|
      invariant forall j | 0 <= j < i :: !HasDep(pkg, deps[j])
    {
      if HasDep(pkg, deps[i]) {
        return true;
      }
    }
    found := false;
  }

  method HasRootManifest(dir: Node) returns (found: bool)
    ensures found <==> Manifest(dir)
  {
    hide ConfigFiles, Lower, Configures, BUILDERS;
    var files := RootFiles(dir);
    if files == {} {
      NothingConfigured();
      return false;
    }
    for i := 0 to |BUILDERS|
      invariant forall j | 0 <= j < i :: !Configures(files, BUILDERS[j])
    {
      var configured := AnyConfig(files, BUILDERS[i]);
      if configured {
        return true;
      }
    }
    if PACKAGE_JSON in files {
      var pkg := ReadPackage(dir);
      if pkg.Some? && Declares(pkg.value) {
        return true;
      }
    }
    found := DOCKERFILE in files;
  }

  lemma NothingConfigured()
    ensures !Configured({})
  {
    hide ConfigFiles, Lower, BUILDERS;
  }

  method DetectFrameworkAtRoot(dir: Node) returns (d: Detection)
    ensures d == DetectionAtRoot(dir)
  {
    hide ConfigFiles, Deps, Lower, Configures, BUILDERS, HasAnyDep, RECIPE_DEPS, VITE_SSR_DEPS, ASTRO_SSR_DEPS;
    var files := RootFiles(dir);
    var pkg := ReadPackage(dir);
    ghost var configures := b => Configures(files, b);
    for i := 0 to |BUILDERS|
      invariant FirstOf(0, configures) == FirstOf(i, configures)
    {
      var configured := AnyConfig(files, BUILDERS[i]);
      if configured {
        d := CheckSSRMetaFramework(pkg, BUILDERS[i]);
        return;
      }
    }
    if PACKAGE_JSON in files && pkg.Some? {
      d := DetectByPackage(pkg.value);
      if d != NoFramework {
        return;
      }
    }
    d := if DOCKERFILE in files then Detected(Docker) else NoFramework;
  }

  method CheckSSRMetaFramework(pkg: Option<Package>, b: Builder) returns (d: Detection)
    ensures d == ConfigDetection(pkg, b)
  {
    hide HasAnyDep, RECIPE_DEPS, VITE_SSR_DEPS, ASTRO_SSR_DEPS;
    if pkg.None? || (b != Vite && b != Astro) {
      return Detected(b);
    }
    if b == Vite {
      var recipe := AnyDep(pkg.value, RECIPE_DEPS);
      if recipe {
        return Detected(TanstackStart);
      }
    }
    var refused := AnyDep(pkg.value, if b == Vite then VITE_SSR_DEPS else ASTRO_SSR_DEPS);
    d := if refused then Refused(b) else Detected(b);
  }

  method DetectByPackage(pkg: Package) returns (d: Detection)
    ensures d == PackageDetection(pkg)
  {
    hide HasAnyDep, Deps, BUILDERS;
    ghost var depends := b => HasAnyDep(pkg, Deps(b));
    for i := 0 to |BUILDERS|
      invariant FirstOf(0, depends) == FirstOf(i, depends)
    {
      var found := AnyDep(pkg, Deps(BUILDERS[i]));
      if found {
        return Detected(BUILDERS[i]);
      }
    }
    d := if pkg.dependencies.Some? || pkg.devDependencies.Some? then Detected(NodeJs) else NoFramework;
  }

  // ---------- Two predicates that nearly agree ----------

  lemma {:induction false} FirstOfFinds(at: nat, test: Builder -> bool)
    requires at <= |BUILDERS|
    ensures FirstOf(at, test).Some? <==> exists i | at <= i < |BUILDERS| :: test(BUILDERS[i])
    ensures FirstOf(at, test).Some? ==> test(FirstOf(at, test).value)
    decreases |BUILDERS| - at
  {
    hide BUILDERS;
    if at < |BUILDERS| {
      FirstOfFinds(at + 1, test);
    }
  }

  // The package.json shapes on which the two disagree.
  predicate OnlyScripts(pkg: Package) {
    pkg.dependencies.None? && pkg.devDependencies.None? && |Members(pkg.scripts)| > 0
  }

  predicate EmptyMapsOnly(pkg: Package) {
    !Declares(pkg) && (pkg.dependencies.Some? || pkg.devDependencies.Some?)
  }

  lemma PackageDetectionExactly(pkg: Package)
    ensures PackageDetection(pkg) != NoFramework <==> pkg.dependencies.Some? || pkg.devDependencies.Some?
  {
    hide BUILDERS, Deps;
    FirstOfFinds(0, b => HasAnyDep(pkg, Deps(b)));
  }

  lemma ConfigFound(files: set<string>)
    ensures FirstOf(0, b => Configures(files, b)).Some? <==> Configured(files)
  {
    hide BUILDERS, Configures;
    FirstOfFinds(0, b => Configures(files, b));
  }

  /**
   A directory has a manifest exactly when detection finds a framework in it,
   except for a package.json of one of two shapes beside no configuration file
   and no Dockerfile.
   */
  lemma ManifestMatchesDetection(dir: Node)
    ensures (Manifest(dir) <==> DetectionAtRoot(dir) != NoFramework) <==>
              var files, pkg := RootFiles(dir), ReadPackage(dir);
              || Configured(files) || DOCKERFILE in files || PACKAGE_JSON !in files || pkg.None?
              || !(OnlyScripts(pkg.value) || EmptyMapsOnly(pkg.value))
  {
    hide FirstOf, Configured, BUILDERS, HasAnyDep, PackageDetection, RootFiles, ReadPackage;
    ConfigFound(RootFiles(dir));
    if ReadPackage(dir).Some? {
      PackageDetectionExactly(ReadPackage(dir).value);
    }
  }

  /** The builder that a configuration file stands for comes before any other with one. */
  lemma {:induction false} FirstOfIsFirst(at: nat, test: Builder -> bool, i: nat)
    requires at <= i < |BUILDERS| && test(BUILDERS[i])
    ensures exists j | at <= j <= i :: FirstOf(at, test) == Some(BUILDERS[j]) && forall k | at <= k < j :: !test(BUILDERS[k])
    decreases |BUILDERS| - at
  {
    hide BUILDERS;
    if !test(BUILDERS[at]) {
      FirstOfIsFirst(at + 1, test, i);
    }
  }

  // ---------- The answer ----------

  /** Files are known by their lower-case names; what is not a file, or cannot be read, is not known. */
  lemma {:induction false} RootFilesExactly(entries: seq<Entry>, readable: bool, name: string)
    ensures name in RootFiles(Folder(entries, readable)) <==>
              readable && exists i | 0 <= i < |entries| :: entries[i].node.File? && Lower(entries[i].name) == name
  {
    hide Lower;
    if readable && entries != [] {
      var n := |entries| - 1;
      RootFilesExactly(entries[..n], readable, name);
      if i :| 0 <= i < n && entries[..n][i].node.File? && Lower(entries[..n][i].name) == name {
        assert entries[i] == entries[..n][i];
      }
    }
  }

  /** Case does not matter for a file's name, and nothing else of it is lost. */
  lemma LowerExactly(s: string, t: string)
    ensures Lower(s) == Lower(t) <==>
              |s| == |t| && forall i | 0 <= i < |s| ::
                s[i] == t[i] || (s[i] in UPPER && t[i] in LOWER && s[i] as int + 32 == t[i] as int)
                || (t[i] in UPPER && s[i] in LOWER && t[i] as int + 32 == s[i] as int)
  {
    LettersExactly();
    hide UPPER, LOWER;
    if |s| == |t| && forall i | 0 <= i < |s| :: LowerChar(s[i]) == LowerChar(t[i]) {
      assert Lower(s) == Lower(t);
    }
    if Lower(s) == Lower(t) {
      assert |s| == |Lower(s)| == |t|;
      forall i | 0 <= i < |s| ensures LowerChar(s[i]) == LowerChar(t[i]) {
        assert Lower(s)[i] == Lower(t)[i];
      }
    }
  }

  const UPPER := "ABCDEFGHIJKLMNOPQRSTUVWXYZ"
  const LOWER := "abcdefghijklmnopqrstuvwxyz"

  lemma LettersExactly()
    ensures forall c :: c in UPPER <==> 'A' <= c <= 'Z'
    ensures forall c :: c in LOWER <==> 'a' <= c <= 'z'
  {}

  /** A builder's configuration file is seen in whatever case its name is written. */
  lemma ConfigurationIsSeen(entries: seq<Entry>, b: Builder, i: nat, j: nat)
    requires i < |ConfigFiles(b)| && j < |entries| && entries[j].node.File? && Lower(entries[j].name) == Lower(ConfigFiles(b)[i])
    ensures Configures(RootFiles(Folder(entries, true)), b)
  {
    hide Lower, ConfigFiles, RootFiles;
    RootFilesExactly(entries, true, Lower(ConfigFiles(b)[i]));
  }

  /** It makes no difference under which of the two members a dependency is declared. */
  lemma DevDependenciesCount(pkg: Package)
    ensures var swapped := pkg.(dependencies := pkg.devDependencies, devDependencies := pkg.dependencies);
            PackageDetection(swapped) == PackageDetection(pkg) && forall dep :: HasDep(swapped, dep) <==> HasDep(pkg, dep)
  {
    var swapped := pkg.(dependencies := pkg.devDependencies, devDependencies := pkg.dependencies);
    assert forall dep :: HasDep(swapped, dep) <==> HasDep(pkg, dep);
    hide HasDep, BUILDERS, Deps;
    SameFirst(x => HasAnyDep(swapped, Deps(x)), x => HasAnyDep(pkg, Deps(x)), 0);
  }

  lemma {:induction false} SameFirst(a: Builder -> bool, b: Builder -> bool, at: nat)
    requires at <= |BUILDERS| && forall x :: a(x) <==> b(x)
    ensures FirstOf(at, a) == FirstOf(at, b)
    decreases |BUILDERS| - at
  {
    hide BUILDERS;
    if at < |BUILDERS| {
      SameFirst(a, b, at + 1);
    }
  }

  lemma NoLaterBuilder(pkg: Package, i: nat)
    requires i < |BUILDERS| && HasAnyDep(pkg, Deps(BUILDERS[i]))
    ensures exists j | 0 <= j <= i :: PackageDetection(pkg) == Detected(BUILDERS[j])
  {
    hide BUILDERS, Deps, HasAnyDep;
    FirstOfIsFirst(0, b => HasAnyDep(pkg, Deps(b)), i);
  }

  /** A framework built on another is never taken for that one, whatever else is declared. */
  lemma SpecialComesBeforeGeneral(pkg: Package)
    ensures (exists dep | dep in {"@angular/core", "next", "@remix-run/node", "@remix-run/react", "gatsby"} :: HasDep(pkg, dep)) ==>
              PackageDetection(pkg) != Detected(React)
    ensures HasDep(pkg, "nuxt") ==> PackageDetection(pkg) != Detected(Vue)
    ensures HasDep(pkg, "@sveltejs/kit") ==> PackageDetection(pkg) != Detected(Svelte)
  {
    hide PackageDetection, HasDep, BUILDERS, Deps;
    TellingDeps();
    EarlyBuilder(pkg, 0, 0);
    EarlyBuilder(pkg, 1, 0);
    EarlyBuilder(pkg, 2, 0);
    EarlyBuilder(pkg, 3, 0);
    EarlyBuilder(pkg, 4, 0);
    EarlyBuilder(pkg, 4, 1);
    EarlyBuilder(pkg, 5, 0);
  }

  lemma TellingDeps()
    ensures |BUILDERS| > 6 && Deps(BUILDERS[0]) == ["@angular/core"] && Deps(BUILDERS[1]) == ["next"] && Deps(BUILDERS[2]) == ["nuxt"]
    ensures Deps(BUILDERS[3]) == ["@sveltejs/kit"] && Deps(BUILDERS[4]) == ["@remix-run/node", "@remix-run/react"]
    ensures Deps(BUILDERS[5]) == ["gatsby"]
  {}

  lemma EarlyBuilder(pkg: Package, i: nat, k: nat)
    requires i < 6 && k < |Deps(BUILDERS[i])|
    ensures HasDep(pkg, Deps(BUILDERS[i])[k]) ==> PackageDetection(pkg) !in {Detected(React), Detected(Vue), Detected(Svelte)}
  {
    assert forall j | 0 <= j < 6 :: BUILDERS[j] !in {React, Vue, Svelte};
    hide BUILDERS, Deps, HasDep, PackageDetection;
    if HasDep(pkg, Deps(BUILDERS[i])[k]) {
      NoLaterBuilder(pkg, i);
    }
  }

  /** A directory with a Dockerfile and nothing else is built by it. */
  lemma DockerfileIsSeen()
    ensures DetectionAtRoot(Folder([Entry("Dockerfile", File(None))], true)) == Detected(Docker)
  {
    var dir := Folder([Entry("Dockerfile", File(None))], true);
    assert dir.entries[..0] == [] && FileNames([]) == {};
    assert Lower("Dockerfile") == DOCKERFILE;
    assert RootFiles(dir) == {DOCKERFILE};
    forall b: Builder, i | 0 <= i < |ConfigFiles(b)| ensures Lower(ConfigFiles(b)[i]) != DOCKERFILE {
      NotDockerfile(b, i);
    }
    assert |DOCKERFILE| != |PACKAGE_JSON|;
    hide FirstOf, BUILDERS, RootFiles, ReadPackage, NamesFirst;
    UnconfiguredAnswer(dir);
  }

  lemma NotDockerfile(b: Builder, i: nat)
    requires i < |ConfigFiles(b)|
    ensures Lower(ConfigFiles(b)[i]) != DOCKERFILE
  {
    var name := ConfigFiles(b)[i];
    assert |name| != 10 || name[0] == 'C';
    assert |Lower(name)| == |name| && (|name| == 10 ==> Lower(name)[0] == LowerChar(name[0]));
    assert |DOCKERFILE| == 10 && DOCKERFILE[0] == 'd';
  }

  /** The package.json that is read is the first entry of exactly that name, if it is a file that parses. */
  lemma {:induction false} LookupExactly(entries: seq<Entry>, name: string, node: Node)
    ensures Lookup(entries, name) == Some(node) <==>
              exists i | 0 <= i < |entries| :: entries[i] == Entry(name, node) && forall j | 0 <= j < i :: entries[j].name != name
  {
    if entries != [] {
      LookupExactly(entries[1..], name, node);
      if entries[0].name != name {
        if i :| 0 <= i < |entries[1..]| && entries[1..][i] == Entry(name, node) && forall j | 0 <= j < i :: entries[1..][j].name != name {
          assert entries[i + 1] == Entry(name, node);
          assert forall j | 0 <= j < i + 1 :: j == 0 || entries[j] == entries[1..][j - 1];
        }
        if i :| 0 <= i < |entries| && entries[i] == Entry(name, node) && forall j | 0 <= j < i :: entries[j].name != name {
          assert entries[1..][i - 1] == entries[i];
          assert forall j | 0 <= j < i - 1 :: entries[1..][j] == entries[j + 1];
        }
      } else {
        assert entries[0] == Entry(entries[0].name, entries[0].node);
      }
    }
  }

  /** One of this builder's configuration files is there, and none of any builder before it. */
  predicate ConfiguresFirst(files: set<string>, i: nat)
    requires i < |BUILDERS|
  {
    Configures(files, BUILDERS[i]) && forall j | 0 <= j < i :: !Configures(files, BUILDERS[j])
  }

  predicate DependsOn(dir: Node, deps: seq<string>) {
    ReadPackage(dir).Some? && HasAnyDep(ReadPackage(dir).value, deps)
  }

  /**
   A configuration file decides: for its builder, unless that is vite or astro
   and a dependency tells a server framework behind it.
   */
  lemma ConfiguredAnswer(dir: Node, i: nat)
    requires i < |BUILDERS| && ConfiguresFirst(RootFiles(dir), i)
    ensures var b, d := BUILDERS[i], DetectionAtRoot(dir);
            var recipe := b == Vite && DependsOn(dir, RECIPE_DEPS);
            var hidden := (b == Vite && DependsOn(dir, VITE_SSR_DEPS)) || (b == Astro && DependsOn(dir, ASTRO_SSR_DEPS));
            && (d == Detected(TanstackStart) <==> recipe)
            && (d == Refused(b) <==> !recipe && hidden)
            && (d == Detected(b) <==> !recipe && !hidden)
  {
    NoTanstack(i);
    hide BUILDERS, Configures, ConfiguresFirst, FirstOf, HasAnyDep, ReadPackage, RootFiles, RECIPE_DEPS, VITE_SSR_DEPS, ASTRO_SSR_DEPS;
    FirstConfigured(RootFiles(dir), i);
  }

  lemma FirstConfigured(files: set<string>, i: nat)
    requires i < |BUILDERS| && ConfiguresFirst(files, i)
    ensures FirstOf(0, b => Configures(files, b)) == Some(BUILDERS[i])
  {
    hide BUILDERS, Configures, FirstOf;
    var test := b => Configures(files, b);
    FirstOfIsFirst(0, test, i);
    FirstOfFinds(0, test);
    var j :| 0 <= j <= i && FirstOf(0, test) == Some(BUILDERS[j]) && forall k | 0 <= k < j :: !test(BUILDERS[k]);
    assert test(BUILDERS[j]);
  }

  lemma NoTanstack(i: nat)
    requires i < |BUILDERS|
    ensures BUILDERS[i] != TanstackStart
  {}

  /**
   Without a configuration file: the first builder that the dependencies name,
   else Node when any are declared, else Docker when there is a Dockerfile.
   */
  lemma UnconfiguredAnswer(dir: Node)
    requires !Configured(RootFiles(dir))
    ensures var files, d := RootFiles(dir), DetectionAtRoot(dir);
            var read := PACKAGE_JSON in files && ReadPackage(dir).Some?;
            var named := read && exists i | 0 <= i < |BUILDERS| :: NamesFirst(ReadPackage(dir).value, BUILDERS[i]);
            var declared := read && (ReadPackage(dir).value.dependencies.Some? || ReadPackage(dir).value.devDependencies.Some?);
            && (forall i | 0 <= i < |BUILDERS| :: d == Detected(BUILDERS[i]) <==> read && NamesFirst(ReadPackage(dir).value, BUILDERS[i]))
            && (d == Detected(NodeJs) <==> declared && !named)
            && (d == Detected(Docker) <==> !declared && DOCKERFILE in files)
            && (d == NoFramework <==> !declared && DOCKERFILE !in files)
  {
    var files := RootFiles(dir);
    ConfigFound(files);
    NeverLookedUp();
    hide BUILDERS, Deps, Configured, HasAnyDep, RootFiles, ReadPackage, NamesFirst, FirstOf, PACKAGE_JSON, DOCKERFILE;
    if ReadPackage(dir).Some? {
      var pkg := ReadPackage(dir).value;
      NamedByPackage(pkg);
      NamedIsDeclared(pkg);
    }
  }

  lemma NeverLookedUp()
    ensures forall i | 0 <= i < |BUILDERS| :: BUILDERS[i] != NodeJs && BUILDERS[i] != Docker
  {}

  lemma NamedByPackage(pkg: Package)
    ensures forall i | 0 <= i < |BUILDERS| :: FirstOf(0, x => HasAnyDep(pkg, Deps(x))) == Some(BUILDERS[i]) <==> NamesFirst(pkg, BUILDERS[i])
    ensures FirstOf(0, x => HasAnyDep(pkg, Deps(x))).Some? <==> exists i | 0 <= i < |BUILDERS| :: NamesFirst(pkg, BUILDERS[i])
  {
    hide BUILDERS, Deps, HasAnyDep, NamesFirst;
    forall i | 0 <= i < |BUILDERS|
      ensures FirstOf(0, x => HasAnyDep(pkg, Deps(x))) == Some(BUILDERS[i]) <==> NamesFirst(pkg, BUILDERS[i])
    {
      FirstIsNamed(pkg, BUILDERS[i]);
    }
    FirstOfFinds(0, x => HasAnyDep(pkg, Deps(x)));
    if i :| 0 <= i < |BUILDERS| && HasAnyDep(pkg, Deps(BUILDERS[i])) {
      FirstOfIsFirst(0, x => HasAnyDep(pkg, Deps(x)), i);
    }
  }

  lemma NamedIsDeclared(pkg: Package)
    ensures (exists i | 0 <= i < |BUILDERS| :: NamesFirst(pkg, BUILDERS[i])) ==> pkg.dependencies.Some? || pkg.devDependencies.Some?
  {
    hide BUILDERS, Deps;
  }

  // The dependencies that tell a server framework behind a static builder.
  predicate Disguised(pkg: Package, b: Builder) {
    (b == Vite && (HasAnyDep(pkg, RECIPE_DEPS) || HasAnyDep(pkg, VITE_SSR_DEPS))) || (b == Astro && HasAnyDep(pkg, ASTRO_SSR_DEPS))
  }

  /** The dependencies name this builder, and none that comes before it in BUILDERS. */
  predicate NamesFirst(pkg: Package, b: Builder) {
    exists i | 0 <= i < |BUILDERS| ::
      BUILDERS[i] == b && HasAnyDep(pkg, Deps(b)) && forall j | 0 <= j < i :: !HasAnyDep(pkg, Deps(BUILDERS[j]))
  }

  lemma FirstIsNamed(pkg: Package, b: Builder)
    ensures FirstOf(0, x => HasAnyDep(pkg, Deps(x))) == Some(b) <==> NamesFirst(pkg, b)
  {
    hide BUILDERS, Deps, HasAnyDep;
    var test := x => HasAnyDep(pkg, Deps(x));
    FirstOfFinds(0, test);
    if i :| 0 <= i < |BUILDERS| && BUILDERS[i] == b && test(b) && forall j | 0 <= j < i :: !test(BUILDERS[j]) {
      FirstOfIsFirst(0, test, i);
      var k :| 0 <= k <= i && FirstOf(0, test) == Some(BUILDERS[k]);
      assert test(BUILDERS[k]);
    }
    if FirstOf(0, test) == Some(b) {
      var i :| 0 <= i < |BUILDERS| && test(BUILDERS[i]);
      FirstOfIsFirst(0, test, i);
    }
  }

  /**
   The check for server frameworks runs only beside a configuration file: a
   disguised project passes for a static vite or astro one exactly when it has
   no configuration file at all and its dependencies name that builder, and
   none that comes before it.
   */
  lemma DisguiseUnnoticedExactly(dir: Node, b: Builder)
    requires ReadPackage(dir).Some? && Disguised(ReadPackage(dir).value, b)
    ensures DetectionAtRoot(dir) == Detected(b) <==>
              !Configured(RootFiles(dir)) && PACKAGE_JSON in RootFiles(dir) && NamesFirst(ReadPackage(dir).value, b)
  {
    hide FirstOf, Configured, BUILDERS, HasAnyDep, NamesFirst, RootFiles, ReadPackage, RECIPE_DEPS, VITE_SSR_DEPS, ASTRO_SSR_DEPS;
    ConfigFound(RootFiles(dir));
    FirstIsNamed(ReadPackage(dir).value, b);
  }

  // ---------- Projects that show it ----------

  // A directory with nothing but a package.json.
  function Lone(pkg: Package): Node { Folder([Entry(PACKAGE_JSON, File(Some(pkg)))], true) }

  lemma LoneFiles(pkg: Package)
    ensures RootFiles(Lone(pkg)) == {PACKAGE_JSON} && ReadPackage(Lone(pkg)) == Some(pkg)
    ensures !Configured({PACKAGE_JSON}) && DOCKERFILE !in {PACKAGE_JSON}
  {
    var entries := Lone(pkg).entries;
    assert entries[..0] == [] && FileNames([]) == {};
    assert Lower(PACKAGE_JSON) == PACKAGE_JSON;
    forall b: Builder, i | 0 <= i < |ConfigFiles(b)| ensures Lower(ConfigFiles(b)[i]) != PACKAGE_JSON {
      OtherName(b, i);
    }
    assert |DOCKERFILE| != |PACKAGE_JSON|;
  }

  lemma OtherName(b: Builder, i: nat)
    requires i < |ConfigFiles(b)|
    ensures Lower(ConfigFiles(b)[i]) != PACKAGE_JSON
  {
    var name := ConfigFiles(b)[i];
    assert |name| != 12 || name[0] == 'a' || name[0] == 'b';
    assert |Lower(name)| == |name| && (|name| == 12 ==> Lower(name)[0] == name[0]);
    assert |PACKAGE_JSON| == 12 && PACKAGE_JSON[0] == 'p';
  }

  /** A server-rendered vike project, for one, is taken for a static vite one. */
  lemma VikePassesForVite()
    ensures var pkg := Package(Some(map["vite" := "5", "vike" := "0.4"]), None, None);
            Disguised(pkg, Vite) && DetectionAtRoot(Lone(pkg)) == Detected(Vite)
  {
    var pkg := Package(Some(map["vite" := "5", "vike" := "0.4"]), None, None);
    assert HasDep(pkg, VITE_SSR_DEPS[0]) && HasDep(pkg, Deps(Vite)[0]);
    LoneFiles(pkg);
    assert BUILDERS[7] == Vite;
    forall j | 0 <= j < 7 ensures !HasAnyDep(pkg, Deps(BUILDERS[j])) {
      EarlierDeps(j);
    }
    assert NamesFirst(pkg, Vite);
    hide FirstOf, Configured, BUILDERS, HasAnyDep, NamesFirst, RootFiles, ReadPackage, Lone;
    DisguiseUnnoticedExactly(Lone(pkg), Vite);
  }

  lemma EarlierDeps(j: nat)
    requires j < 7
    ensures forall i | 0 <= i < |Deps(BUILDERS[j])| :: Deps(BUILDERS[j])[i] != "vite" && Deps(BUILDERS[j])[i] != "vike"
  {
    assert |"vite"| == 4 && "vite"[0] == 'v' && |"vike"| == 4 && "vike"[0] == 'v';
    assert |"next"| == 4 && "next"[0] == 'n' && |"nuxt"| == 4 && "nuxt"[0] == 'n';
  }

  // Nothing but a package.json that names no builder.
  lemma LonePackage(pkg: Package)
    requires forall b: Builder :: !HasAnyDep(pkg, Deps(b))
    ensures Manifest(Lone(pkg)) <==> Declares(pkg)
    ensures DetectionAtRoot(Lone(pkg)) == if pkg.dependencies.Some? || pkg.devDependencies.Some? then Detected(NodeJs) else NoFramework
  {
    LoneFiles(pkg);
    ConfigFound({PACKAGE_JSON});
    FirstOfFinds(0, b => HasAnyDep(pkg, Deps(b)));
    hide FirstOf, Configured, BUILDERS, Deps, HasAnyDep, RootFiles, ReadPackage, Lone, PACKAGE_JSON, DOCKERFILE;
  }

  /** One project of each of the two shapes on which the tests disagree. */
  lemma ShapesThatDisagree()
    ensures var scripts := Lone(Package(None, None, Some(map["build" := "make"])));
            Manifest(scripts) && DetectionAtRoot(scripts) == NoFramework
    ensures var empty := Lone(Package(Some(map[]), None, None));
            !Manifest(empty) && DetectionAtRoot(empty) == Detected(NodeJs)
  {
    var scripts, empty := Package(None, None, Some(map["build" := "make"])), Package(Some(map[]), None, None);
    assert "build" in Members(scripts.scripts);
    hide Manifest, DetectionAtRoot, Deps, Lone;
    LonePackage(scripts);
    LonePackage(empty);
  }

  // ---------- Output directories ----------

  function DefaultOutputDir(b: Builder): string {
    match b
    case Angular => "dist"
    case Gatsby => "public"
    case Astro => "dist"
    case Vite => "dist"
    case Svelte => "dist"
    case Vue => "dist"
    case Solid => "dist"
    case React => "build"
    case _ => ""
  }

  predicate Static(b: Builder) { DefaultOutputDir(b) != "" }

  /** buildPath and outDir are the overrides found in env files and in the configuration. */
  function ResolveOutputDir(b: Builder, buildPath: string, outDir: string): string {
    if !Static(b) then ""
    else
      var override := if b == React then buildPath else if b == Vite || b == Astro then outDir else "";
      var clean := Paths.SanitizeOutputDir(override);
      if clean != "" then clean else DefaultOutputDir(b)
  }

  lemma DefaultIsInside(dir: string)
    requires Paths.Name(dir)
    ensures Paths.Inside(dir)
  {
    Paths.SplitSlashFree(dir);
    assert [dir][..0] == [];
    assert Paths.Norm([dir], false) == Paths.Push(Paths.Norm([], false), dir, false);
    assert dir[0] != '/';
  }

  /** Whatever the overrides say, a static builder's output is inside the repository. */
  lemma OutputStaysInside(b: Builder, buildPath: string, outDir: string)
    ensures if Static(b) then Paths.Inside(ResolveOutputDir(b, buildPath, outDir)) else ResolveOutputDir(b, buildPath, outDir) == ""
  {
    hide Paths.SanitizeOutputDir, Paths.Inside, Paths.Stripped, Paths.Components, Paths.Name, DefaultOutputDir;
    Paths.SanitizeExactly(buildPath);
    Paths.SanitizeExactly(outDir);
    NoOverride();
    if Static(b) {
      DefaultIsName(b);
      DefaultIsInside(DefaultOutputDir(b));
    }
  }

  /** Which builders are static, and where they write by default. */
  lemma StaticExactly(b: Builder)
    ensures Static(b) <==> b in {Angular, Gatsby, Astro, Vite, Svelte, Vue, Solid, React}
    ensures Static(b) ==> DefaultOutputDir(b) == match b case React => "build" case Gatsby => "public" case _ => "dist"
  {}

  // The override that this builder reads, if it reads one.
  function Override(b: Builder, buildPath: string, outDir: string): Option<string> {
    match b
    case React => Some(buildPath)
    case Vite => Some(outDir)
    case Astro => Some(outDir)
    case _ => None
  }

  /**
   The output directory of a static builder is the cleaned override when it
   reads one and that is inside the repository, and its default otherwise.
   */
  lemma OutputExactly(b: Builder, buildPath: string, outDir: string)
    requires Static(b)
    ensures var o, r := Override(b, buildPath, outDir), ResolveOutputDir(b, buildPath, outDir);
            if o.Some? && Paths.Usable(o.value) then Paths.Inside(r) && Paths.Components(r) == Paths.Components(Paths.Stripped(o.value))
            else r == DefaultOutputDir(b)
  {
    hide Paths.SanitizeOutputDir, Paths.Inside, Paths.Stripped, Paths.Components, Paths.Name, DefaultOutputDir;
    Paths.SanitizeExactly(buildPath);
    Paths.SanitizeExactly(outDir);
    NoOverride();
  }

  lemma DefaultIsName(b: Builder)
    requires Static(b)
    ensures Paths.Name(DefaultOutputDir(b))
  {
    assert '/' !in "dist" && '/' !in "public" && '/' !in "build";
    assert |"dist"| == 4 && |"public"| == 6 && |"build"| == 5;
  }

  lemma NoOverride()
    ensures Paths.SanitizeOutputDir("") == ""
  {
    Paths.SanitizeExactly("");
    Paths.NoComponents();
    assert Paths.Stripped("") == "";
  }
}
