/**
 * The installer: `installTemplate` as a project directory whose tree the
 * stages change one after the other, proved against `Install`, the whole
 * pipeline written as a function of the options.
 */
module Installer {
  import opened Wrappers
  import opened Text
  import opened Trees
  import opened Templates
  import Copier
  import opened Alias
  import opened Layout
  import opened Integrations
  import opened Manifest

  /** The installer's arguments, plus the test version read from the environment. */
  datatype Options = Options(
    appName: string,
    packageManager: string,
    isOnline: bool,
    template: string,
    mode: Mode,
    tailwind: bool,
    eslint: bool,
    srcDir: bool,
    importAlias: string,
    authority: bool,
    engine: bool,
    testVersion: Option<string>)

  /** The fragments shipped with the authority and engine bundles. */
  datatype Bundles = Bundles(authority: AuthorityBundle, engine: EngineBundle)

  /** The flags the package-manager call receives. */
  datatype InstallFlags = InstallFlags(packageManager: string, isOnline: bool)

  /** The finished project and the arguments of the closing package-manager call. */
  datatype Installed = Installed(tree: Tree, dependencies: seq<string>, flags: InstallFlags)

  // ---------------------------------------------------------------------------
  // The pipeline as a function

  /** Reading a file as text fails unless the entry is a regular text file. */
  function ReadText(t: Tree, p: Path): (r: Result<string, Failure>)
    ensures r.Ok? <==> p in t && t[p].File?
    ensures r.Ok? ==> r.value == t[p].content
    ensures r.Err? ==> r.error == Unreadable(p)
  {
    if p in t && t[p].File? then Ok(t[p].content) else Err(Unreadable(p))
  }

  /** The project after the copy: the root's entries, overwritten by the copied template entries. */
  function CopiedInto(root: Tree, template: Tree, o: Options): Tree
    requires Copier.CollisionFree(template, Copier.CopyPatterns(o.eslint, o.tailwind))
  {
    root + Copier.Copied(template, Copier.CopyPatterns(o.eslint, o.tailwind))
  }

  /** The rewrite of `tsconfig.json` or `jsconfig.json`. */
  function AliasConfigStage(t: Tree, mode: Mode, srcDir: bool, alias: string): Result<Tree, Failure> {
    var config := ConfigFile(mode);
    var text :- ReadText(t, config);
    Ok(t[config := File(RewriteConfig(text, srcDir, alias))])
  }

  /** With a source directory, the home page's self-reference is patched. */
  function HomePageStage(t: Tree, srcDir: bool, isApp: bool, mode: Mode): Result<Tree, Failure> {
    if !srcDir then Ok(t)
    else
      var page := HomePagePath(isApp, mode);
      var text :- ReadText(t, page);
      Ok(t[page := File(PatchHomePage(text, isApp))])
  }

  /** With a source directory and Tailwind, the content globs are pointed into `src`. */
  function TailwindStage(t: Tree, srcDir: bool, tailwind: bool): Result<Tree, Failure> {
    if !(srcDir && tailwind) then Ok(t)
    else
      var text :- ReadText(t, TAILWIND_CONFIG);
      Ok(t[TAILWIND_CONFIG := File(NestGlobs(text))])
  }

  /** The stages after the copy, up to the Tailwind patch. */
  function Adapted(copied: Tree, o: Options): Result<Tree, Failure> {
    var configured :- AliasConfigStage(copied, o.mode, o.srcDir, o.importAlias);
    var relocated :- Relocation(Scanned(configured, o.importAlias), o.srcDir);
    var paged :- HomePageStage(relocated, o.srcDir, IsAppTemplate(o.template), o.mode);
    TailwindStage(paged, o.srcDir, o.tailwind)
  }

  /** The stages from the copy up to the Tailwind patch. */
  function Prepared(root: Tree, template: Tree, o: Options): Result<Tree, Failure>
    requires Copier.CollisionFree(template, Copier.CopyPatterns(o.eslint, o.tailwind))
  {
    Adapted(CopiedInto(root, template, o), o)
  }

  /** The closing stages: the bundles, `package.json`, and the install call's arguments. */
  function Finish(prepared: Tree, o: Options, b: Bundles): Installed {
    var merged := Merged(prepared, o.srcDir, IsAppTemplate(o.template), o.authority, o.engine, b.authority, b.engine);
    Installed(
      merged[PACKAGE_JSON := Doc(PackageManifest(o.appName))],
      DependencyList(o.mode, o.tailwind, o.authority, o.eslint, o.testVersion),
      InstallFlags(o.packageManager, o.isOnline))
  }

  /** The whole installation. */
  function Install(root: Tree, template: Tree, o: Options, b: Bundles): Result<Installed, Failure>
    requires Copier.CollisionFree(template, Copier.CopyPatterns(o.eslint, o.tailwind))
  {
    var prepared :- Prepared(root, template, o);
    Ok(Finish(prepared, o, b))
  }

  /** A stage method's outcome agrees with the stage function: the new tree on success, the same failure otherwise. */
  predicate Outcome(expected: Result<Tree, Failure>, err: Option<Failure>, t: Tree) {
    match expected
    case Ok(u) => err.None? && t == u
    case Err(f) => err == Some(f)
  }

  // ---------------------------------------------------------------------------
  // The project directory, changed in place

  class Project {
    var tree: Tree

    constructor(root: Tree)
      ensures tree == root
    {
      tree := root;
    }

    /** Copies the template into the project, skipping the disabled optional configs and renaming on the way. */
    method CopyTemplate(template: Tree, eslint: bool, tailwind: bool)
      requires Copier.CollisionFree(template, Copier.CopyPatterns(eslint, tailwind))
      modifies this
      ensures tree == old(tree) + Copier.Copied(template, Copier.CopyPatterns(eslint, tailwind))
    {
      var patterns := Copier.CopySource(eslint, tailwind);
      tree := tree + Copier.Copied(template, patterns);
    }

    /** Rewrites the alias mapping in `tsconfig.json` or `jsconfig.json`. */
    method RewriteAliasConfig(mode: Mode, srcDir: bool, alias: string) returns (err: Option<Failure>)
      modifies this
      ensures Outcome(AliasConfigStage(old(tree), mode, srcDir, alias), err, tree)
    {
      var config := ConfigFile(mode);
      if !(config in tree && tree[config].File?) {
        return Some(Unreadable(config));
      }
      tree := tree[config := File(RewriteConfig(tree[config].content, srcDir, alias))];
      err := None;
    }

    /** For a custom alias, visits every entry and rewrites the first `@/` of each regular file except the configs. */
    method RewriteImports(alias: string)
      modifies this
      ensures tree == Scanned(old(tree), alias)
    {
      if alias == DEFAULT_ALIAS {
        return;
      }
      var prefix := StripStars(alias);
      ghost var start := tree;
      var pending := tree.Keys;
      while pending != {}
        invariant tree.Keys == start.Keys && pending <= start.Keys
        invariant forall p :: p in pending ==> tree[p] == start[p]
        invariant forall p :: p in start && p !in pending ==> tree[p] == ScanEntry(p, start[p], prefix)
        decreases |pending|
      {
        var p :| p in pending;
        pending := pending - {p};
        if !SkippedByScan(p) && tree[p].File? {
          tree := tree[p := File(ReplaceFirst(tree[p].content, DEFAULT_PREFIX, prefix))];
        }
      }
      assert forall p :: p in tree ==> tree[p] == Scanned(start, alias)[p];
    }

    /** With a source directory: creates `src` and moves `app`, `pages` and `styles` into it, one name at a time. */
    method Relocate(srcDir: bool) returns (err: Option<Failure>)
      modifies this
      ensures Outcome(Relocation(old(tree), srcDir), err, tree)
    {
      if !srcDir {
        return None;
      }
      tree := MakeDirs(tree, [SRC]);
      ghost var start := tree;
      for i := 0 to |SRC_DIR_NAMES|
        invariant RelocateAll(start, SRC_DIR_NAMES) == RelocateAll(tree, SRC_DIR_NAMES[i..])
      {
        var name := SRC_DIR_NAMES[i];
        assert SRC_DIR_NAMES[i..][0] == name && SRC_DIR_NAMES[i..][1..] == SRC_DIR_NAMES[i + 1..];
        if Present(tree, name) {
          if Blocked(tree, name) {
            return Some(RenameFailed([name], [SRC, name]));
          }
          tree := Moved(tree, name);
        }
      }
      err := None;
    }

    /** With a source directory, patches the home page's reference to its own location. */
    method PatchHomePage(srcDir: bool, isApp: bool, mode: Mode) returns (err: Option<Failure>)
      modifies this
      ensures Outcome(HomePageStage(old(tree), srcDir, isApp, mode), err, tree)
    {
      if !srcDir {
        return None;
      }
      var page := HomePagePath(isApp, mode);
      if !(page in tree && tree[page].File?) {
        return Some(Unreadable(page));
      }
      tree := tree[page := File(Layout.PatchHomePage(tree[page].content, isApp))];
      err := None;
    }

    /** With a source directory and Tailwind, nests the content globs of `tailwind.config.js` under `src`. */
    method PatchTailwindConfig(srcDir: bool, tailwind: bool) returns (err: Option<Failure>)
      modifies this
      ensures Outcome(TailwindStage(old(tree), srcDir, tailwind), err, tree)
    {
      if !(srcDir && tailwind) {
        return None;
      }
      if !(TAILWIND_CONFIG in tree && tree[TAILWIND_CONFIG].File?) {
        return Some(Unreadable(TAILWIND_CONFIG));
      }
      tree := tree[TAILWIND_CONFIG := File(NestGlobs(tree[TAILWIND_CONFIG].content))];
      err := None;
    }

    /** Writes the authority bundle: route, compose file, middleware, `.env`, and its config directory. */
    method MergeAuthority(srcDir: bool, isApp: bool, engine: bool, a: AuthorityBundle)
      modifies this
      ensures tree == AuthorityMerged(old(tree), srcDir, isApp, engine, a)
    {
      var routeDir := AuthRouteDir([], srcDir, isApp);
      tree := MakeDirs(tree, routeDir);
      tree := tree[COMPOSE := File(a.compose)];
      tree := tree[MIDDLEWARE := File(a.middleware)];
      tree := Append(tree, ENV, a.env);
      tree := tree[routeDir + ["route.ts"] := File(a.route)];
      tree := MakeDirs(tree, PROCESSCUBE);
      tree := MakeDirs(tree, AUTHORITY_DIR);
      var config := a.config;
      if !engine {
        config := config - {"engines"};
      }
      tree := tree[AUTHORITY_CONFIG := Doc(JObj(config))];
      tree := tree[AUTHORITY_USERS := File(a.users)];
    }

    /** Writes the engine bundle: its config directory, the compose file or its appended services, and `.env`. */
    method MergeEngine(authority: bool, e: EngineBundle)
      modifies this
      ensures tree == EngineMerged(old(tree), authority, e)
    {
      tree := MakeDirs(tree, PROCESSCUBE);
      tree := MakeDirs(tree, ENGINE_DIR);
      if authority {
        tree := Append(tree, COMPOSE, DropTwoLines(e.compose));
        tree := tree[ENGINE_CONFIG := Doc(JObj(e.config))];
      } else {
        tree := tree[COMPOSE := File(e.compose)];
        tree := tree[ENGINE_CONFIG := Doc(JObj(e.config - {"iam"}))];
      }
      tree := Append(tree, ENV, e.env);
    }

    /** Writes `package.json`. */
    method WritePackageJson(appName: string)
      modifies this
      ensures tree == old(tree)[PACKAGE_JSON := Doc(PackageManifest(appName))]
    {
      tree := tree[PACKAGE_JSON := Doc(PackageManifest(appName))];
    }
  }

  /** Runs the stages from the copy up to the Tailwind patch on a fresh project over `root`. */
  method Prepare(root: Tree, template: Tree, o: Options) returns (project: Project, err: Option<Failure>)
    requires Copier.CollisionFree(template, Copier.CopyPatterns(o.eslint, o.tailwind))
    ensures fresh(project)
    ensures Outcome(Prepared(root, template, o), err, project.tree)
  {
    project := new Project(root);
    project.CopyTemplate(template, o.eslint, o.tailwind);
    ghost var configured := AliasConfigStage(project.tree, o.mode, o.srcDir, o.importAlias);
    err := project.RewriteAliasConfig(o.mode, o.srcDir, o.importAlias);
    if err.Some? {
      return;
    }
    project.RewriteImports(o.importAlias);
    ghost var relocated := Relocation(project.tree, o.srcDir);
    err := project.Relocate(o.srcDir);
    if err.Some? {
      return;
    }
    var isApp := IsAppTemplate(o.template);
    ghost var paged := HomePageStage(project.tree, o.srcDir, isApp, o.mode);
    err := project.PatchHomePage(o.srcDir, isApp, o.mode);
    if err.Some? {
      return;
    }
    err := project.PatchTailwindConfig(o.srcDir, o.tailwind);
  }

  /**
   * `installTemplate`: runs the stages on a fresh project over `root`, stops
   * at the first failure, and returns the finished tree with the arguments of
   * the package-manager call.
   */
  method InstallTemplate(root: Tree, template: Tree, o: Options, b: Bundles) returns (result: Result<Installed, Failure>)
    requires Copier.CollisionFree(template, Copier.CopyPatterns(o.eslint, o.tailwind))
    ensures result == Install(root, template, o, b)
  {
    var project, err := Prepare(root, template, o);
    if err.Some? {
      return Err(err.value);
    }
    var isApp := IsAppTemplate(o.template);
    if o.authority {
      project.MergeAuthority(o.srcDir, isApp, o.engine, b.authority);
    }
    if o.engine {
      project.MergeEngine(o.authority, b.engine);
    }
    project.WritePackageJson(o.appName);
    var deps := BuildDependencies(o.mode, o.tailwind, o.authority, o.eslint, o.testVersion);
    result := Ok(Installed(project.tree, deps, InstallFlags(o.packageManager, o.isOnline)));
  }

  // ---------------------------------------------------------------------------
  // Properties of the stages

  /**
   * After the stages that follow the copy, `tsconfig.json` (or
   * `jsconfig.json`) is the copied one with its alias mapping rewritten: the
   * import scan skips it and no later stage writes it.
   */
  lemma AdaptedConfigFile(copied: Tree, o: Options)
    requires Adapted(copied, o).Ok?
    ensures var config := ConfigFile(o.mode);
      && config in copied && copied[config].File?
      && config in Adapted(copied, o).value
      && Adapted(copied, o).value[config] == File(RewriteConfig(copied[config].content, o.srcDir, o.importAlias))
  {
    var config := ConfigFile(o.mode);
    assert |config| == 1 && |config[0]| == 13;
    var configured := AliasConfigStage(copied, o.mode, o.srcDir, o.importAlias).value;
    var scanned := Scanned(configured, o.importAlias);
    ScanKeeps(configured, o.importAlias, config);
    RelocationSpec(scanned, o.srcDir);
    var relocated := Relocation(scanned, o.srcDir).value;
    assert !InNames(config, SRC_DIR_NAMES);
    var paged := HomePageStage(relocated, o.srcDir, IsAppTemplate(o.template), o.mode).value;
    assert config in paged && paged[config] == scanned[config];
  }

  /** With a source directory, `src` exists after the stages and nothing is left under `app`, `pages` or `styles`. */
  lemma AdaptedSrcLayout(copied: Tree, o: Options)
    requires Adapted(copied, o).Ok? && o.srcDir
    ensures var r := Adapted(copied, o).value;
      [SRC] in r && forall q :: q in r ==> !InNames(q, SRC_DIR_NAMES)
  {
    var configured := AliasConfigStage(copied, o.mode, o.srcDir, o.importAlias).value;
    var scanned := Scanned(configured, o.importAlias);
    RelocationSpec(scanned, o.srcDir);
    var relocated := Relocation(scanned, o.srcDir).value;
    var isApp := IsAppTemplate(o.template);
    var paged := HomePageStage(relocated, o.srcDir, isApp, o.mode).value;
    assert paged.Keys == relocated.Keys;
  }

  /** The closing stages leave every entry other than the files the bundles write and `package.json` as it was. */
  lemma FinishKeeps(prepared: Tree, o: Options, b: Bundles, p: Path)
    requires p in prepared && Untouched(p, o.srcDir, IsAppTemplate(o.template)) && p != PACKAGE_JSON
    ensures p in Finish(prepared, o, b).tree && Finish(prepared, o, b).tree[p] == prepared[p]
  {
    MergedKeeps(prepared, o.srcDir, IsAppTemplate(o.template), o.authority, o.engine, b.authority, b.engine, p);
  }

  /** With a source directory the closing stages put nothing under `app`, `pages` or `styles`. */
  lemma FinishSrcLayout(prepared: Tree, o: Options, b: Bundles)
    requires o.srcDir && [SRC] in prepared && forall q :: q in prepared ==> !InNames(q, SRC_DIR_NAMES)
    ensures var final := Finish(prepared, o, b).tree;
      [SRC] in final && forall q :: q in final ==> !InNames(q, SRC_DIR_NAMES)
  {
    var isApp := IsAppTemplate(o.template);
    var merged := Merged(prepared, o.srcDir, isApp, o.authority, o.engine, b.authority, b.engine);
    MergedNewKeys(prepared, o.srcDir, isApp, o.authority, o.engine, b.authority, b.engine);
    MergedGrows(prepared, o.srcDir, isApp, o.authority, o.engine, b.authority, b.engine);
    assert AuthRouteDir([], o.srcDir, isApp)[0] == SRC;
    ManifestBesideSrc(prepared, merged, PackageManifest(o.appName));
  }

  lemma ManifestBesideSrc(prepared: Tree, merged: Tree, d: Json)
    requires [SRC] in prepared && forall q :: q in prepared ==> !InNames(q, SRC_DIR_NAMES)
    requires prepared.Keys <= merged.Keys
    requires AddsOnly(prepared, merged, SRC, PROCESSCUBE[0], {COMPOSE, ENV, MIDDLEWARE})
    ensures var final := merged[PACKAGE_JSON := Doc(d)];
      [SRC] in final && forall q :: q in final ==> !InNames(q, SRC_DIR_NAMES)
  {
    var final := merged[PACKAGE_JSON := Doc(d)];
    forall q | q in final
      ensures !InNames(q, SRC_DIR_NAMES)
    {
      if q == PACKAGE_JSON {
        assert |q[0]| == 12;
      } else if q !in prepared {
        assert q in merged;
        assert |q| > 0 && (q[0] == SRC || q[0] == PROCESSCUBE[0] || q in {COMPOSE, ENV, MIDDLEWARE});
        assert (|q[0]| == 3 && q[0][0] == 's') || |q[0]| == 12 || |q[0]| == 18 || |q[0]| == 4 || |q[0]| == 14;
      }
    }
  }

  /**
   * The shared files after the closing stages, for every combination of the
   * two bundles; without either bundle only `package.json` is added.
   */
  lemma FinishSharedFiles(prepared: Tree, o: Options, b: Bundles)
    ensures var final := Finish(prepared, o, b).tree;
      var a, e := b.authority, b.engine;
      && (o.authority || o.engine ==>
            COMPOSE in final && final[COMPOSE] == File(
              if o.authority && o.engine then a.compose + DropTwoLines(e.compose)
              else if o.authority then a.compose
              else e.compose))
      && ContentOr(final, ENV) == ContentOr(prepared, ENV) + (if o.authority then a.env else "") + (if o.engine then e.env else "")
      && (o.authority ==> AUTHORITY_CONFIG in final && final[AUTHORITY_CONFIG] == Doc(JObj(if o.engine then a.config else a.config - {"engines"})))
      && (o.engine ==> ENGINE_CONFIG in final && final[ENGINE_CONFIG] == Doc(JObj(if o.authority then e.config else e.config - {"iam"})))
      && (!o.authority && !o.engine ==> final == prepared[PACKAGE_JSON := Doc(PackageManifest(o.appName))])
  {
    ManifestBesideSharedFiles(prepared, o.srcDir, IsAppTemplate(o.template), o.authority, o.engine,
                              b.authority, b.engine, PackageManifest(o.appName));
  }

  lemma ManifestBesideSharedFiles(prepared: Tree, srcDir: bool, isApp: bool, authority: bool, engine: bool,
                                  a: AuthorityBundle, e: EngineBundle, d: Json)
    ensures var final := Merged(prepared, srcDir, isApp, authority, engine, a, e)[PACKAGE_JSON := Doc(d)];
      && (authority || engine ==>
            COMPOSE in final && final[COMPOSE] == File(
              if authority && engine then a.compose + DropTwoLines(e.compose)
              else if authority then a.compose
              else e.compose))
      && ContentOr(final, ENV) == ContentOr(prepared, ENV) + (if authority then a.env else "") + (if engine then e.env else "")
      && (authority ==> AUTHORITY_CONFIG in final && final[AUTHORITY_CONFIG] == Doc(JObj(if engine then a.config else a.config - {"engines"})))
      && (engine ==> ENGINE_CONFIG in final && final[ENGINE_CONFIG] == Doc(JObj(if authority then e.config else e.config - {"iam"})))
      && (!authority && !engine ==> final == prepared[PACKAGE_JSON := Doc(d)])
  {
    MergedSharedFiles(prepared, srcDir, isApp, authority, engine, a, e);
    assert |COMPOSE[0]| == 18 && |ENV[0]| == 4 && |PACKAGE_JSON| == 1 && |PACKAGE_JSON[0]| == 12;
    assert |AUTHORITY_CONFIG| == 3 && |ENGINE_CONFIG| == 4;
  }

  /**
   * The stages after the copy fail only on an unreadable config, or, with a
   * source directory, on a blocked rename, an unreadable home page or an
   * unreadable Tailwind config; without a source directory they fail exactly
   * when the config is unreadable.
   */
  lemma AdaptedFailures(copied: Tree, o: Options)
    ensures Adapted(copied, o).Err? ==>
      var f := Adapted(copied, o).error;
      || f == Unreadable(ConfigFile(o.mode))
      || (o.srcDir && (f.RenameFailed? || f == Unreadable(HomePagePath(IsAppTemplate(o.template), o.mode))
                       || (o.tailwind && f == Unreadable(TAILWIND_CONFIG))))
    ensures !o.srcDir ==> (Adapted(copied, o).Ok? <==> ConfigFile(o.mode) in copied && copied[ConfigFile(o.mode)].File?)
  {
    var configured := AliasConfigStage(copied, o.mode, o.srcDir, o.importAlias);
    if configured.Ok? && o.srcDir {
      var scanned := Scanned(configured.value, o.importAlias);
      if Relocation(scanned, o.srcDir).Err? {
        RelocateAllError(MakeDirs(scanned, [SRC]), SRC_DIR_NAMES);
      }
    }
  }

  // ---------------------------------------------------------------------------
  // Properties of the whole installation

  /**
   * The finished `tsconfig.json` (or `jsconfig.json`) is exactly the copied
   * one with its alias mapping rewritten.
   */
  lemma InstallConfigFile(root: Tree, template: Tree, o: Options, b: Bundles)
    requires Copier.CollisionFree(template, Copier.CopyPatterns(o.eslint, o.tailwind))
    requires Install(root, template, o, b).Ok?
    ensures var copied := CopiedInto(root, template, o);
      var config := ConfigFile(o.mode);
      var final := Install(root, template, o, b).value.tree;
      && config in copied && copied[config].File?
      && config in final && final[config] == File(RewriteConfig(copied[config].content, o.srcDir, o.importAlias))
  {
    var copied := CopiedInto(root, template, o);
    var prepared := Adapted(copied, o).value;
    AdaptedConfigFile(copied, o);
    assert |ConfigFile(o.mode)[0]| == 13;
    assert |COMPOSE[0]| == 18 && |ENV[0]| == 4 && |MIDDLEWARE[0]| == 14 && |PACKAGE_JSON[0]| == 12;
    TopLevelUntouched(ConfigFile(o.mode), o.srcDir, IsAppTemplate(o.template));
    FinishKeeps(prepared, o, b, ConfigFile(o.mode));
  }

  /** With a source directory, the finished project has `src` and nothing left under `app`, `pages` or `styles`. */
  lemma InstallSrcLayout(root: Tree, template: Tree, o: Options, b: Bundles)
    requires Copier.CollisionFree(template, Copier.CopyPatterns(o.eslint, o.tailwind))
    requires Install(root, template, o, b).Ok? && o.srcDir
    ensures var final := Install(root, template, o, b).value.tree;
      [SRC] in final && forall q :: q in final ==> !InNames(q, SRC_DIR_NAMES)
  {
    var copied := CopiedInto(root, template, o);
    AdaptedSrcLayout(copied, o);
    FinishSrcLayout(Adapted(copied, o).value, o, b);
  }

  /**
   * The shared files of the finished project, for every combination of the
   * two bundles, relative to the project the stages before the merge leave:
   * the compose file, `.env` and both JSON configs; without either bundle
   * only `package.json` is added.
   */
  lemma InstallSharedFiles(root: Tree, template: Tree, o: Options, b: Bundles)
    requires Copier.CollisionFree(template, Copier.CopyPatterns(o.eslint, o.tailwind))
    requires Install(root, template, o, b).Ok?
    ensures Prepared(root, template, o).Ok?
    ensures var prepared := Prepared(root, template, o).value;
      var final := Install(root, template, o, b).value.tree;
      var a, e := b.authority, b.engine;
      && (o.authority || o.engine ==>
            COMPOSE in final && final[COMPOSE] == File(
              if o.authority && o.engine then a.compose + DropTwoLines(e.compose)
              else if o.authority then a.compose
              else e.compose))
      && ContentOr(final, ENV) == ContentOr(prepared, ENV) + (if o.authority then a.env else "") + (if o.engine then e.env else "")
      && (o.authority ==> AUTHORITY_CONFIG in final && final[AUTHORITY_CONFIG] == Doc(JObj(if o.engine then a.config else a.config - {"engines"})))
      && (o.engine ==> ENGINE_CONFIG in final && final[ENGINE_CONFIG] == Doc(JObj(if o.authority then e.config else e.config - {"iam"})))
      && (!o.authority && !o.engine ==> final == prepared[PACKAGE_JSON := Doc(PackageManifest(o.appName))])
  {
    FinishSharedFiles(Prepared(root, template, o).value, o, b);
  }

  /**
   * The installation succeeds exactly when the stages before the merge do;
   * then `package.json` is the manifest, the dependency list is never empty
   * (so the package manager always runs) and the flags are passed through.
   * A failure is one of the failures of the stages after the copy.
   */
  lemma InstallOutcome(root: Tree, template: Tree, o: Options, b: Bundles)
    requires Copier.CollisionFree(template, Copier.CopyPatterns(o.eslint, o.tailwind))
    ensures Install(root, template, o, b).Ok? <==> Prepared(root, template, o).Ok?
    ensures Install(root, template, o, b).Ok? ==>
      var i := Install(root, template, o, b).value;
      && PACKAGE_JSON in i.tree && i.tree[PACKAGE_JSON] == Doc(PackageManifest(o.appName))
      && i.dependencies == DependencyList(o.mode, o.tailwind, o.authority, o.eslint, o.testVersion)
      && |i.dependencies| >= 4
      && i.flags == InstallFlags(o.packageManager, o.isOnline)
    ensures Install(root, template, o, b).Err? ==>
      Install(root, template, o, b).error == Adapted(CopiedInto(root, template, o), o).error
  {
    DependencyListShape(o.mode, o.tailwind, o.authority, o.eslint, o.testVersion);
  }
}
