/**
 * The integration merger: the authority (sign-in) and engine (workflow
 * backend) bundles, layered on the project in that order, and the files they
 * share: `docker-compose.yml` and `.env`.
 */
module Integrations {
  import opened Text
  import opened Trees

  const COMPOSE: Path := ["docker-compose.yml"]
  const ENV: Path := [".env"]
  const MIDDLEWARE: Path := ["middleware.tsx"]
  const PROCESSCUBE: Path := [".processcube"]
  const AUTHORITY_DIR: Path := [".processcube", "authority"]
  const AUTHORITY_CONFIG: Path := [".processcube", "authority", "config.json"]
  const AUTHORITY_USERS: Path := [".processcube", "authority", "users.json"]
  const ENGINE_DIR: Path := [".processcube", "engine", "config"]
  const ENGINE_CONFIG: Path := [".processcube", "engine", "config", "config.json"]
  const AUTH_ROUTE_TAIL: Path := ["api", "auth", "[...nextauth]"]

  /** The authority bundle's fragments; its JSON config is already parsed. */
  datatype AuthorityBundle = AuthorityBundle(
    compose: string, middleware: string, env: string, route: string,
    config: map<string, Json>, users: string)

  /** The engine bundle's fragments. */
  datatype EngineBundle = EngineBundle(compose: string, env: string, config: map<string, Json>)

  /**
   * The directory of the sign-in callback route: below `root`, inside `src`
   * when a source directory is used and inside `app` for app-router
   * templates, at `api/auth/[...nextauth]`.
   */
  function AuthRouteDir(root: Path, srcDir: bool, isApp: bool): (r: Path)
    ensures |r| == |root| + (if srcDir then 1 else 0) + (if isApp then 1 else 0) + 3
    ensures r[..|root|] == root && r[|r| - 3..] == AUTH_ROUTE_TAIL
    ensures r[|root|] == "src" <==> srcDir
    ensures "app" in r[|root|..] <==> isApp
  {
    var segments := root + (if srcDir then ["src"] else []) + (if isApp then ["app"] else []);
    assert segments[..|root|] == root;
    var r := segments + AUTH_ROUTE_TAIL;
    assert r[|root|..] == (if srcDir then ["src"] else []) + (if isApp then ["app"] else []) + AUTH_ROUTE_TAIL;
    r
  }

  /** `data.split('\n').slice(2).join('\n')`: the text without its first two lines. */
  function DropTwoLines(s: string): string {
    var lines := Split(s, '\n');
    Join(if |lines| <= 2 then [] else lines[2..], '\n')
  }

  /** Two header lines are dropped and the remainder is kept exactly. */
  lemma DropTwoLinesOf(first: string, second: string, rest: string)
    requires '\n' !in first && '\n' !in second
    ensures DropTwoLines(first + "\n" + second + "\n" + rest) == rest
  {
    var s := first + "\n" + second + "\n" + rest;
    assert s == first + ['\n'] + (second + ['\n'] + rest);
    SplitLine(first, '\n', second + ['\n'] + rest);
    SplitLine(second, '\n', rest);
    var lines := Split(s, '\n');
    assert lines == [first, second] + Split(rest, '\n');
    assert lines[2..] == Split(rest, '\n');
    JoinSplit(rest, '\n');
  }

  /** Text of at most two lines leaves nothing. */
  lemma DropTwoLinesShort(first: string, second: string)
    requires '\n' !in first && '\n' !in second
    ensures DropTwoLines(first) == ""
    ensures DropTwoLines(first + "\n" + second) == ""
  {
    SplitLine(first, '\n', second);
    assert Split(second, '\n') == [second] by {
      JoinSplit(second, '\n');
      SplitNoSeparator(second, '\n');
    }
    SplitNoSeparator(first, '\n');
  }

  lemma {:induction false} SplitNoSeparator(s: string, sep: char)
    requires sep !in s
    ensures Split(s, sep) == [s]
    decreases |s|
  {
    if |s| > 0 {
      SplitNoSeparator(s[1..], sep);
      assert [s[0]] + s[1..] == s;
    }
  }

  /** The authority bundle written into the project: its route, its top-level files, then its config directory. */
  function AuthorityMerged(t: Tree, srcDir: bool, isApp: bool, engine: bool, a: AuthorityBundle): Tree {
    AuthorityConfigDir(AuthorityFiles(t, AuthRouteDir([], srcDir, isApp), a), engine, a)
  }

  /** The route directory, the compose file, the middleware, the `.env` append and the route file. */
  function AuthorityFiles(t: Tree, routeDir: Path, a: AuthorityBundle): Tree {
    var t1 := MakeDirs(t, routeDir)[COMPOSE := File(a.compose)][MIDDLEWARE := File(a.middleware)];
    Append(t1, ENV, a.env)[routeDir + ["route.ts"] := File(a.route)]
  }

  /** `.processcube/authority` with its config (without `engines` when the engine is off) and users. */
  function AuthorityConfigDir(t: Tree, engine: bool, a: AuthorityBundle): Tree {
    var config := if engine then a.config else a.config - {"engines"};
    MakeDirs(MakeDirs(t, PROCESSCUBE), AUTHORITY_DIR)[AUTHORITY_CONFIG := Doc(JObj(config))][AUTHORITY_USERS := File(a.users)]
  }

  /**
   * The engine bundle written into the project: with authority present its
   * compose fragment is appended without its two header lines, otherwise it
   * becomes the whole compose file.
   */
  function EngineMerged(t: Tree, authority: bool, e: EngineBundle): Tree {
    var t1 := MakeDirs(MakeDirs(t, PROCESSCUBE), ENGINE_DIR);
    var t2 :=
      if authority then Append(t1, COMPOSE, DropTwoLines(e.compose))[ENGINE_CONFIG := Doc(JObj(e.config))]
      else t1[COMPOSE := File(e.compose)][ENGINE_CONFIG := Doc(JObj(e.config - {"iam"}))];
    Append(t2, ENV, e.env)
  }

  /** Both stages, authority first. */
  function Merged(t: Tree, srcDir: bool, isApp: bool, authority: bool, engine: bool,
                  a: AuthorityBundle, e: EngineBundle): Tree {
    var t1 := if authority then AuthorityMerged(t, srcDir, isApp, engine, a) else t;
    if engine then EngineMerged(t1, authority, e) else t1
  }

  /** A path that is not a prefix of `p` is not created by `MakeDirs(_, p)`. */
  lemma NotCreated(t: Tree, p: Path, q: Path)
    requires |q| == 0 || |q| > |p| || q != p[..|q|]
    ensures q in MakeDirs(t, p) <==> q in t
    ensures q in t ==> MakeDirs(t, p)[q] == t[q]
  {
    if q in MakeDirs(t, p) && q !in t {
      MakeDirsNew(t, p, q);
    }
  }

  /** The fixed paths are pairwise different (told apart by their lengths). */
  lemma FixedPathsDistinct()
    ensures COMPOSE != ENV && COMPOSE != MIDDLEWARE && ENV != MIDDLEWARE
    ensures COMPOSE != PROCESSCUBE && ENV != PROCESSCUBE && MIDDLEWARE != PROCESSCUBE
    ensures AUTHORITY_CONFIG != ENGINE_DIR && AUTHORITY_CONFIG != AUTHORITY_USERS
    ensures |COMPOSE[0]| != 3 && |ENV[0]| != 3 && |PROCESSCUBE[0]| != 3
  {
    assert |COMPOSE[0]| == 18 && |ENV[0]| == 4 && |MIDDLEWARE[0]| == 14 && |PROCESSCUBE[0]| == 12;
    assert |AUTHORITY_CONFIG[1]| == 9 && |ENGINE_DIR[1]| == 6;
    assert |AUTHORITY_CONFIG[2]| == 11 && |AUTHORITY_USERS[2]| == 10;
  }

  /** The first half of the authority stage. */
  lemma AuthorityFilesEffect(t: Tree, routeDir: Path, a: AuthorityBundle)
    requires |routeDir| > 0 && |routeDir[0]| == 3
    ensures var r := AuthorityFiles(t, routeDir, a);
      && COMPOSE in r && r[COMPOSE] == File(a.compose)
      && MIDDLEWARE in r && r[MIDDLEWARE] == File(a.middleware)
      && ENV in r && r[ENV] == File(ContentOr(t, ENV) + a.env)
      && routeDir + ["route.ts"] in r && r[routeDir + ["route.ts"]] == File(a.route)
      && (ENGINE_CONFIG in r <==> ENGINE_CONFIG in t)
      && (ENGINE_CONFIG in t ==> r[ENGINE_CONFIG] == t[ENGINE_CONFIG])
  {
    FixedPathsDistinct();
    var route := routeDir + ["route.ts"];
    assert route[0] == routeDir[0];
    NotCreated(t, routeDir, ENV);
    NotCreated(t, routeDir, ENGINE_CONFIG);
    var t1 := MakeDirs(t, routeDir)[COMPOSE := File(a.compose)][MIDDLEWARE := File(a.middleware)];
    assert ContentOr(t1, ENV) == ContentOr(t, ENV);
  }

  /** The second half of the authority stage. */
  lemma AuthorityConfigDirEffect(t: Tree, engine: bool, a: AuthorityBundle, route: Path)
    requires |route| > 0 && |route[0]| == 3
    ensures var r := AuthorityConfigDir(t, engine, a);
      && (route in r <==> route in t) && (route in t ==> r[route] == t[route])
      && (COMPOSE in r <==> COMPOSE in t) && (COMPOSE in t ==> r[COMPOSE] == t[COMPOSE])
      && (ENV in r <==> ENV in t) && (ENV in t ==> r[ENV] == t[ENV])
      && (MIDDLEWARE in r <==> MIDDLEWARE in t) && (MIDDLEWARE in t ==> r[MIDDLEWARE] == t[MIDDLEWARE])
      && (ENGINE_CONFIG in r <==> ENGINE_CONFIG in t) && (ENGINE_CONFIG in t ==> r[ENGINE_CONFIG] == t[ENGINE_CONFIG])
      && AUTHORITY_CONFIG in r && r[AUTHORITY_CONFIG] == Doc(JObj(if engine then a.config else a.config - {"engines"}))
      && AUTHORITY_USERS in r && r[AUTHORITY_USERS] == File(a.users)
  {
    FixedPathsDistinct();
    var t1 := MakeDirs(t, PROCESSCUBE);
    NotCreated(t, PROCESSCUBE, MIDDLEWARE);
    NotCreated(t1, AUTHORITY_DIR, MIDDLEWARE);
    NotCreated(t, PROCESSCUBE, ENV);
    NotCreated(t, PROCESSCUBE, COMPOSE);
    NotCreated(t, PROCESSCUBE, ENGINE_CONFIG);
    NotCreated(t1, AUTHORITY_DIR, ENV);
    NotCreated(t1, AUTHORITY_DIR, COMPOSE);
    NotCreated(t1, AUTHORITY_DIR, ENGINE_CONFIG);
    NotCreated(t, PROCESSCUBE, route);
    NotCreated(t1, AUTHORITY_DIR, route);
  }

  /**
   * The authority stage alone: it writes the compose file and the middleware,
   * appends to `.env`, writes the sign-in route file inside the route
   * directory, and writes its config and users.
   */
  lemma AuthorityStage(t: Tree, srcDir: bool, isApp: bool, engine: bool, a: AuthorityBundle)
    ensures var r := AuthorityMerged(t, srcDir, isApp, engine, a);
      var route := AuthRouteDir([], srcDir, isApp) + ["route.ts"];
      && route in r && r[route] == File(a.route)
      && COMPOSE in r && r[COMPOSE] == File(a.compose)
      && MIDDLEWARE in r && r[MIDDLEWARE] == File(a.middleware)
      && ENV in r && r[ENV] == File(ContentOr(t, ENV) + a.env)
      && AUTHORITY_CONFIG in r && r[AUTHORITY_CONFIG] == Doc(JObj(if engine then a.config else a.config - {"engines"}))
      && AUTHORITY_USERS in r && r[AUTHORITY_USERS] == File(a.users)
      && (ENGINE_CONFIG in r <==> ENGINE_CONFIG in t)
      && (ENGINE_CONFIG in t ==> r[ENGINE_CONFIG] == t[ENGINE_CONFIG])
  {
    var routeDir := AuthRouteDir([], srcDir, isApp);
    assert routeDir[0] in {"src", "app", "api"};
    AuthorityFilesEffect(t, routeDir, a);
    var route := routeDir + ["route.ts"];
    assert route[0] == routeDir[0];
    AuthorityConfigDirEffect(AuthorityFiles(t, routeDir, a), engine, a, route);
  }

  /** The engine stage alone: compose file, `.env` append, and its config. */
  lemma EngineStage(t: Tree, authority: bool, e: EngineBundle)
    ensures var r := EngineMerged(t, authority, e);
      && COMPOSE in r
      && r[COMPOSE] == File(if authority then ContentOr(t, COMPOSE) + DropTwoLines(e.compose) else e.compose)
      && ENV in r && r[ENV] == File(ContentOr(t, ENV) + e.env)
      && ENGINE_CONFIG in r && r[ENGINE_CONFIG] == Doc(JObj(if authority then e.config else e.config - {"iam"}))
      && (AUTHORITY_CONFIG in r <==> AUTHORITY_CONFIG in t)
      && (AUTHORITY_CONFIG in t ==> r[AUTHORITY_CONFIG] == t[AUTHORITY_CONFIG])
  {
    var u1 := MakeDirs(t, PROCESSCUBE);
    var u2 := MakeDirs(u1, ENGINE_DIR);
    FixedPathsDistinct();
    NotCreated(t, PROCESSCUBE, ENV);
    NotCreated(t, PROCESSCUBE, COMPOSE);
    NotCreated(t, PROCESSCUBE, AUTHORITY_CONFIG);
    NotCreated(u1, ENGINE_DIR, ENV);
    NotCreated(u1, ENGINE_DIR, COMPOSE);
    NotCreated(u1, ENGINE_DIR, AUTHORITY_CONFIG);
    assert ContentOr(u2, COMPOSE) == ContentOr(t, COMPOSE);
    assert ContentOr(u2, ENV) == ContentOr(t, ENV);
  }

  /** The path is none of the files the two stages write. */
  predicate Untouched(p: Path, srcDir: bool, isApp: bool) {
    && p != COMPOSE && p != ENV && p != MIDDLEWARE
    && p != AUTHORITY_CONFIG && p != AUTHORITY_USERS && p != ENGINE_CONFIG
    && p != AuthRouteDir([], srcDir, isApp) + ["route.ts"]
  }

  /**
   * Every entry, at any depth, other than the files the stages write comes
   * through both stages as it was: `mkdir` keeps what exists, and each write
   * touches its own path only.
   */
  lemma MergedKeeps(t: Tree, srcDir: bool, isApp: bool, authority: bool, engine: bool,
                    a: AuthorityBundle, e: EngineBundle, p: Path)
    requires p in t && Untouched(p, srcDir, isApp)
    ensures var r := Merged(t, srcDir, isApp, authority, engine, a, e);
      p in r && r[p] == t[p]
  {
    var t1 := if authority then AuthorityMerged(t, srcDir, isApp, engine, a) else t;
    if authority {
      var u := AuthorityFiles(t, AuthRouteDir([], srcDir, isApp), a);
      assert p in u && u[p] == t[p];
      assert p in t1 && t1[p] == u[p];
    }
    if engine {
      assert EngineMerged(t1, authority, e)[p] == t1[p];
    }
  }

  /** A top-level entry other than the compose file, `.env` and the middleware is none of the written files. */
  lemma TopLevelUntouched(p: Path, srcDir: bool, isApp: bool)
    requires |p| == 1 && p != COMPOSE && p != ENV && p != MIDDLEWARE
    ensures Untouched(p, srcDir, isApp)
  {
    assert |AuthRouteDir([], srcDir, isApp) + ["route.ts"]| >= 4;
  }

  /** Every entry of `r` that is not in `t` lies below `h1` or `h2`, or is one of `fixed`. */
  ghost predicate AddsOnly(t: Tree, r: Tree, h1: string, h2: string, fixed: set<Path>) {
    forall q :: q in r && q !in t ==> |q| > 0 && (q[0] == h1 || q[0] == h2 || q in fixed)
  }

  lemma AddsOnlyTrans(t: Tree, u: Tree, r: Tree, h1: string, h2: string, fixed: set<Path>)
    requires t.Keys <= u.Keys
    requires AddsOnly(t, u, h1, h2, fixed) && AddsOnly(u, r, h1, h2, fixed)
    ensures AddsOnly(t, r, h1, h2, fixed)
  {
  }

  /** Both stages only add entries. */
  lemma MergedGrows(t: Tree, srcDir: bool, isApp: bool, authority: bool, engine: bool,
                    a: AuthorityBundle, e: EngineBundle)
    ensures t.Keys <= Merged(t, srcDir, isApp, authority, engine, a, e).Keys
  {
  }

  /**
   * Every entry the stages add lies below the first segment of the route
   * directory or below `.processcube`, or is the compose file, `.env` or the
   * middleware.
   */
  lemma MergedNewKeys(t: Tree, srcDir: bool, isApp: bool, authority: bool, engine: bool,
                      a: AuthorityBundle, e: EngineBundle)
    ensures AddsOnly(t, Merged(t, srcDir, isApp, authority, engine, a, e),
                     AuthRouteDir([], srcDir, isApp)[0], PROCESSCUBE[0], {COMPOSE, ENV, MIDDLEWARE})
  {
    var h1, h2, fixed := AuthRouteDir([], srcDir, isApp)[0], PROCESSCUBE[0], {COMPOSE, ENV, MIDDLEWARE};
    var t1 := if authority then AuthorityMerged(t, srcDir, isApp, engine, a) else t;
    if authority {
      AuthorityStageKeys(t, srcDir, isApp, engine, a);
    }
    if engine {
      EngineMergedKeys(t1, authority, e, h1, fixed);
      AddsOnlyTrans(t, t1, EngineMerged(t1, authority, e), h1, h2, fixed);
    }
  }

  lemma AuthorityStageKeys(t: Tree, srcDir: bool, isApp: bool, engine: bool, a: AuthorityBundle)
    ensures t.Keys <= AuthorityMerged(t, srcDir, isApp, engine, a).Keys
    ensures AddsOnly(t, AuthorityMerged(t, srcDir, isApp, engine, a),
                     AuthRouteDir([], srcDir, isApp)[0], PROCESSCUBE[0], {COMPOSE, ENV, MIDDLEWARE})
  {
    var routeDir := AuthRouteDir([], srcDir, isApp);
    var fixed := {COMPOSE, ENV, MIDDLEWARE};
    var u := AuthorityFiles(t, routeDir, a);
    AuthorityFilesKeys(t, routeDir, a);
    AuthorityConfigDirKeys(u, engine, a, routeDir[0], fixed);
    AddsOnlyTrans(t, u, AuthorityConfigDir(u, engine, a), routeDir[0], PROCESSCUBE[0], fixed);
  }

  lemma AuthorityFilesKeys(t: Tree, routeDir: Path, a: AuthorityBundle)
    requires |routeDir| > 0
    ensures t.Keys <= AuthorityFiles(t, routeDir, a).Keys
    ensures AddsOnly(t, AuthorityFiles(t, routeDir, a), routeDir[0], PROCESSCUBE[0], {COMPOSE, ENV, MIDDLEWARE})
  {
    forall q | q in MakeDirs(t, routeDir) && q !in t
      ensures |q| > 0 && q[0] == routeDir[0]
    {
      MakeDirsNew(t, routeDir, q);
    }
  }

  lemma AuthorityConfigDirKeys(t: Tree, engine: bool, a: AuthorityBundle, h1: string, fixed: set<Path>)
    ensures t.Keys <= AuthorityConfigDir(t, engine, a).Keys
    ensures AddsOnly(t, AuthorityConfigDir(t, engine, a), h1, PROCESSCUBE[0], fixed)
  {
    ProcesscubeKeys(t, AUTHORITY_DIR);
  }

  lemma EngineMergedKeys(t: Tree, authority: bool, e: EngineBundle, h1: string, fixed: set<Path>)
    requires COMPOSE in fixed && ENV in fixed
    ensures t.Keys <= EngineMerged(t, authority, e).Keys
    ensures AddsOnly(t, EngineMerged(t, authority, e), h1, PROCESSCUBE[0], fixed)
  {
    ProcesscubeKeys(t, ENGINE_DIR);
  }

  /** The entries `.processcube/<dir>` adds all lie below `.processcube`. */
  lemma ProcesscubeKeys(t: Tree, dir: Path)
    requires |dir| > 0 && dir[0] == PROCESSCUBE[0]
    ensures forall q :: q in MakeDirs(MakeDirs(t, PROCESSCUBE), dir) && q !in t ==> |q| > 0 && q[0] == PROCESSCUBE[0]
  {
    var t1 := MakeDirs(t, PROCESSCUBE);
    forall q | q in MakeDirs(t1, dir) && q !in t
      ensures |q| > 0 && q[0] == PROCESSCUBE[0]
    {
      if q in t1 {
        MakeDirsNew(t, PROCESSCUBE, q);
      } else {
        MakeDirsNew(t1, dir, q);
      }
    }
  }

  /**
   * The shared files after both stages, for every combination of the two
   * bundles: the compose file is the authority fragment, the engine fragment,
   * or the authority fragment followed by the engine fragment without its
   * header lines; `.env` is the old text followed by the enabled fragments in
   * bundle order; each JSON config loses the other bundle's key exactly when
   * that bundle is disabled; and without bundles nothing changes.
   */
  lemma MergedSharedFiles(t: Tree, srcDir: bool, isApp: bool, authority: bool, engine: bool,
                          a: AuthorityBundle, e: EngineBundle)
    ensures var r := Merged(t, srcDir, isApp, authority, engine, a, e);
      && (!authority && !engine ==> r == t)
      && (authority || engine ==>
            COMPOSE in r && r[COMPOSE] == File(
              if authority && engine then a.compose + DropTwoLines(e.compose)
              else if authority then a.compose
              else e.compose))
      && (authority || engine ==> ENV in r && r[ENV].File?)
      && ContentOr(r, ENV) == ContentOr(t, ENV) + (if authority then a.env else "") + (if engine then e.env else "")
      && (authority ==> AUTHORITY_CONFIG in r && r[AUTHORITY_CONFIG] == Doc(JObj(if engine then a.config else a.config - {"engines"})))
      && (engine ==> ENGINE_CONFIG in r && r[ENGINE_CONFIG] == Doc(JObj(if authority then e.config else e.config - {"iam"})))
      && (!authority ==> (AUTHORITY_CONFIG in r <==> AUTHORITY_CONFIG in t))
      && (!engine ==> (ENGINE_CONFIG in r <==> ENGINE_CONFIG in t))
  {
    var t1 := if authority then AuthorityMerged(t, srcDir, isApp, engine, a) else t;
    if authority {
      AuthorityStage(t, srcDir, isApp, engine, a);
    }
    if engine {
      EngineStage(t1, authority, e);
    }
  }

  /**
   * With both bundles and an engine compose fragment made of two header lines
   * and a body, the compose file is the authority fragment followed by that body.
   */
  lemma MergedComposeBoth(t: Tree, srcDir: bool, isApp: bool, a: AuthorityBundle, e: EngineBundle,
                          first: string, second: string, body: string)
    requires '\n' !in first && '\n' !in second
    requires e.compose == first + "\n" + second + "\n" + body
    ensures Merged(t, srcDir, isApp, true, true, a, e)[COMPOSE] == File(a.compose + body)
  {
    MergedSharedFiles(t, srcDir, isApp, true, true, a, e);
    DropTwoLinesOf(first, second, body);
  }
}
