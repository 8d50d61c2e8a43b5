/**
 * The manifest builder: the `package.json` written into the project and the
 * ordered list of packages handed to the package manager.
 */
module Manifest {
  import opened Wrappers
  import opened Trees
  import opened Templates

  const PACKAGE_JSON: Path := ["package.json"]
  const VERSION := "0.1.0"
  const SCRIPT_NAMES: seq<string> := ["dev", "build", "start", "lint"]

  const REACT := "react"
  const REACT_DOM := "react-dom"
  const SDK := "@5minds/processcube_app_sdk@^0.0.1-develop-e5b363-lki8hmms"
  const TS_DEPS: seq<string> := ["typescript", "@types/react", "@types/node", "@types/react-dom"]
  const TAILWIND_DEPS: seq<string> := ["tailwindcss", "postcss", "autoprefixer"]
  const AUTH_DEPS: seq<string> := ["next-auth"]
  const ESLINT_DEPS: seq<string> := ["eslint", "eslint-config-next"]

  /** The `scripts` object: each script runs the Next.js command of the same name. */
  function Scripts(): (s: map<string, Json>)
    ensures s.Keys == set n | n in SCRIPT_NAMES
    ensures forall n :: n in s ==> s[n] == JStr("next " + n)
  {
    map n | n in SCRIPT_NAMES :: JStr("next " + n)
  }

  /** The `package.json` document of a new project called `appName`. */
  function PackageManifest(appName: string): Json {
    JObj(map[
      "name" := JStr(appName),
      "version" := JStr(VERSION),
      "private" := JBool(true),
      "scripts" := JObj(Scripts())])
  }

  /**
   * The manifest has exactly the keys name, version, private and scripts:
   * the application's name, version 0.1.0, private, and the four scripts
   * dev, build, start and lint running `next dev`, `next build`, `next start`
   * and `next lint`.
   */
  lemma PackageManifestShape(appName: string)
    ensures var j := PackageManifest(appName);
      && j.JObj? && j.fields.Keys == {"name", "version", "private", "scripts"}
      && j.fields["name"] == JStr(appName)
      && j.fields["version"] == JStr("0.1.0")
      && j.fields["private"] == JBool(true)
      && j.fields["scripts"] == JObj(map[
           "dev" := JStr("next dev"), "build" := JStr("next build"),
           "start" := JStr("next start"), "lint" := JStr("next lint")])
  {
    var s := Scripts();
    var expected := map[
      "dev" := JStr("next dev"), "build" := JStr("next build"),
      "start" := JStr("next start"), "lint" := JStr("next lint")];
    assert "next " + "dev" == "next dev" && "next " + "build" == "next build";
    assert "next " + "start" == "next start" && "next " + "lint" == "next lint";
    assert s.Keys == expected.Keys;
    assert s == expected;
  }

  /** Two applications get the same manifest exactly when their names agree. */
  lemma PackageManifestInjective(appName: string, other: string)
    ensures PackageManifest(appName) == PackageManifest(other) <==> appName == other
  {
    if PackageManifest(appName) == PackageManifest(other) {
      assert PackageManifest(appName).fields["name"] == JStr(other);
    }
  }

  /**
   * The Next.js package: pinned to the test version when one is set; an empty
   * test version counts as none, as an empty environment variable does.
   */
  function NextSpecifier(testVersion: Option<string>): (r: string)
    ensures |r| >= 4 && r[..4] == "next"
    ensures testVersion.None? || testVersion.value == "" ==> r == "next"
    ensures testVersion.Some? && testVersion.value != "" ==> r == "next@" + testVersion.value
  {
    if testVersion.Some? && testVersion.value != "" then "next@" + testVersion.value else "next"
  }

  /** The packages of a group when its feature is on, none otherwise. */
  function When(on: bool, deps: seq<string>): seq<string> {
    if on then deps else []
  }

  /** The default dependencies every project gets, in order. */
  function BaseDependencies(testVersion: Option<string>): seq<string> {
    [REACT, REACT_DOM, NextSpecifier(testVersion), SDK]
  }

  /** The dependency list: the defaults, then TypeScript, Tailwind, next-auth and ESLint groups, each when enabled. */
  function DependencyList(mode: Mode, tailwind: bool, authority: bool, eslint: bool,
                          testVersion: Option<string>): seq<string> {
    BaseDependencies(testVersion)
    + When(mode == TS, TS_DEPS)
    + When(tailwind, TAILWIND_DEPS)
    + When(authority, AUTH_DEPS)
    + When(eslint, ESLINT_DEPS)
  }

  /** Builds the `dependencies` array by pushing each enabled group in turn. */
  method BuildDependencies(mode: Mode, tailwind: bool, authority: bool, eslint: bool,
                           testVersion: Option<string>) returns (deps: seq<string>)
    ensures deps == DependencyList(mode, tailwind, authority, eslint, testVersion)
  {
    var next := "next";
    if testVersion.Some? && testVersion.value != "" {
      next := next + "@" + testVersion.value;
      assert next == "next@" + testVersion.value;
    }
    deps := [REACT, REACT_DOM, next, SDK];
    assert deps == BaseDependencies(testVersion);
    if mode == TS {
      deps := deps + TS_DEPS;
    }
    assert deps == BaseDependencies(testVersion) + When(mode == TS, TS_DEPS);
    ghost var before := deps;
    if tailwind {
      deps := deps + TAILWIND_DEPS;
    }
    assert deps == before + When(tailwind, TAILWIND_DEPS);
    before := deps;
    if authority {
      deps := deps + AUTH_DEPS;
    }
    assert deps == before + When(authority, AUTH_DEPS);
    before := deps;
    if eslint {
      deps := deps + ESLINT_DEPS;
    }
    assert deps == before + When(eslint, ESLINT_DEPS);
  }

  /**
   * The list starts with react, react-dom, next and the SDK pin, has
   * 4 + 4·ts + 3·tailwind + authority + 2·eslint entries (so the install step is
   * always reached), and each group sits right after the groups before it.
   */
  lemma DependencyListShape(mode: Mode, tailwind: bool, authority: bool, eslint: bool,
                            testVersion: Option<string>)
    ensures var d := DependencyList(mode, tailwind, authority, eslint, testVersion);
      && |d| == 4 + (if mode == TS then 4 else 0) + (if tailwind then 3 else 0)
                  + (if authority then 1 else 0) + (if eslint then 2 else 0)
      && |d| >= 4
      && d[..4] == [REACT, REACT_DOM, NextSpecifier(testVersion), SDK]
      && (mode == TS ==> d[4..8] == TS_DEPS)
      && (tailwind ==> var at := if mode == TS then 8 else 4; d[at..at + 3] == TAILWIND_DEPS)
      && (eslint ==> d[|d| - 2..] == ESLINT_DEPS)
      && (authority ==> d[|d| - (if eslint then 3 else 1)] == "next-auth")
  {
    var d := DependencyList(mode, tailwind, authority, eslint, testVersion);
    var base := BaseDependencies(testVersion);
    var ts := When(mode == TS, TS_DEPS);
    var upToTailwind := base + ts + When(tailwind, TAILWIND_DEPS);
    var upToAuth := upToTailwind + When(authority, AUTH_DEPS);
    assert d == upToAuth + When(eslint, ESLINT_DEPS);
    assert d[..4] == base;
    if mode == TS {
      assert d[4..8] == ts;
    }
    if tailwind {
      var at := |base + ts|;
      assert upToTailwind == (base + ts) + TAILWIND_DEPS;
      assert upToTailwind[at..] == TAILWIND_DEPS;
      assert upToTailwind[at..at + 3] == TAILWIND_DEPS;
      assert d == upToTailwind + (When(authority, AUTH_DEPS) + When(eslint, ESLINT_DEPS));
      assert d[..|upToTailwind|] == upToTailwind;
      assert d[at..at + 3] == d[..|upToTailwind|][at..at + 3];
    }
    if authority {
      assert upToAuth[|upToAuth| - 1] == "next-auth";
      assert d[|upToAuth| - 1] == upToAuth[|upToAuth| - 1];
    }
  }

  /** The projects without TypeScript, Tailwind, authority and ESLint get exactly the four defaults. */
  lemma MinimalDependencies(testVersion: Option<string>)
    ensures DependencyList(JS, false, false, false, testVersion) == [REACT, REACT_DOM, NextSpecifier(testVersion), SDK]
  {
  }

  /**
   * Each feature's marker package is in the list exactly when the feature is
   * on: TypeScript for the ts mode, tailwindcss for Tailwind, next-auth for
   * authority and eslint for ESLint.
   */
  lemma DependencyMarkers(mode: Mode, tailwind: bool, authority: bool, eslint: bool,
                          testVersion: Option<string>)
    ensures var d := DependencyList(mode, tailwind, authority, eslint, testVersion);
      && ("typescript" in d <==> mode == TS)
      && ("tailwindcss" in d <==> tailwind)
      && ("next-auth" in d <==> authority)
      && ("eslint" in d <==> eslint)
  {
    var next := NextSpecifier(testVersion);
    // Each marker differs from every package outside its own group.
    assert "typescript" !in [REACT, REACT_DOM, SDK] + TAILWIND_DEPS + AUTH_DEPS + ESLINT_DEPS;
    assert "tailwindcss" !in [REACT, REACT_DOM, SDK] + TS_DEPS + AUTH_DEPS + ESLINT_DEPS;
    assert "next-auth" !in [REACT, REACT_DOM, SDK] + TS_DEPS + TAILWIND_DEPS + ESLINT_DEPS;
    assert "eslint" !in [REACT, REACT_DOM, SDK] + TS_DEPS + TAILWIND_DEPS + AUTH_DEPS;
    assert "next-auth" != next by {
      if |next| > 4 {
        assert next[4] == '@' && "next-auth"[4] == '-';
      }
    }
    assert next != "typescript" && next != "tailwindcss" && next != "eslint" by {
      assert next[0] == 'n';
    }
  }
}
