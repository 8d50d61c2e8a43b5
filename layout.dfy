/**
 * The layout relocator: moving `app`, `pages` and `styles` under `src`, the
 * home page's self-reference, and the Tailwind content globs.
 */
module Layout {
  import opened Wrappers
  import opened Text
  import opened Trees
  import opened Templates

  const SRC := "src"

  /** Why a stage of the installation stopped. */
  datatype Failure =
    | Unreadable(path: Path)              // a file the stage reads is missing or not a regular file
    | RenameFailed(from: Path, to: Path)  // a move failed for a reason other than a missing source

  // ---------------------------------------------------------------------------
  // Relocation

  /** `p` lies at or below the top-level entry `name`. */
  predicate Under(p: Path, name: string) {
    |p| > 0 && p[0] == name
  }

  /** Something named `name` exists at the top of the tree. */
  predicate Present(t: Tree, name: string) {
    exists p | p in t :: Under(p, name)
  }

  /** The destination `src/<name>` is already taken, so the rename fails. */
  predicate Blocked(t: Tree, name: string) {
    exists p | p in t :: |p| >= 2 && p[0] == SRC && p[1] == name
  }

  /** The rename of `name` to `src/<name>`: the whole subtree moves, everything else stays. */
  function Moved(t: Tree, name: string): Tree {
    (map p | p in t && !Under(p, name) :: t[p])
    + (map p | p in t && Under(p, name) :: [SRC] + p := t[([SRC] + p)[1..]])
  }

  /**
   * The renames, one name after the other: an absent name is skipped (the
   * rename's not-found error is swallowed), an occupied destination is fatal.
   */
  function RelocateAll(t: Tree, names: seq<string>): Result<Tree, Failure>
    decreases |names|
  {
    if |names| == 0 then Ok(t)
    else if !Present(t, names[0]) then RelocateAll(t, names[1..])
    else if Blocked(t, names[0]) then Err(RenameFailed([names[0]], [SRC, names[0]]))
    else RelocateAll(Moved(t, names[0]), names[1..])
  }

  /** The relocation stage: nothing without a source directory, else `mkdir src` and the renames. */
  function Relocation(t: Tree, srcDir: bool): Result<Tree, Failure> {
    if !srcDir then Ok(t) else RelocateAll(MakeDirs(t, [SRC]), SRC_DIR_NAMES)
  }

  /** The entry is at or below one of `names`. */
  predicate InNames(p: Path, names: seq<string>) {
    |p| > 0 && p[0] in names
  }

  predicate Distinct(names: seq<string>) {
    forall i, j :: 0 <= i < j < |names| ==> names[i] != names[j]
  }

  /** What one move does to the entries of the tree. */
  lemma MovedEntries(t: Tree, name: string)
    requires name != SRC && !Blocked(t, name)
    ensures forall p :: p in t && Under(p, name) ==> [SRC] + p in Moved(t, name) && Moved(t, name)[[SRC] + p] == t[p]
    ensures forall p :: p in t && !Under(p, name) ==> p in Moved(t, name) && Moved(t, name)[p] == t[p]
    ensures forall q :: q in Moved(t, name) ==>
      (q in t && !Under(q, name)) || (|q| > 1 && q[0] == SRC && q[1..] in t && Under(q[1..], name))
  {
    var r := Moved(t, name);
    forall q | q in r
      ensures (q in t && !Under(q, name)) || (|q| > 1 && q[0] == SRC && q[1..] in t && Under(q[1..], name))
    {
      if !(q in t && !Under(q, name)) {
        var p :| p in t && Under(p, name) && q == [SRC] + p;
        assert q[1..] == p;
      }
    }
    forall p' | p' in t && Under(p', name)
      ensures [SRC] + p' !in t
    {
      var q := [SRC] + p';
      assert |q| >= 2 && q[0] == SRC && q[1] == name;
    }
  }

  /** A move leaves the presence and the blocking of every other name as it was. */
  lemma MovedOthers(t: Tree, name: string, other: string)
    requires name != SRC && other != SRC && !Blocked(t, name)
    ensures !Present(Moved(t, name), name)
    ensures other != name ==> (Present(Moved(t, name), other) <==> Present(t, other))
    ensures other != name ==> (Blocked(Moved(t, name), other) <==> Blocked(t, other))
  {
    MovedEntries(t, name);
    var r := Moved(t, name);
    if other != name {
      if Present(t, other) {
        var p :| p in t && Under(p, other);
        assert p in r;
      }
      if Blocked(t, other) {
        var p :| p in t && |p| >= 2 && p[0] == SRC && p[1] == other;
        assert p in r;
      }
      if Blocked(r, other) {
        var p :| p in r && |p| >= 2 && p[0] == SRC && p[1] == other;
        assert p in t;
      }
    }
  }

  /**
   * After the renames, every entry under one of `names` sits under `src` with
   * the rest of its path kept, every other entry is where it was, nothing is
   * left under any of `names`, and nothing else appears.
   */
  lemma {:induction false} RelocateAllEntries(t: Tree, names: seq<string>, r: Tree)
    requires SRC !in names
    requires RelocateAll(t, names) == Ok(r)
    ensures forall p :: p in t && InNames(p, names) ==> [SRC] + p in r && r[[SRC] + p] == t[p]
    ensures forall p :: p in t && !InNames(p, names) ==> p in r && r[p] == t[p]
    ensures forall q :: q in r ==> !InNames(q, names)
    ensures forall q :: q in r ==>
      (q in t && !InNames(q, names)) || (|q| > 1 && q[0] == SRC && q[1..] in t && InNames(q[1..], names))
    decreases |names|
  {
    if |names| == 0 {
      return;
    }
    var n, rest := names[0], names[1..];
    assert forall x :: x in names <==> x == n || x in rest;
    var t1 := if !Present(t, n) then t else Moved(t, n);
    assert RelocateAll(t1, rest) == Ok(r);
    RelocateAllEntries(t1, rest, r);
    if Present(t, n) {
      MovedEntries(t, n);
    }
    forall p | p in t && InNames(p, names)
      ensures [SRC] + p in r && r[[SRC] + p] == t[p]
    {
      if p[0] == n {
        assert ([SRC] + p)[0] == SRC;
        assert [SRC] + p in t1 && t1[[SRC] + p] == t[p];
      } else {
        assert p in t1 && t1[p] == t[p];
      }
    }
    forall q | q in r
      ensures !InNames(q, names)
      ensures (q in t && !InNames(q, names)) || (|q| > 1 && q[0] == SRC && q[1..] in t && InNames(q[1..], names))
    {
      if q in t1 && !InNames(q, rest) {
        if Present(t, n) {
          assert (q in t && !Under(q, n)) || (|q| > 1 && q[0] == SRC && q[1..] in t && Under(q[1..], n));
        } else {
          assert !Under(q, n);
        }
      } else {
        var q' := q[1..];
        assert q' in t1 && InNames(q', rest);
        if Present(t, n) {
          assert q' in t && !Under(q', n);
        }
      }
    }
  }

  /** The renames fail exactly when some present name finds its destination taken. */
  lemma {:induction false} RelocateAllFails(t: Tree, names: seq<string>)
    requires SRC !in names && Distinct(names)
    ensures RelocateAll(t, names).Err? <==>
      exists i :: 0 <= i < |names| && Present(t, names[i]) && Blocked(t, names[i])
    decreases |names|
  {
    if |names| == 0 {
      return;
    }
    var n, rest := names[0], names[1..];
    assert Distinct(rest) by {
      forall i, j | 0 <= i < j < |rest| ensures rest[i] != rest[j] {
        assert rest[i] == names[i + 1] && rest[j] == names[j + 1];
      }
    }
    assert forall i :: 0 <= i < |rest| ==> rest[i] == names[i + 1] && rest[i] != n;
    if !Present(t, n) {
      RelocateAllFails(t, rest);
      if exists i :: 0 <= i < |names| && Present(t, names[i]) && Blocked(t, names[i]) {
        var i :| 0 <= i < |names| && Present(t, names[i]) && Blocked(t, names[i]);
        assert i > 0 && Present(t, rest[i - 1]) && Blocked(t, rest[i - 1]);
      }
    } else if Blocked(t, n) {
      assert Present(t, names[0]) && Blocked(t, names[0]);
    } else {
      var t1 := Moved(t, n);
      RelocateAllFails(t1, rest);
      forall i | 0 <= i < |rest|
        ensures (Present(t1, rest[i]) && Blocked(t1, rest[i])) <==> (Present(t, rest[i]) && Blocked(t, rest[i]))
      {
        MovedOthers(t, n, rest[i]);
      }
      if exists i :: 0 <= i < |names| && Present(t, names[i]) && Blocked(t, names[i]) {
        var i :| 0 <= i < |names| && Present(t, names[i]) && Blocked(t, names[i]);
        assert i > 0 && Present(t1, rest[i - 1]) && Blocked(t1, rest[i - 1]);
      }
    }
  }

  /**
   * The relocation stage as a whole: without a source directory the tree is
   * unchanged; with one, it fails exactly when a present directory's
   * destination is taken, and otherwise `app`, `pages` and `styles` end up
   * under `src` with everything else kept in place.
   */
  lemma RelocationSpec(t: Tree, srcDir: bool)
    ensures !srcDir ==> Relocation(t, srcDir) == Ok(t)
    ensures srcDir ==> (Relocation(t, srcDir).Err? <==>
      exists i :: 0 <= i < |SRC_DIR_NAMES| && Present(t, SRC_DIR_NAMES[i]) && Blocked(t, SRC_DIR_NAMES[i]))
    ensures Relocation(t, srcDir).Ok? && srcDir ==> (
      var r := Relocation(t, srcDir).value;
      && (forall p :: p in t && InNames(p, SRC_DIR_NAMES) ==> [SRC] + p in r && r[[SRC] + p] == t[p])
      && (forall p :: p in t && !InNames(p, SRC_DIR_NAMES) ==> p in r && r[p] == t[p])
      && (forall q :: q in r ==> !InNames(q, SRC_DIR_NAMES))
      && [SRC] in r)
  {
    if srcDir {
      var t0 := MakeDirs(t, [SRC]);
      assert Prefixes([SRC]) == {[SRC]} by {
        assert [SRC][..1] == [SRC];
      }
      assert Distinct(SRC_DIR_NAMES);
      RelocateAllFails(t0, SRC_DIR_NAMES);
      forall i | 0 <= i < |SRC_DIR_NAMES|
        ensures Present(t0, SRC_DIR_NAMES[i]) == Present(t, SRC_DIR_NAMES[i])
        ensures Blocked(t0, SRC_DIR_NAMES[i]) == Blocked(t, SRC_DIR_NAMES[i])
      {
        if Present(t0, SRC_DIR_NAMES[i]) {
          var p :| p in t0 && Under(p, SRC_DIR_NAMES[i]);
          assert p in t;
        }
        if Blocked(t0, SRC_DIR_NAMES[i]) {
          var p :| p in t0 && |p| >= 2 && p[0] == SRC && p[1] == SRC_DIR_NAMES[i];
          assert p in t;
        }
      }
      if Relocation(t, srcDir).Ok? {
        var r := Relocation(t, srcDir).value;
        RelocateAllEntries(t0, SRC_DIR_NAMES, r);
        assert [SRC] in t0 && !InNames([SRC], SRC_DIR_NAMES);
      }
    }
  }

  /** A failed relocation reports the rename of one of the names into `src`. */
  lemma {:induction false} RelocateAllError(t: Tree, names: seq<string>)
    requires RelocateAll(t, names).Err?
    ensures exists i :: 0 <= i < |names| && RelocateAll(t, names).error == RenameFailed([names[i]], [SRC, names[i]])
    decreases |names|
  {
    if !Present(t, names[0]) || !Blocked(t, names[0]) {
      var next := if !Present(t, names[0]) then t else Moved(t, names[0]);
      RelocateAllError(next, names[1..]);
      var i :| 0 <= i < |names[1..]| && RelocateAll(next, names[1..]).error == RenameFailed([names[1..][i]], [SRC, names[1..][i]]);
      assert names[1..][i] == names[i + 1];
    } else {
      assert RelocateAll(t, names).error == RenameFailed([names[0]], [SRC, names[0]]);
    }
  }

  /** An absent directory is skipped without error and without changing anything. */
  lemma AbsentSkipped(t: Tree, names: seq<string>)
    requires |names| > 0 && !Present(t, names[0])
    ensures RelocateAll(t, names) == RelocateAll(t, names[1..])
  {
  }

  // ---------------------------------------------------------------------------
  // The home page

  /**
   * The home page the relocator patches: `src/app/page.<ext>` for app-router
   * templates, `src/pages/index.<ext>` otherwise, with `tsx` in TypeScript and
   * `js` in JavaScript. (The source resolves this path against the working
   * directory, not against the project root.)
   */
  function HomePagePath(isApp: bool, mode: Mode): (p: Path)
    ensures |p| == 3 && p[0] == SRC
    ensures p[1] == (if isApp then "app" else "pages")
    ensures p[2] == (if isApp then "page" else "index") + "." + (if mode == TS then "tsx" else "js")
  {
    [SRC, if isApp then "app" else "pages", (if isApp then "page" else "index") + "." + (if mode == TS then "tsx" else "js")]
  }

  /** The home page's own location as its text mentions it, before and after the move. */
  function HomePageReference(isApp: bool): string {
    if isApp then "app/page" else "pages/index"
  }

  /** The patch of the home page's text: its first self-reference gains the `src/` prefix. */
  function PatchHomePage(content: string, isApp: bool): string {
    ReplaceFirst(content, HomePageReference(isApp), "src/" + HomePageReference(isApp))
  }

  /**
   * The first self-reference becomes the nested one and nothing else changes;
   * a page without a self-reference is left as it is.
   */
  lemma PatchHomePageSpec(pre: string, post: string, isApp: bool)
    requires forall j: nat :: j < |pre| ==> !OccursAt(pre + HomePageReference(isApp) + post, HomePageReference(isApp), j)
    ensures PatchHomePage(pre + HomePageReference(isApp) + post, isApp)
         == pre + (if isApp then "src/app/page" else "src/pages/index") + post
  {
    var reference := HomePageReference(isApp);
    ReplaceFirstAt(pre, reference, post, "src/" + reference);
    NestedReference(isApp);
  }

  /** The nested self-reference spelled out. */
  lemma NestedReference(isApp: bool)
    ensures "src/" + HomePageReference(isApp) == (if isApp then "src/app/page" else "src/pages/index")
  {
  }

  lemma PatchHomePageNoReference(content: string, isApp: bool)
    requires !Contains(content, HomePageReference(isApp))
    ensures PatchHomePage(content, isApp) == content
  {
    ReplaceFirstSpec(content, HomePageReference(isApp), "src/" + HomePageReference(isApp));
  }

  // ---------------------------------------------------------------------------
  // Tailwind content globs

  const TAILWIND_CONFIG: Path := ["tailwind.config.js"]
  const GLOB_SUFFIX := "/**/*.{js,ts,jsx,tsx,mdx}"

  /** The regular-expression class `\w`. */
  predicate IsWordChar(c: char) {
    ('a' <= c <= 'z') || ('A' <= c <= 'Z') || ('0' <= c <= '9') || c == '_'
  }

  /** The length of the run of word characters at the start of `s`. */
  function WordRun(s: string): (n: nat)
    ensures n <= |s|
    ensures forall k :: 0 <= k < n ==> IsWordChar(s[k])
    ensures n < |s| ==> !IsWordChar(s[n])
    decreases |s|
  {
    if |s| > 0 && IsWordChar(s[0]) then 1 + WordRun(s[1..]) else 0
  }

  /**
   * The length of the match of the content-glob expression (`./`, a group of
   * word characters, then `suffix`) at the start of `s`, or 0. Since `\w`
   * cannot match `/`, the greedy word run is the only candidate for the group.
   */
  function GlobMatch(s: string, suffix: string): (m: nat)
    ensures m == 0 || (2 < m <= |s| && s[0] == '.' && s[1] == '/')
    ensures m > 0 ==> 2 < m - |suffix| && s[m - |suffix|..m] == suffix
    ensures m > 0 ==> forall k :: 2 <= k < m - |suffix| ==> IsWordChar(s[k])
  {
    if |s| >= 2 && s[0] == '.' && s[1] == '/' then
      var w := WordRun(s[2..]);
      assert forall k :: 2 <= k < 2 + w ==> IsWordChar(s[k]) by {
        forall k | 2 <= k < 2 + w
          ensures IsWordChar(s[k])
        {
          assert s[k] == s[2..][k - 2];
        }
      }
      if w > 0 && 2 + w + |suffix| <= |s| && s[2 + w..2 + w + |suffix|] == suffix
      then 2 + w + |suffix|
      else 0
    else 0
  }

  /**
   * The global replace, scanning left to right: at each match, `insert` goes
   * in after `./` and scanning resumes after the match; other characters are
   * copied through.
   */
  function GlobScan(s: string, suffix: string, insert: string): string
    decreases |s|
  {
    if |s| == 0 then ""
    else
      var m := GlobMatch(s, suffix);
      if m > 0 then s[..2] + insert + s[2..m] + GlobScan(s[m..], suffix, insert)
      else [s[0]] + GlobScan(s[1..], suffix, insert)
  }

  /** The Tailwind patch: every content glob gains the `src/` directory. */
  function NestGlobs(s: string): string {
    GlobScan(s, GLOB_SUFFIX, SRC + "/")
  }

  /** One step of the scan at a match. */
  lemma GlobScanMatch(s: string, suffix: string, insert: string)
    requires GlobMatch(s, suffix) > 0
    ensures var m := GlobMatch(s, suffix);
      GlobScan(s, suffix, insert) == s[..2] + insert + s[2..m] + GlobScan(s[m..], suffix, insert)
  {
  }

  /** One step of the scan where no glob starts. */
  lemma GlobScanOther(s: string, suffix: string, insert: string)
    requires |s| > 0 && GlobMatch(s, suffix) == 0
    ensures GlobScan(s, suffix, insert) == [s[0]] + GlobScan(s[1..], suffix, insert)
  {
  }

  /** Cutting a text after its second character and at `m` and joining the pieces gives it back. */
  lemma Rejoin(s: string, m: nat)
    requires 2 <= m <= |s|
    ensures s[..2] + "" + s[2..m] + s[m..] == s
  {
  }

  /** With nothing to insert, the scan gives its input back: only the matches change. */
  lemma {:induction false} GlobScanIdentity(s: string, suffix: string)
    ensures GlobScan(s, suffix, "") == s
    decreases |s|
  {
    if |s| > 0 {
      var m := GlobMatch(s, suffix);
      if m > 0 {
        GlobScanMatch(s, suffix, "");
        GlobScanIdentity(s[m..], suffix);
        Rejoin(s, m);
      } else {
        GlobScanOther(s, suffix, "");
        GlobScanIdentity(s[1..], suffix);
        assert [s[0]] + s[1..] == s;
      }
    }
  }

  /** No `./` starts inside `s`, so no content glob can begin there. */
  predicate NoDotSlash(s: string) {
    forall k :: 0 <= k < |s| - 1 ==> !(s[k] == '.' && s[k + 1] == '/')
  }

  /**
   * Text in which no `./` starts (also not across its end) contains no glob
   * and is copied through.
   */
  lemma {:induction false} GlobScanPlain(pre: string, rest: string, suffix: string, insert: string)
    requires NoDotSlash(pre)
    requires |pre| > 0 && |rest| > 0 && pre[|pre| - 1] == '.' ==> rest[0] != '/'
    ensures GlobScan(pre + rest, suffix, insert) == pre + GlobScan(rest, suffix, insert)
    decreases |pre|
  {
    if |pre| > 0 {
      var s := pre + rest;
      NoGlobAtStart(pre, rest, suffix);
      GlobScanOther(s, suffix, insert);
      assert s[1..] == pre[1..] + rest;
      NoDotSlashTail(pre);
      GlobScanPlain(pre[1..], rest, suffix, insert);
      assert pre == [pre[0]] + pre[1..];
    } else {
      assert pre + rest == rest;
    }
  }

  /** No glob starts at the start of text that does not start with `./`. */
  lemma NoGlobAtStart(pre: string, rest: string, suffix: string)
    requires |pre| > 0 && NoDotSlash(pre)
    requires |rest| > 0 && pre[|pre| - 1] == '.' ==> rest[0] != '/'
    ensures GlobMatch(pre + rest, suffix) == 0
  {
    var s := pre + rest;
    assert s[0] == pre[0];
    if |s| >= 2 {
      if |pre| >= 2 {
        assert s[1] == pre[1];
      } else {
        assert s[1] == rest[0];
      }
    }
  }

  /** A text without `./` has none after its first character either. */
  lemma NoDotSlashTail(s: string)
    requires |s| > 0 && NoDotSlash(s)
    ensures NoDotSlash(s[1..])
  {
    forall k | 0 <= k < |s[1..]| - 1
      ensures !(s[1..][k] == '.' && s[1..][k + 1] == '/')
    {
      assert s[1..][k] == s[k + 1] && s[1..][k + 1] == s[k + 2];
    }
  }

  /** The usual opening of a Tailwind config contains no `./`, so `NestGlobsLine` applies to its first glob. */
  lemma ModuleExportsPlain()
    ensures NoDotSlash("module.exports = {\n  content: [\n    '")
  {
    var s := "module.exports = {\n  content: [\n    '";
    assert forall k :: 0 <= k < |s| && k != 6 ==> s[k] != '.';
  }

  /** A glob made of `./`, a word and the suffix gets `insert` after its `./`. */
  lemma GlobScanGlob(w: string, rest: string, suffix: string, insert: string)
    requires |w| > 0 && forall k :: 0 <= k < |w| ==> IsWordChar(w[k])
    requires |suffix| > 0 && !IsWordChar(suffix[0])
    ensures GlobScan("./" + w + suffix + rest, suffix, insert)
         == "./" + insert + w + suffix + GlobScan(rest, suffix, insert)
  {
    var s := "./" + w + suffix + rest;
    var m := 2 + |w| + |suffix|;
    GlobMatchGlob(w, rest, suffix);
    GlobScanMatch(s, suffix, insert);
    var scanned := GlobScan(rest, suffix, insert);
    GlobParts(w, suffix, rest);
    calc {
      GlobScan(s, suffix, insert);
      s[..2] + insert + s[2..m] + GlobScan(s[m..], suffix, insert);
      "./" + insert + (w + suffix) + scanned;
      { assert "./" + insert + (w + suffix) == "./" + insert + w + suffix; }
      "./" + insert + w + suffix + scanned;
    }
  }

  /** The parts of a glob: its `./`, its word and suffix, and what follows it. */
  lemma GlobParts(w: string, suffix: string, rest: string)
    ensures var s, m := "./" + w + suffix + rest, 2 + |w| + |suffix|;
      s[..2] == "./" && s[2..m] == w + suffix && s[m..] == rest
  {
  }

  /** The match at a glob covers exactly the glob. */
  lemma GlobMatchGlob(w: string, rest: string, suffix: string)
    requires |w| > 0 && forall k :: 0 <= k < |w| ==> IsWordChar(w[k])
    requires |suffix| > 0 && !IsWordChar(suffix[0])
    ensures GlobMatch("./" + w + suffix + rest, suffix) == 2 + |w| + |suffix|
  {
    var s := "./" + w + suffix + rest;
    var tail := suffix + rest;
    assert s == "./" + (w + tail);
    assert s[0] == '.' && s[1] == '/';
    assert s[2..] == w + tail;
    WordRunOf(w, tail);
    assert s[2 + |w|..] == tail;
    assert tail[..|suffix|] == suffix;
  }

  /** The word run of a word followed by a non-word character is the word. */
  lemma {:induction false} WordRunOf(w: string, rest: string)
    requires forall k :: 0 <= k < |w| ==> IsWordChar(w[k])
    requires |rest| > 0 && !IsWordChar(rest[0])
    ensures WordRun(w + rest) == |w|
    decreases |w|
  {
    if |w| > 0 {
      assert (w + rest)[1..] == w[1..] + rest;
      WordRunOf(w[1..], rest);
    } else {
      assert w + rest == rest;
    }
  }

  /** A glob after text in which no `./` starts: the text is copied, the glob gets `insert`. */
  lemma GlobScanLine(pre: string, w: string, rest: string, suffix: string, insert: string)
    requires NoDotSlash(pre)
    requires |w| > 0 && forall k :: 0 <= k < |w| ==> IsWordChar(w[k])
    requires |suffix| > 0 && !IsWordChar(suffix[0])
    ensures GlobScan(pre + ("./" + w + suffix + rest), suffix, insert)
         == pre + ("./" + insert + w + suffix + GlobScan(rest, suffix, insert))
  {
    assert ("./" + w + suffix + rest)[0] == '.';
    GlobScanPlain(pre, "./" + w + suffix + rest, suffix, insert);
    GlobScanGlob(w, rest, suffix, insert);
  }

  /**
   * A content line of the Tailwind config: the text before the glob is kept,
   * the glob is nested under `src`, and the rest is patched in the same way.
   */
  lemma NestGlobsLine(pre: string, w: string, rest: string)
    requires NoDotSlash(pre)
    requires |w| > 0 && forall k :: 0 <= k < |w| ==> IsWordChar(w[k])
    ensures NestGlobs(pre + ("./" + w + GLOB_SUFFIX + rest))
         == pre + ("./" + (SRC + "/") + w + GLOB_SUFFIX + NestGlobs(rest))
  {
    assert GLOB_SUFFIX[0] == '/';
    GlobScanLine(pre, w, rest, GLOB_SUFFIX, SRC + "/");
  }
}
