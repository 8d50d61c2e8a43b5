/**
 * The alias rewriter: the module-resolution config's default alias mapping, and the
 * scan that rewrites the `@/` import prefix in the other copied files.
 */
module Alias {
  import opened Text
  import opened Trees
  import opened Templates

  const DEFAULT_ALIAS := "@/*"
  const DEFAULT_PREFIX := "@/"
  /** The key of the default mapping as it appears in the config text. */
  const ALIAS_KEY := "\"@/*\":"
  const ROOT_TARGET := " [\"./*\"]"
  const SRC_TARGET := " [\"./src/*\"]"

  /** The config file rewritten: `jsconfig.json` for JavaScript projects, `tsconfig.json` otherwise. */
  function ConfigFile(mode: Mode): (p: Path)
    ensures p == ["jsconfig.json"] <==> mode == JS
    ensures p == ["tsconfig.json"] <==> mode == TS
  {
    [if mode == JS then "jsconfig.json" else "tsconfig.json"]
  }

  /**
   * The two chained replaces on the config text: first the default mapping's
   * target (pointed into `./src` when a source directory is requested), then
   * the mapping's key (set to the requested alias).
   */
  function RewriteConfig(content: string, srcDir: bool, alias: string): string {
    var mapped := ReplaceFirst(content, ALIAS_KEY + ROOT_TARGET, ALIAS_KEY + (if srcDir then SRC_TARGET else ROOT_TARGET));
    ReplaceFirst(mapped, ALIAS_KEY, "\"" + alias + "\":")
  }

  /** Without a source directory and with the default alias, the config text is left as it was. */
  lemma RewriteConfigIdentity(content: string)
    ensures RewriteConfig(content, false, DEFAULT_ALIAS) == content
  {
    ReplaceFirstSelf(content, ALIAS_KEY + ROOT_TARGET);
    DefaultKey();
    ReplaceFirstSelf(content, ALIAS_KEY);
  }

  /** The key written for the default alias is the key already in the config. */
  lemma DefaultKey()
    ensures "\"" + DEFAULT_ALIAS + "\":" == ALIAS_KEY
  {
  }

  /** Two texts that agree up to `n` have the same occurrences ending by `n`. */
  lemma OccursAtPrefix(s1: string, s2: string, pat: string, n: nat, j: nat)
    requires n <= |s1| && n <= |s2| && s1[..n] == s2[..n] && j + |pat| <= n
    ensures OccursAt(s1, pat, j) <==> OccursAt(s2, pat, j)
  {
    assert s1[j..j + |pat|] == s1[..n][j..j + |pat|];
    assert s2[j..j + |pat|] == s2[..n][j..j + |pat|];
  }

  /** A pattern that starts with `key` cannot occur where `key` does not. */
  lemma NoLongerOccurrence(s: string, key: string, tail: string, n: nat)
    requires forall j: nat :: j < n ==> !OccursAt(s, key, j)
    ensures forall j: nat :: j < n ==> !OccursAt(s, key + tail, j)
  {
    forall j: nat | j < n
      ensures !OccursAt(s, key + tail, j)
    {
      if j + |key + tail| <= |s| {
        assert !OccursAt(s, key, j);
        assert s[j..j + |key + tail|][..|key|] == s[j..j + |key|];
        assert (key + tail)[..|key|] == key;
      }
    }
  }

  /** The first step: the mapping `key + tail` is replaced where it stands. */
  lemma ReplaceMapping(pre: string, key: string, tail: string, target: string, post: string)
    requires forall j: nat :: j < |pre| ==> !OccursAt(pre + key + tail + post, key, j)
    ensures ReplaceFirst(pre + key + tail + post, key + tail, key + target) == pre + key + target + post
  {
    var s := pre + key + tail + post;
    assert s == pre + (key + tail) + post;
    NoLongerOccurrence(s, key, tail, |pre|);
    ReplaceFirstAt(pre, key + tail, post, key + target);
    assert pre + (key + target) + post == pre + key + target + post;
  }

  /** Swapping what follows `key` does not create an earlier occurrence of `key`. */
  lemma KeyStillFirst(pre: string, key: string, tail: string, target: string, post: string)
    requires forall j: nat :: j < |pre| ==> !OccursAt(pre + key + tail + post, key, j)
    ensures forall j: nat :: j < |pre| ==> !OccursAt(pre + key + (target + post), key, j)
  {
    var s := pre + key + tail + post;
    var mapped := pre + key + (target + post);
    var n := |pre| + |key|;
    assert mapped[..n] == pre + key;
    assert s[..n] == pre + key;
    forall j: nat | j < |pre|
      ensures !OccursAt(mapped, key, j)
    {
      OccursAtPrefix(mapped, s, key, n, j);
    }
  }

  /** The second step: `key` still first occurs at the end of `pre`, and is replaced there. */
  lemma ReplaceKey(pre: string, key: string, tail: string, target: string, post: string, rep: string)
    requires forall j: nat :: j < |pre| ==> !OccursAt(pre + key + tail + post, key, j)
    ensures ReplaceFirst(pre + key + target + post, key, rep) == pre + rep + target + post
  {
    KeyStillFirst(pre, key, tail, target, post);
    ReplaceFirstAt(pre, key, target + post, rep);
    assert pre + key + target + post == pre + key + (target + post);
    assert pre + rep + (target + post) == pre + rep + target + post;
  }

  /**
   * When the default mapping is the first mention of the default alias key,
   * the rewritten config maps the requested alias into `./src` or `.` according
   * to `srcDir`, and everything around the mapping is kept.
   */
  lemma RewriteConfigMapping(pre: string, post: string, srcDir: bool, alias: string)
    requires forall j: nat :: j < |pre| ==> !OccursAt(pre + ALIAS_KEY + ROOT_TARGET + post, ALIAS_KEY, j)
    ensures RewriteConfig(pre + ALIAS_KEY + ROOT_TARGET + post, srcDir, alias)
         == pre + "\"" + alias + "\":" + (if srcDir then SRC_TARGET else ROOT_TARGET) + post
  {
    var target := if srcDir then SRC_TARGET else ROOT_TARGET;
    var rep := "\"" + alias + "\":";
    TwoReplaces(pre, ALIAS_KEY, ROOT_TARGET, target, post, rep);
    assert pre + rep + target + post == pre + "\"" + alias + "\":" + target + post;
  }

  /** The two replaces of the rewrite, on any key, old target, new target and new key. */
  lemma TwoReplaces(pre: string, key: string, tail: string, target: string, post: string, rep: string)
    requires forall j: nat :: j < |pre| ==> !OccursAt(pre + key + tail + post, key, j)
    ensures ReplaceFirst(ReplaceFirst(pre + key + tail + post, key + tail, key + target), key, rep)
         == pre + rep + target + post
  {
    ReplaceMapping(pre, key, tail, target, post);
    ReplaceKey(pre, key, tail, target, post, rep);
  }

  /** The scan leaves the root `tsconfig.json` and `jsconfig.json` alone. */
  predicate SkippedByScan(p: Path) {
    p == ["tsconfig.json"] || p == ["jsconfig.json"]
  }

  /** What the scan makes of one entry: in a regular file, the first `@/` becomes `prefix`. */
  function ScanEntry(p: Path, n: Node, prefix: string): Node {
    if SkippedByScan(p) || !n.File? then n
    else File(ReplaceFirst(n.content, DEFAULT_PREFIX, prefix))
  }

  /** The project after the alias scan; the scan only runs for a non-default alias. */
  function Scanned(t: Tree, alias: string): (r: Tree)
    ensures r.Keys == t.Keys
  {
    if alias == DEFAULT_ALIAS then t
    else map p | p in t :: ScanEntry(p, t[p], StripStars(alias))
  }

  /**
   * The scan replaces the first `@/` of a file by the alias without its stars,
   * and keeps the rest of the file, later `@/` included.
   */
  lemma ScanRewritesFirstImport(p: Path, pre: string, post: string, alias: string)
    requires !SkippedByScan(p) && !Contains(pre, DEFAULT_PREFIX)
    ensures ScanEntry(p, File(pre + DEFAULT_PREFIX + post), StripStars(alias))
         == File(pre + StripStars(alias) + post)
  {
    var s := pre + DEFAULT_PREFIX + post;
    forall j: nat | j < |pre|
      ensures !OccursAt(s, DEFAULT_PREFIX, j)
    {
      if j + 2 <= |pre| {
        assert s[j..j + 2] == pre[j..j + 2];
        assert !OccursAt(pre, DEFAULT_PREFIX, j);
      } else {
        assert s[j + 1] == '@';
      }
    }
    ReplaceFirstAt(pre, DEFAULT_PREFIX, post, StripStars(alias));
  }

  /** A file without `@/`, a directory, a JSON document and the config files come through the scan unchanged. */
  lemma ScanKeeps(t: Tree, alias: string, p: Path)
    requires p in t
    requires SkippedByScan(p) || !t[p].File? || !Contains(t[p].content, DEFAULT_PREFIX)
    ensures Scanned(t, alias)[p] == t[p]
  {
  }

  /** With the custom alias `~/` plus a star, the imports are rewritten to `~/`. */
  lemma TildeAlias(p: Path, pre: string, post: string)
    requires !SkippedByScan(p) && !Contains(pre, "@/")
    ensures ScanEntry(p, File(pre + "@/" + post), StripStars("~/*")) == File(pre + "~/" + post)
  {
    ScanRewritesFirstImport(p, pre, post, "~/*");
    assert "~/*" == "~/" + "*";
    assert StripStars("~/*") == "~/";
  }
}
