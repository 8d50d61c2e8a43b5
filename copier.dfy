/**
 * The tree copier: which template entries are copied into the project root
 * and under which names (the `cpy` call with its `rename` callback).
 */
module Copier {
  import opened Trees

  const ESLINT_CONFIG := "eslintrc.json"
  const TAILWIND_CONFIG := "tailwind.config.js"
  const POSTCSS_CONFIG := "postcss.config.js"

  /** The glob list handed to the copy: everything, minus the negated optional configs. */
  function CopyPatterns(eslint: bool, tailwind: bool): seq<string> {
    ["**"]
    + (if eslint then [] else ["!" + ESLINT_CONFIG])
    + (if tailwind then [] else ["!" + TAILWIND_CONFIG, "!" + POSTCSS_CONFIG])
  }

  /** Builds the `copySource` array by pushing the negations the flags call for. */
  method CopySource(eslint: bool, tailwind: bool) returns (patterns: seq<string>)
    ensures patterns == CopyPatterns(eslint, tailwind)
  {
    patterns := ["**"];
    if !eslint {
      patterns := patterns + ["!" + ESLINT_CONFIG];
    }
    if !tailwind {
      patterns := patterns + ["!" + TAILWIND_CONFIG, "!" + POSTCSS_CONFIG];
    }
  }

  /**
   * A negated pattern `!name` (no slash) matches only the entry `name` at the
   * top of the template; `**` matches everything else.
   */
  predicate Excluded(patterns: seq<string>, p: Path) {
    |p| == 1 && "!" + p[0] in patterns
  }

  /** The copy drops exactly the lint config without eslint and the two CSS configs without tailwind. */
  lemma ExcludedIff(eslint: bool, tailwind: bool, p: Path)
    ensures Excluded(CopyPatterns(eslint, tailwind), p) <==>
      ((!eslint && p == [ESLINT_CONFIG]) || (!tailwind && (p == [TAILWIND_CONFIG] || p == [POSTCSS_CONFIG])))
  {
    var patterns := CopyPatterns(eslint, tailwind);
    if |p| == 1 {
      var neg := "!" + p[0];
      assert neg[1..] == p[0];
      assert ("!" + ESLINT_CONFIG)[1..] == ESLINT_CONFIG;
      assert ("!" + TAILWIND_CONFIG)[1..] == TAILWIND_CONFIG;
      assert ("!" + POSTCSS_CONFIG)[1..] == POSTCSS_CONFIG;
      assert neg != "**" by { assert neg[0] == '!'; }
      if !eslint && p == [ESLINT_CONFIG] {
        assert patterns[1] == neg;
      }
      if !tailwind && p == [TAILWIND_CONFIG] {
        assert patterns[|patterns| - 2] == neg;
      }
      if !tailwind && p == [POSTCSS_CONFIG] {
        assert patterns[|patterns| - 1] == neg;
      }
    }
  }

  /** The `rename` callback: dotted names for files that must not ship dotted, and the readme placeholder. */
  function Rename(name: string): (r: string)
    ensures name == "gitignore" || name == ESLINT_CONFIG ==> r == "." + name
    ensures name == "README-template.md" ==> r == "README.md"
    ensures r != name <==> name in {"gitignore", ESLINT_CONFIG, "README-template.md"}
  {
    match name
    case "gitignore" => "." + name
    case "eslintrc.json" => "." + name
    case "README-template.md" => "README.md"
    case _ => name
  }

  /** Two different names end up with the same name only through one of the three renamings. */
  lemma RenameCollision(a: string, b: string)
    requires a != b && Rename(a) == Rename(b)
    ensures {a, b} == {"gitignore", ".gitignore"}
         || {a, b} == {ESLINT_CONFIG, "." + ESLINT_CONFIG}
         || {a, b} == {"README-template.md", "README.md"}
  {
    var renamed := {"gitignore", ESLINT_CONFIG, "README-template.md"};
    assert Rename("gitignore") == ".gitignore";
    assert Rename(ESLINT_CONFIG) == "." + ESLINT_CONFIG;
    assert Rename("README-template.md") == "README.md";
    assert ".gitignore" != "." + ESLINT_CONFIG by { assert ".gitignore"[1] != ("." + ESLINT_CONFIG)[1]; }
    assert ".gitignore" != "README.md" && "." + ESLINT_CONFIG != "README.md";
    if a in renamed && b in renamed {
      assert false;
    } else if a in renamed {
      assert b == Rename(a);
    } else if b in renamed {
      assert a == Rename(b);
    } else {
      assert false;
    }
  }

  /**
   * The destination of a template entry: every file, whether its content is
   * text or a JSON document, gets its last segment renamed; directories keep
   * their path.
   */
  function RenamedPath(p: Path, n: Node): Path {
    if !n.Dir? && |p| > 0 then p[..|p| - 1] + [Rename(p[|p| - 1])] else p
  }

  /** No two copied entries land on the same destination (a template store invariant). */
  ghost predicate CollisionFree(template: Tree, patterns: seq<string>) {
    forall p, q ::
      p in template && q in template && !Excluded(patterns, p) && !Excluded(patterns, q)
      && RenamedPath(p, template[p]) == RenamedPath(q, template[q])
      ==> p == q
  }

  /** The entries the copy writes: every entry the patterns keep, at its renamed path. */
  function Copied(template: Tree, patterns: seq<string>): (r: Tree)
    requires CollisionFree(template, patterns)
    ensures forall p :: p in template && !Excluded(patterns, p) ==>
      RenamedPath(p, template[p]) in r && r[RenamedPath(p, template[p])] == template[p]
    ensures forall q :: q in r ==>
      exists p :: p in template && !Excluded(patterns, p) && q == RenamedPath(p, template[p])
  {
    map p | p in template && !Excluded(patterns, p) :: RenamedPath(p, template[p]) := template[p]
  }
}
