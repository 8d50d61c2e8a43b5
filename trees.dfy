/**
 * The project directory as an in-memory tree: every entry is addressed by its
 * path relative to the project root, given as a sequence of segments.
 */
module Trees {

  type Path = seq<string>

  /** A parsed JSON value; how it is laid out as text is not modelled. */
  datatype Json =
    | JNull
    | JBool(b: bool)
    | JNum(n: int)
    | JStr(str: string)
    | JArr(items: seq<Json>)
    | JObj(fields: map<string, Json>)

  /**
   * A directory entry: a text file, a file holding a JSON document (written
   * either verbatim from a template or through `JSON.stringify`), or a directory.
   */
  datatype Node = File(content: string) | Doc(json: Json) | Dir

  type Tree = map<Path, Node>

  /** The text `appendFile` starts from: the file's content, or nothing when there is no such file. */
  function ContentOr(t: Tree, p: Path): string {
    if p in t && t[p].File? then t[p].content else ""
  }

  /** The non-empty prefixes of a path, the path itself included. */
  function Prefixes(p: Path): set<Path> {
    set k | 1 <= k <= |p| :: p[..k]
  }

  /**
   * A recursive `mkdir`: the path and each of its ancestors become directories
   * where nothing exists yet; entries that exist are left as they are.
   */
  function MakeDirs(t: Tree, p: Path): (r: Tree)
    ensures r.Keys == t.Keys + Prefixes(p)
    ensures forall q :: q in t ==> r[q] == t[q]
    ensures forall q :: q in r && q !in t ==> r[q] == Dir
  {
    t + map q | q in Prefixes(p) && q !in t :: Dir
  }

  /** `appendFile`: the old text (or nothing) followed by `s`. */
  function Append(t: Tree, p: Path, s: string): Tree {
    t[p := File(ContentOr(t, p) + s)]
  }

  /** Every path `MakeDirs` adds has the length of some prefix of `p`. */
  lemma MakeDirsNew(t: Tree, p: Path, q: Path)
    requires q in MakeDirs(t, p) && q !in t
    ensures 1 <= |q| <= |p| && q == p[..|q|]
  {
    var k :| 1 <= k <= |p| && q == p[..k];
  }
}
