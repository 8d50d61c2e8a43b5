/**
 * String primitives with the semantics of the JavaScript calls the installer
 * makes: `String.prototype.replace` with a string pattern (first occurrence
 * only), `split('\n')` / `join('\n')`, and the global removal of `*`.
 */
module Text {
  import opened Wrappers

  /** `pat` occurs in `s` starting at index `i`. */
  predicate OccursAt(s: string, pat: string, i: nat) {
    i + |pat| <= |s| && s[i..i + |pat|] == pat
  }

  ghost predicate Contains(s: string, pat: string) {
    exists i: nat :: OccursAt(s, pat, i)
  }

  /** `i` is the index of the first occurrence of `pat` in `s`. */
  ghost predicate FirstOccurrence(s: string, pat: string, i: nat) {
    OccursAt(s, pat, i) && forall j: nat :: j < i ==> !OccursAt(s, pat, j)
  }

  /** `String.prototype.indexOf`, with `None` for -1. */
  function IndexOf(s: string, pat: string): (r: Option<nat>)
    ensures r.Some? ==> FirstOccurrence(s, pat, r.value)
    ensures r.None? <==> !Contains(s, pat)
    decreases |s|
  {
    if |pat| <= |s| && s[..|pat|] == pat then
      Some(0)
    else if |s| == 0 then
      None
    else
      OccursShift(s, pat);
      match IndexOf(s[1..], pat)
      case None =>
        None
      case Some(i) =>
        Some(i + 1)
  }

  /** Past the first character, the occurrences in `s` are those in `s[1..]`, shifted by one. */
  lemma OccursShift(s: string, pat: string)
    requires |s| > 0
    ensures forall j: nat :: j > 0 ==> (OccursAt(s, pat, j) <==> OccursAt(s[1..], pat, j - 1))
  {
    forall j: nat | j > 0
      ensures OccursAt(s, pat, j) <==> OccursAt(s[1..], pat, j - 1)
    {
      if j + |pat| <= |s| {
        var shifted, here := s[1..][j - 1..j - 1 + |pat|], s[j..j + |pat|];
        assert forall k :: 0 <= k < |shifted| ==> shifted[k] == here[k];
        assert shifted == here;
      }
    }
  }

  /**
   * `s.replace(pat, rep)` with a string pattern: only the first occurrence is
   * replaced, and a string without an occurrence is returned unchanged.
   */
  function ReplaceFirst(s: string, pat: string, rep: string): string {
    match IndexOf(s, pat)
    case None => s
    case Some(i) => s[..i] + rep + s[i + |pat|..]
  }

  /**
   * What `ReplaceFirst` means: a text without an occurrence is returned as it
   * is; otherwise the first occurrence, and only it, is replaced.
   */
  lemma ReplaceFirstSpec(s: string, pat: string, rep: string)
    ensures !Contains(s, pat) ==> ReplaceFirst(s, pat, rep) == s
    ensures forall i: nat :: FirstOccurrence(s, pat, i) ==> ReplaceFirst(s, pat, rep) == s[..i] + rep + s[i + |pat|..]
  {
    match IndexOf(s, pat)
    case None =>
    case Some(i) =>
      assert forall j: nat :: FirstOccurrence(s, pat, j) ==> j == i;
  }

  /** Replacing the first occurrence of a pattern by itself changes nothing. */
  lemma ReplaceFirstSelf(s: string, pat: string)
    ensures ReplaceFirst(s, pat, pat) == s
  {
    match IndexOf(s, pat)
    case None =>
    case Some(i) =>
      assert FirstOccurrence(s, pat, i);
      assert s[..i] + pat + s[i + |pat|..] == s[..i] + s[i..i + |pat|] + s[i + |pat|..];
      assert s[..i] + s[i..i + |pat|] + s[i + |pat|..] == s;
  }

  /**
   * When `pat` does not start anywhere inside `pre`, the first occurrence of
   * `pat` in `pre + pat + post` is the displayed one, and it is the one replaced.
   */
  lemma ReplaceFirstAt(pre: string, pat: string, post: string, rep: string)
    requires forall j: nat :: j < |pre| ==> !OccursAt(pre + pat + post, pat, j)
    ensures ReplaceFirst(pre + pat + post, pat, rep) == pre + rep + post
  {
    var s := pre + pat + post;
    assert s[|pre|..|pre| + |pat|] == pat;
    assert FirstOccurrence(s, pat, |pre|);
    ReplaceFirstSpec(s, pat, rep);
    assert s[..|pre|] == pre;
    assert s[|pre| + |pat|..] == post;
  }

  /** The global regular-expression replace of every star by the empty string: every `*` removed, every other character kept in order. */
  function StripStars(s: string): (r: string)
    ensures '*' !in r
    ensures multiset(r) == multiset(s)['*' := 0]
    decreases |s|
  {
    if |s| == 0 then ""
    else if s[0] == '*' then
      assert s == [s[0]] + s[1..];
      StripStars(s[1..])
    else
      assert s == [s[0]] + s[1..];
      [s[0]] + StripStars(s[1..])
  }

  /**
   * The removal works character by character, left to right: the stripped
   * concatenation is the concatenation of the stripped parts, so the kept
   * characters stay in their order.
   */
  lemma {:induction false} StripStarsAppend(a: string, b: string)
    ensures StripStars(a + b) == StripStars(a) + StripStars(b)
    decreases |a|
  {
    if |a| == 0 {
      assert a + b == b;
    } else {
      assert (a + b)[0] == a[0];
      assert (a + b)[1..] == a[1..] + b;
      StripStarsAppend(a[1..], b);
    }
  }

  /** A single character is dropped exactly when it is a star. */
  lemma StripStarsChar(c: char)
    ensures StripStars([c]) == (if c == '*' then "" else [c])
  {
  }

  lemma {:induction false} StripStarsNoStar(s: string)
    requires '*' !in s
    ensures StripStars(s) == s
    decreases |s|
  {
    if |s| > 0 {
      StripStarsNoStar(s[1..]);
    }
  }

  /** `s.split(sep)`: the pieces between separators; at least one piece. */
  function Split(s: string, sep: char): (r: seq<string>)
    ensures |r| >= 1
    ensures forall k :: 0 <= k < |r| ==> sep !in r[k]
    decreases |s|
  {
    if |s| == 0 then [""]
    else if s[0] == sep then [""] + Split(s[1..], sep)
    else
      var rest := Split(s[1..], sep);
      [[s[0]] + rest[0]] + rest[1..]
  }

  /** `parts.join(sep)`; the join of no parts is the empty string. */
  function Join(parts: seq<string>, sep: char): string
    decreases |parts|
  {
    if |parts| == 0 then ""
    else if |parts| == 1 then parts[0]
    else parts[0] + [sep] + Join(parts[1..], sep)
  }

  /** Splitting and joining on the same separator gives the text back. */
  lemma {:induction false} JoinSplit(s: string, sep: char)
    ensures Join(Split(s, sep), sep) == s
    decreases |s|
  {
    if |s| == 0 {
    } else if s[0] == sep {
      JoinSplit(s[1..], sep);
      assert s == [sep] + s[1..];
    } else {
      JoinSplit(s[1..], sep);
      var rest := Split(s[1..], sep);
      assert s == [s[0]] + s[1..];
      if |rest| == 1 {
      } else {
        assert Join(rest, sep) == rest[0] + [sep] + Join(rest[1..], sep);
      }
    }
  }

  /** A separator-free line followed by the separator is split off as the first piece. */
  lemma {:induction false} SplitLine(line: string, sep: char, rest: string)
    requires sep !in line
    ensures Split(line + [sep] + rest, sep) == [line] + Split(rest, sep)
    decreases |line|
  {
    if |line| == 0 {
      assert line + [sep] + rest == [sep] + rest;
    } else {
      SplitLine(line[1..], sep, rest);
      assert (line + [sep] + rest)[1..] == line[1..] + [sep] + rest;
      assert [line[0]] + line[1..] == line;
    }
  }
}
