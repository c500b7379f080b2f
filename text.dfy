/** Facts about strings used to state what the built command lines contain. */
module Text {

  /** `t` occurs in `s` at position `i`. */
  predicate OccursAt(s: string, t: string, i: int)
  {
    0 <= i && i + |t| <= |s| && s[i..i + |t|] == t
  }

  /** `t` is a substring of `s`. */
  predicate Contains(s: string, t: string)
  {
    exists i :: 0 <= i <= |s| - |t| && OccursAt(s, t, i)
  }

  /** A string ends with `t`. */
  predicate EndsWith(s: string, t: string)
  {
    |t| <= |s| && s[|s| - |t|..] == t
  }

  /** If `t` occurs in `s`, every character of `t` occurs in `s`, at the
      matching offset. */
  lemma OccurrenceChar(s: string, t: string, i: int, k: int)
    requires OccursAt(s, t, i) && 0 <= k < |t|
    ensures s[i + k] == t[k]
  {
    assert s[i..i + |t|][k] == t[k];
  }

  /** The longest prefix of `s` without a space. */
  function FirstWord(s: string): (w: string)
    ensures |w| <= |s| && w == s[..|w|]
    ensures ' ' !in w
    ensures |w| < |s| ==> s[|w|] == ' '
  {
    if s == [] || s[0] == ' ' then [] else [s[0]] + FirstWord(s[1..])
  }

  /** The non-empty space-separated words of `s`, as a shell splits a
      string without quotes or other whitespace into an argument vector. */
  function Words(s: string): seq<string>
    decreases |s|
  {
    if s == [] then []
    else if s[0] == ' ' then Words(s[1..])
    else
      var w := FirstWord(s);
      [w] + Words(s[|w|..])
  }

  lemma {:induction false} FirstWordOf(w: string, rest: string)
    requires ' ' !in w
    ensures FirstWord(w + " " + rest) == w
  {
    if w != [] {
      assert (w + " " + rest)[1..] == w[1..] + " " + rest;
      FirstWordOf(w[1..], rest);
    }
  }

  /** A word followed by a space is split off whole. */
  lemma WordsCons(w: string, rest: string)
    requires w != [] && ' ' !in w
    ensures Words(w + " " + rest) == [w] + Words(rest)
  {
    var s := w + " " + rest;
    FirstWordOf(w, rest);
    assert s[|w|..] == " " + rest;
    assert (" " + rest)[1..] == rest;
  }

  /** A leading space separates nothing. */
  lemma WordsSpace(rest: string)
    ensures Words(" " + rest) == Words(rest)
  {
    assert (" " + rest)[1..] == rest;
  }

  /** An occurrence of `t` that starts with a character absent from `a`
      lies wholly inside `b`. */
  lemma OccursInSuffix(a: string, b: string, t: string, i: int)
    requires OccursAt(a + b, t, i) && |t| > 0 && t[0] !in a
    ensures OccursAt(b, t, i - |a|)
  {
    OccurrenceChar(a + b, t, i, 0);
    assert (a + b)[i..i + |t|] == b[i - |a|..i - |a| + |t|];
  }

  /** A string that lacks some character of `t` does not contain `t`. */
  lemma MissingChar(s: string, t: string, k: int)
    requires 0 <= k < |t| && t[k] !in s
    ensures !Contains(s, t)
  {
    if Contains(s, t) {
      var i :| 0 <= i <= |s| - |t| && OccursAt(s, t, i);
      OccurrenceChar(s, t, i, k);
    }
  }

  /** Concatenation regroups freely. */
  lemma ConcatAssoc(a: string, b: string, c: string)
    ensures (a + b) + c == a + (b + c)
  {
  }

  /** A string contains `t` when `t` starts a suffix of it. */
  lemma ContainsPrefixOf(s: string, t: string, i: int)
    requires 0 <= i <= |s| && |t| <= |s| - i && s[i..][..|t|] == t
    ensures Contains(s, t)
  {
    assert s[i..i + |t|] == s[i..][..|t|];
    assert OccursAt(s, t, i);
  }

  /** A possibly empty word followed by a space: an empty one vanishes. */
  lemma WordsOptional(w: string, rest: string)
    requires ' ' !in w
    ensures Words(w + " " + rest) == (if w == [] then [] else [w]) + Words(rest)
  {
    if w == [] {
      assert w + " " + rest == " " + rest;
      WordsSpace(rest);
    } else {
      WordsCons(w, rest);
    }
  }

  lemma EmptyRight(s: string)
    ensures s + "" == s
  {
  }
}
