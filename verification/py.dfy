/** The few pieces of Python's run-time behaviour the webhook handler depends on:
    exceptions (a `Raised` result carrying the text `str(e)` would give), the
    leftmost non-overlapping `str.replace`, and slicing with a negative start.
 */
module Py {

  datatype Option<+T> = None | Some(value: T)

  /** The value of a Python expression that may raise: either its value, or the
      exception it raised, represented by its message `str(e)`. */
  datatype Result<+T> = Ok(value: T) | Raised(message: string)

  function Min(a: int, b: int): int { if a <= b then a else b }

  function Max(a: int, b: int): int { if a <= b then b else a }

  /** `pat` occurs in `s` starting at index `i`. */
  predicate OccursAt(s: string, pat: string, i: int) {
    0 <= i && i + |pat| <= |s| && s[i..i + |pat|] == pat
  }

  /** Python's `pat in s`. */
  predicate Contains(s: string, pat: string) {
    exists i :: 0 <= i <= |s| && OccursAt(s, pat, i)
  }

  /** Python's `s.replace(pat, rep)` for a non-empty `pat`: one left-to-right pass
      that replaces every non-overlapping occurrence, leftmost first, and never
      rescans the text it has produced. */
  function Replace(s: string, pat: string, rep: string): (r: string)
    requires pat != []
    ensures |rep| <= |pat| ==> |r| <= |s|
    ensures |pat| <= |rep| ==> |s| <= |r|
    decreases |s|
  {
    if |s| < |pat| then s
    else if s[..|pat|] == pat then rep + Replace(s[|pat|..], pat, rep)
    else [s[0]] + Replace(s[1..], pat, rep)
  }

  /** One step of the pass over text that starts with the pattern. */
  lemma ReplaceAtMatch(t: string, pat: string, rep: string)
    requires pat != []
    ensures Replace(pat + t, pat, rep) == rep + Replace(t, pat, rep)
  {
    assert (pat + t)[..|pat|] == pat;
    assert (pat + t)[|pat|..] == t;
  }

  /** One step of the pass over text that differs from the pattern at index `k`. */
  lemma ReplaceAfterMiss(s: string, pat: string, rep: string, k: nat)
    requires k < |pat| && k < |s| && s[k] != pat[k]
    ensures Replace(s, pat, rep) == [s[0]] + Replace(s[1..], pat, rep)
  {
    if |pat| <= |s| {
      assert s[..|pat|][k] != pat[k];
    }
  }

  /** An occurrence in `s[1..]` is an occurrence in `s`, one place later. */
  lemma ContainsTail(s: string, pat: string)
    requires s != [] && Contains(s[1..], pat)
    ensures Contains(s, pat)
  {
    var i :| 0 <= i <= |s[1..]| && OccursAt(s[1..], pat, i);
    assert s[i + 1..i + 1 + |pat|] == s[1..][i..i + |pat|];
    assert OccursAt(s, pat, i + 1);
  }

  /** The leftmost occurrence is replaced and the pass goes on after it: when no
      occurrence starts inside `x` (none in `x` nor straddling into the
      pattern that follows it), `x` is kept, the occurrence becomes `rep`, and
      the rest is replaced in turn. With `ReplaceWithoutMatch` this fixes the
      result on every text. */
  lemma {:induction false} ReplaceLeftmost(x: string, y: string, pat: string, rep: string)
    requires pat != [] && !Contains(x + pat[..|pat| - 1], pat)
    ensures Replace(x + pat + y, pat, rep) == x + rep + Replace(y, pat, rep)
    decreases |x|
  {
    if x == [] {
      assert x + pat + y == pat + y;
      ReplaceAtMatch(y, pat, rep);
    } else {
      LeftmostStep(x, y, pat, rep);
      ReplaceLeftmost(x[1..], y, pat, rep);
      assert x == [x[0]] + x[1..];
    }
  }

  /** The pass keeps the first character of `x` when no occurrence starts in `x`,
      and no occurrence starts in the rest of `x` either. */
  lemma LeftmostStep(x: string, y: string, pat: string, rep: string)
    requires pat != [] && x != [] && !Contains(x + pat[..|pat| - 1], pat)
    ensures Replace(x + pat + y, pat, rep) == [x[0]] + Replace(x[1..] + pat + y, pat, rep)
    ensures !Contains(x[1..] + pat[..|pat| - 1], pat)
  {
    var s := x + pat + y;
    var w := x + pat[..|pat| - 1];
    assert s[..|pat|] == w[..|pat|];
    if s[..|pat|] == pat {
      assert OccursAt(w, pat, 0);
      assert false;
    }
    assert s[1..] == x[1..] + pat + y;
    assert w[1..] == x[1..] + pat[..|pat| - 1];
    if Contains(w[1..], pat) {
      ContainsTail(w, pat);
      assert false;
    }
  }

  /** Text without any occurrence of the pattern is returned unchanged. */
  lemma {:induction false} ReplaceWithoutMatch(s: string, pat: string, rep: string)
    requires pat != [] && !Contains(s, pat)
    ensures Replace(s, pat, rep) == s
    decreases |s|
  {
    if |s| < |pat| {
    } else if s[..|pat|] == pat {
      assert OccursAt(s, pat, 0);
      assert false;
    } else {
      if Contains(s[1..], pat) {
        ContainsTail(s, pat);
        assert false;
      }
      ReplaceWithoutMatch(s[1..], pat, rep);
      assert s == [s[0]] + s[1..];
    }
  }

  /** Replacing a pattern by itself gives the text back: the pass splits the text
      into untouched characters and whole occurrences, and loses nothing. */
  lemma {:induction false} ReplaceBySelf(s: string, pat: string)
    requires pat != []
    ensures Replace(s, pat, pat) == s
    decreases |s|
  {
    if |s| < |pat| {
    } else if s[..|pat|] == pat {
      ReplaceBySelf(s[|pat|..], pat);
      assert s == s[..|pat|] + s[|pat|..];
    } else {
      ReplaceBySelf(s[1..], pat);
      assert s == [s[0]] + s[1..];
    }
  }

  /** Python's `s[start:]`, negative `start` counting from the end and out-of-range
      starts clamped to the ends of `s`. */
  function SliceFrom(s: string, start: int): (r: string)
    ensures |r| <= |s| && r == s[|s| - |r|..]
    ensures start < 0 ==> |r| == Min(-start, |s|)
    ensures 0 <= start ==> |r| == Max(|s| - start, 0)
  {
    var k := if start < 0 then Max(|s| + start, 0) else Min(start, |s|);
    s[k..]
  }
}
