/** The branch name `handle_push` derives from a push's `ref`:
    `ref.replace("refs/heads/", "")`, which removes every occurrence of the
    prefix and not only a leading one.
 */
module Branch {
  import opened Py

  const RefPrefix := "refs/heads/"

  /** The branch for a `ref`: every occurrence of "refs/heads/" removed in one pass. */
  function BranchName(ref: string): string {
    Replace(ref, RefPrefix, "")
  }

  /** The usual `ref` gives back the branch it names. */
  lemma {:induction false} BranchOfHeadsRef(b: string)
    requires !Contains(b, RefPrefix)
    ensures BranchName(RefPrefix + b) == b
  {
    var s := RefPrefix + b;
    assert s[..|RefPrefix|] == RefPrefix;
    assert s[|RefPrefix|..] == b;
    ReplaceWithoutMatch(b, RefPrefix, "");
  }

  /** Text free of 'r' cannot hold the start of an occurrence. */
  lemma {:induction false} BranchSkipsWord(w: string, rest: string)
    requires forall i :: 0 <= i < |w| ==> w[i] != 'r'
    ensures BranchName(w + rest) == w + BranchName(rest)
    decreases |w|
  {
    if w != [] {
      var s := w + rest;
      ReplaceAfterMiss(s, RefPrefix, "", 0);
      assert s[0] == w[0];
      assert s[1..] == w[1..] + rest;
      BranchSkipsWord(w[1..], rest);
      calc {
        BranchName(s);
        [w[0]] + BranchName(w[1..] + rest);
        [w[0]] + (w[1..] + BranchName(rest));
        { assert w == [w[0]] + w[1..]; }
        w + BranchName(rest);
      }
    } else {
      assert w + rest == rest;
    }
  }

  /** No occurrence starts inside "refs/h" when the text goes on other than with 'e'. */
  lemma BranchSkipsHalfPrefix(rest: string)
    requires rest != [] && rest[0] != 'e'
    ensures BranchName("refs/h" + rest) == "refs/h" + BranchName(rest)
  {
    var s := "refs/h" + rest;
    ReplaceAfterMiss(s, RefPrefix, "", 6);
    assert s[1..] == "efs/h" + rest;
    BranchSkipsWord("efs/h", rest);
  }

  /** A prefix occurrence followed by "eads/" and occurrence-free text. */
  lemma InnerOccurrence(t: string)
    requires !Contains(t, RefPrefix)
    ensures BranchName(RefPrefix + ("eads/" + t)) == "eads/" + t
  {
    ReplaceAtMatch("eads/" + t, RefPrefix, "");
    BranchSkipsWord("eads/", t);
    ReplaceWithoutMatch(t, RefPrefix, "");
  }

  /** A branch name can still contain "refs/heads/" after the pass, so deriving
      the branch again can change it: "refs/hrefs/heads/eads/x" gives
      "refs/heads/x", which gives "x". */
  lemma BranchNameNotIdempotent(t: string)
    requires !Contains(t, RefPrefix)
    ensures BranchName("refs/h" + (RefPrefix + ("eads/" + t))) == RefPrefix + t
    ensures BranchName(RefPrefix + t) == t
  {
    var inner := RefPrefix + ("eads/" + t);
    InnerOccurrence(t);
    BranchSkipsHalfPrefix(inner);
    assert "refs/h" + ("eads/" + t) == RefPrefix + t;
    BranchOfHeadsRef(t);
  }
}
