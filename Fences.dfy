/**
 * Removal of Markdown code fences from model replies (main.py:44, 58, 71).
 *
 * The source strips fences with chained `str.replace(pat, "")` calls.
 * `Remove` models Python's `str.replace` with an empty replacement exactly:
 * the text is scanned from left to right, every non-overlapping occurrence
 * of the pattern is dropped, and all other characters are kept in order.
 */
module Fences {

  /** The closing fence, three backticks. */
  const Ticks: string := "```"
  /** The opening fence as `write_output` removes it (main.py:44). */
  const CppFence: string := "```cpp"
  /** The opening fence as the two streams remove it, newline included (main.py:58, 71). */
  const CppFenceLine: string := "```cpp\n"

  /** `s.replace(pat, "")`. An empty pattern leaves `s` as it is, as in Python. */
  function Remove(s: string, pat: string): (r: string)
    ensures |r| <= |s|
    decreases |s|
  {
    if s == [] then []
    else if pat != [] && pat <= s then Remove(s[|pat|..], pat)
    else [s[0]] + Remove(s[1..], pat)
  }

  /** `pat in s`: the pattern occurs somewhere in the text. */
  predicate Occurs(pat: string, s: string)
    decreases |s|
  {
    pat <= s || (s != [] && Occurs(pat, s[1..]))
  }

  /** `r` is `s` with some characters deleted and the others kept in order. */
  predicate IsSubsequence(r: string, s: string)
    decreases |s|
  {
    r == [] || (s != [] && ((r[0] == s[0] && IsSubsequence(r[1..], s[1..])) || IsSubsequence(r, s[1..])))
  }

  /** The strip applied by `write_output` before the file is written (main.py:44). */
  function StripWrite(s: string): string
  {
    Remove(Remove(s, CppFence), Ticks)
  }

  /** The strip applied to every streamed snapshot (main.py:58, 71). */
  function StripStream(s: string): string
  {
    Remove(Remove(s, CppFenceLine), Ticks)
  }

  // ---------------------------------------------------------------------
  // Occurrence
  // ---------------------------------------------------------------------

  /** The recursive `Occurs` agrees with "some suffix starts with the pattern". */
  lemma {:induction false} OccursIffSomeSuffix(pat: string, s: string)
    ensures Occurs(pat, s) <==> exists i :: 0 <= i <= |s| && pat <= s[i..]
    decreases |s|
  {
    if pat <= s {
      assert pat <= s[0..];
    } else if s == [] {
    } else {
      OccursIffSomeSuffix(pat, s[1..]);
      if exists i :: 0 <= i <= |s| && pat <= s[i..] {
        var i :| 0 <= i <= |s| && pat <= s[i..];
        assert i != 0;
        assert s[1..][i - 1..] == s[i..];
      }
      if exists i :: 0 <= i <= |s[1..]| && pat <= s[1..][i..] {
        var i :| 0 <= i <= |s[1..]| && pat <= s[1..][i..];
        assert s[1..][i..] == s[i + 1..];
      }
    }
  }

  /** Text that lacks a pattern also lacks every longer pattern that starts with it. */
  lemma {:induction false} AbsentPrefixOfPattern(p: string, q: string, s: string)
    requires !Occurs(p, s)
    ensures !Occurs(p + q, s)
    decreases |s|
  {
    if s != [] {
      AbsentPrefixOfPattern(p, q, s[1..]);
    }
  }

  /** A character that does not start the fence cannot start a fence occurrence. */
  lemma NotOccursCons(c: char, t: string)
    requires c != '`' && !Occurs(Ticks, t)
    ensures !Occurs(Ticks, [c] + t)
  {
    assert ([c] + t)[1..] == t;
    assert !(Ticks <= [c] + t) by { assert ([c] + t)[0] == c; }
  }

  // ---------------------------------------------------------------------
  // Remove only deletes
  // ---------------------------------------------------------------------

  /** A subsequence of a suffix is a subsequence of the whole. */
  lemma {:induction false} SubsequenceOfSuffix(r: string, s: string, k: nat)
    requires k <= |s| && IsSubsequence(r, s[k..])
    ensures IsSubsequence(r, s)
    decreases k
  {
    if k > 0 {
      assert s[1..][k - 1..] == s[k..];
      SubsequenceOfSuffix(r, s[1..], k - 1);
    } else {
      assert s[k..] == s;
    }
  }

  /** Deleting characters twice is deleting characters once. */
  lemma {:induction false} SubsequenceTransitive(a: string, b: string, c: string)
    requires IsSubsequence(a, b) && IsSubsequence(b, c)
    ensures IsSubsequence(a, c)
    decreases |c|
  {
    if a == [] {
    } else if b[0] == c[0] && IsSubsequence(b[1..], c[1..]) {
      if a[0] == b[0] && IsSubsequence(a[1..], b[1..]) {
        SubsequenceTransitive(a[1..], b[1..], c[1..]);
      } else {
        SubsequenceTransitive(a, b[1..], c[1..]);
      }
    } else {
      SubsequenceTransitive(a, b, c[1..]);
    }
  }

  /** `str.replace(pat, "")` keeps the surviving characters in their original order. */
  lemma {:induction false} RemoveIsSubsequence(s: string, pat: string)
    ensures IsSubsequence(Remove(s, pat), s)
    decreases |s|
  {
    if s == [] {
    } else if pat != [] && pat <= s {
      RemoveIsSubsequence(s[|pat|..], pat);
      SubsequenceOfSuffix(Remove(s, pat), s, |pat|);
    } else {
      RemoveIsSubsequence(s[1..], pat);
      var r := Remove(s, pat);
      assert r[0] == s[0] && r[1..] == Remove(s[1..], pat);
    }
  }

  /** Text without the pattern comes back unchanged. */
  lemma {:induction false} RemoveAbsent(s: string, pat: string)
    requires !Occurs(pat, s)
    ensures Remove(s, pat) == s
    decreases |s|
  {
    if s != [] {
      RemoveAbsent(s[1..], pat);
    }
  }

  /** Text holding a non-empty pattern always gets strictly shorter. */
  lemma {:induction false} RemovePresentShrinks(s: string, pat: string)
    requires pat != [] && Occurs(pat, s)
    ensures |Remove(s, pat)| < |s|
    decreases |s|
  {
    if !(pat <= s) {
      RemovePresentShrinks(s[1..], pat);
    }
  }

  /** `s.replace(pat, "") == s` exactly when `pat not in s`. */
  lemma {:induction false} RemoveUnchangedIff(s: string, pat: string)
    requires pat != []
    ensures Remove(s, pat) == s <==> !Occurs(pat, s)
  {
    if Occurs(pat, s) {
      RemovePresentShrinks(s, pat);
    } else {
      RemoveAbsent(s, pat);
    }
  }

  // ---------------------------------------------------------------------
  // No fence survives the final "```" pass
  // ---------------------------------------------------------------------

  /**
   * After `replace("```", "")` no three backticks are left: a run of
   * backticks is scanned from its start and loses whole triples, leaving
   * fewer than three, and runs are never merged because the characters
   * between them are kept.
   */
  lemma {:induction false} RemoveTicksLeavesNoTicks(s: string)
    ensures !Occurs(Ticks, Remove(s, Ticks))
    decreases |s|
  {
    if s == [] {
    } else if Ticks <= s {
      RemoveTicksLeavesNoTicks(s[3..]);
    } else if s[0] != '`' {
      RemoveTicksLeavesNoTicks(s[1..]);
      NotOccursCons(s[0], Remove(s[1..], Ticks));
    } else if |s| == 1 {
      assert Remove(s, Ticks) == s;
    } else if s[1] != '`' {
      // s = "`" c ...
      RemoveTicksLeavesNoTicks(s[2..]);
      var t := Remove(s[2..], Ticks);
      assert !(Ticks <= s[1..]);
      assert Remove(s[1..], Ticks) == [s[1]] + t;
      NotOccursCons(s[1], t);
      var r := Remove(s, Ticks);
      assert r == [s[0]] + ([s[1]] + t);
      assert !(Ticks <= r);
      assert r[1..] == [s[1]] + t;
    } else if |s| == 2 {
      assert Remove(s, Ticks) == s;
      assert !Occurs(Ticks, s[1..]);
    } else {
      // s = "``" c ... with c not a backtick
      assert s[2] != '`';
      RemoveTicksLeavesNoTicks(s[3..]);
      var t := Remove(s[3..], Ticks);
      assert !(Ticks <= s[2..]);
      assert Remove(s[2..], Ticks) == [s[2]] + t;
      NotOccursCons(s[2], t);
      var u := [s[2]] + t;
      assert !(Ticks <= s[1..]);
      assert Remove(s[1..], Ticks) == [s[1]] + u;
      var v := [s[1]] + u;
      assert !(Ticks <= v);
      assert v[1..] == u;
      var r := Remove(s, Ticks);
      assert r == [s[0]] + v;
      assert !(Ticks <= r);
      assert r[1..] == v;
    }
  }

  /** No occurrence of the longer opening fence where there are no backtick triples. */
  lemma {:induction false} NoFenceWithoutTicks(s: string)
    requires !Occurs(Ticks, s)
    ensures !Occurs(CppFence, s) && !Occurs(CppFenceLine, s)
  {
    assert CppFence == Ticks + "cpp";
    AbsentPrefixOfPattern(Ticks, "cpp", s);
    assert CppFenceLine == Ticks + "cpp\n";
    AbsentPrefixOfPattern(Ticks, "cpp\n", s);
  }

  // ---------------------------------------------------------------------
  // The two strips
  // ---------------------------------------------------------------------

  /** `write_output`'s strip leaves no fence, and a second application changes nothing. */
  lemma StripWriteCleanAndIdempotent(s: string)
    ensures !Occurs(Ticks, StripWrite(s))
    ensures StripWrite(StripWrite(s)) == StripWrite(s)
  {
    var y := StripWrite(s);
    RemoveTicksLeavesNoTicks(Remove(s, CppFence));
    NoFenceWithoutTicks(y);
    RemoveAbsent(y, CppFence);
    RemoveAbsent(y, Ticks);
  }

  /** The streams' strip leaves no fence, and a second application changes nothing. */
  lemma StripStreamCleanAndIdempotent(s: string)
    ensures !Occurs(Ticks, StripStream(s))
    ensures StripStream(StripStream(s)) == StripStream(s)
  {
    var y := StripStream(s);
    RemoveTicksLeavesNoTicks(Remove(s, CppFenceLine));
    NoFenceWithoutTicks(y);
    RemoveAbsent(y, CppFenceLine);
    RemoveAbsent(y, Ticks);
  }

  /** The defensive strip in `write_output` is a no-op on an already streamed and stripped reply. */
  lemma StripWriteAfterStripStream(s: string)
    ensures StripWrite(StripStream(s)) == StripStream(s)
  {
    var y := StripStream(s);
    StripStreamCleanAndIdempotent(s);
    NoFenceWithoutTicks(y);
    RemoveAbsent(y, CppFence);
    RemoveAbsent(y, Ticks);
  }

  /** Both strips only delete characters: the rest of the input survives in order. */
  lemma StripsOnlyDelete(s: string)
    ensures IsSubsequence(StripWrite(s), s) && |StripWrite(s)| <= |s|
    ensures IsSubsequence(StripStream(s), s) && |StripStream(s)| <= |s|
  {
    RemoveIsSubsequence(s, CppFence);
    RemoveIsSubsequence(Remove(s, CppFence), Ticks);
    SubsequenceTransitive(StripWrite(s), Remove(s, CppFence), s);
    RemoveIsSubsequence(s, CppFenceLine);
    RemoveIsSubsequence(Remove(s, CppFenceLine), Ticks);
    SubsequenceTransitive(StripStream(s), Remove(s, CppFenceLine), s);
  }

  /** Each strip returns its input unchanged exactly when the input holds no "```". */
  lemma StripsUnchangedIff(s: string)
    ensures StripWrite(s) == s <==> !Occurs(Ticks, s)
    ensures StripStream(s) == s <==> !Occurs(Ticks, s)
  {
    if !Occurs(Ticks, s) {
      NoFenceWithoutTicks(s);
      RemoveAbsent(s, CppFence);
      RemoveAbsent(s, CppFenceLine);
      RemoveAbsent(s, Ticks);
    } else {
      StripWriteCleanAndIdempotent(s);
      StripStreamCleanAndIdempotent(s);
    }
  }

  /** Text without a single backtick holds no fence. */
  lemma {:induction false} NoBacktickNoTicks(t: string)
    requires forall i :: 0 <= i < |t| ==> t[i] != '`'
    ensures !Occurs(Ticks, t)
    decreases |t|
  {
    if t != [] {
      NoBacktickNoTicks(t[1..]);
      assert t == [t[0]] + t[1..];
      NotOccursCons(t[0], t[1..]);
    }
  }

  /**
   * The two strips differ: an opening fence that is not followed by a
   * newline loses only its backticks in a stream, so the language tag
   * stays in the reply, while `write_output` removes the whole tag.
   */
  lemma StreamStripKeepsBareTag(x: string)
    requires forall i :: 0 <= i < |x| ==> x[i] != '`'
    requires x == [] || x[0] != '\n'
    ensures StripStream(CppFence + x) == "cpp" + x
    ensures StripWrite(CppFence + x) == x
  {
    var s := CppFence + x;
    var tag := "cpp" + x;
    NoBacktickNoTicks(x);
    NoBacktickNoTicks(tag);
    NoFenceWithoutTicks(x);
    // No newline-terminated fence anywhere in s
    assert !(CppFenceLine <= s) by {
      if |s| >= |CppFenceLine| { assert s[6] == x[0]; }
    }
    assert s[1..] == "``" + tag;
    assert s[2..] == "`" + tag;
    assert s[3..] == tag;
    assert !Occurs(Ticks, s[2..]) by {
      assert !(Ticks <= s[2..]) by { assert s[2..][1] == 'c'; }
      assert s[2..][1..] == tag;
    }
    assert !Occurs(Ticks, s[1..]) by {
      assert !(Ticks <= s[1..]) by { assert s[1..][2] == 'c'; }
      assert s[1..][1..] == s[2..];
    }
    NoFenceWithoutTicks(s[1..]);
    assert !Occurs(CppFenceLine, s);
    RemoveAbsent(s, CppFenceLine);
    assert Ticks <= s;
    RemoveAbsent(tag, Ticks);
    // write_output: the whole opening fence goes, then nothing is left to strip
    assert CppFence <= s && s[|CppFence|..] == x;
    RemoveAbsent(x, CppFence);
    RemoveAbsent(x, Ticks);
  }
}
