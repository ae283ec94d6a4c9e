/** The few Python string operations the relay relies on, with Python's
    semantics: `str.strip()` with no argument, the substring test `p in s`,
    `s.replace(p, "")` and the clamped slice `s[lo:hi]` with non-negative
    bounds. */
module PyText {

  /** The characters Python's `str.isspace` accepts, which are exactly the
      ones `str.strip()` removes when given no argument. */
  predicate IsSpace(c: char)
  {
    var n := c as int;
    (0x09 <= n <= 0x0D) || (0x1C <= n <= 0x20) || n == 0x85 || n == 0xA0 || n == 0x1680
    || (0x2000 <= n <= 0x200A) || n == 0x2028 || n == 0x2029 || n == 0x202F || n == 0x205F
    || n == 0x3000
  }

  predicate AllSpace(s: string)
  {
    forall k :: 0 <= k < |s| ==> IsSpace(s[k])
  }

  /** A string with no whitespace at either end: what `strip()` produces. */
  predicate IsStripped(s: string)
  {
    s == [] || (!IsSpace(s[0]) && !IsSpace(s[|s| - 1]))
  }

  /** `s.lstrip()`: the suffix left after dropping leading whitespace. */
  function StripStart(s: string): (r: string)
    ensures |r| <= |s| && r == s[|s| - |r|..]
    ensures AllSpace(s[..|s| - |r|])
    ensures r == [] || !IsSpace(r[0])
  {
    if |s| > 0 && IsSpace(s[0]) then
      var r := StripStart(s[1..]);
      assert s[..|s| - |r|] == [s[0]] + s[1..][..|s| - 1 - |r|];
      r
    else s
  }

  /** `s.rstrip()`: the prefix left after dropping trailing whitespace. */
  function StripEnd(s: string): (r: string)
    ensures |r| <= |s| && r == s[..|r|]
    ensures AllSpace(s[|r|..])
    ensures r == [] || !IsSpace(r[|r| - 1])
  {
    if |s| > 0 && IsSpace(s[|s| - 1]) then
      var r := StripEnd(s[..|s| - 1]);
      assert s[..|s| - 1][..|r|] == s[..|r|];
      assert s[|r|..] == s[..|s| - 1][|r|..] + [s[|s| - 1]];
      r
    else s
  }

  /** `s.strip()`: a contiguous piece of `s` with no whitespace at either end,
      obtained by dropping only whitespace (see StripDropsOnlySpace). */
  function Strip(s: string): (r: string)
    ensures IsStripped(r)
    ensures |r| <= |s|
  {
    var t := StripStart(s);
    var r := StripEnd(t);
    assert r != [] ==> r[0] == t[0];
    r
  }

  /** What `strip()` drops is whitespace, at the two ends only: `s` is some
      whitespace, then `Strip(s)`, then some whitespace. */
  lemma StripDropsOnlySpace(s: string) returns (i: nat, j: nat)
    ensures i <= j <= |s|
    ensures Strip(s) == s[i..j]
    ensures AllSpace(s[..i]) && AllSpace(s[j..])
  {
    var t := StripStart(s);
    var r := StripEnd(t);
    i := |s| - |t|;
    j := i + |r|;
    assert Strip(s) == s[i..j] by {
      assert t == s[i..] && r == t[..|r|];
    }
    assert AllSpace(s[j..]) by {
      assert t == s[i..] && s[j..] == t[|r|..];
    }
  }

  /** A stripped string is a fixed point of `strip()`; in particular
      `strip()` is idempotent. */
  lemma StripFixesStripped(s: string)
    requires IsStripped(s)
    ensures Strip(s) == s
  {
  }

  lemma StripIdempotent(s: string)
    ensures Strip(Strip(s)) == Strip(s)
  {
    StripFixesStripped(Strip(s));
  }

  /** `p` occurs in `s` starting at index `i`. */
  predicate OccursAt(s: string, p: string, i: int)
  {
    0 <= i && i + |p| <= |s| && s[i..i + |p|] == p
  }

  /** Python's `p in s`. */
  predicate Contains(s: string, p: string)
    ensures Contains(s, p) ==> |p| <= |s|
  {
    exists i | 0 <= i <= |s| - |p| :: OccursAt(s, p, i)
  }

  /** A string without the first character of `p` does not contain `p`. */
  lemma FirstCharAbsent(s: string, p: string)
    requires p != [] && p[0] !in s
    ensures !Contains(s, p)
  {
  }

  /** `s.replace(p, "")` for a non-empty `p`: a left-to-right scan that
      deletes each occurrence it meets and resumes after it, so occurrences
      do not overlap. */
  function RemoveAll(s: string, p: string): (r: string)
    requires p != []
    ensures |r| <= |s|
    decreases |s|
  {
    if |s| < |p| then s
    else if s[..|p|] == p then RemoveAll(s[|p|..], p)
    else [s[0]] + RemoveAll(s[1..], p)
  }

  /** Without an occurrence, `replace` leaves the string as it is. */
  lemma {:induction false} RemoveAllAbsent(s: string, p: string)
    requires p != [] && !Contains(s, p)
    ensures RemoveAll(s, p) == s
    decreases |s|
  {
    if |s| >= |p| {
      assert !OccursAt(s, p, 0);
      assert s[..|p|] != p;
      forall i | OccursAt(s[1..], p, i) ensures false {
        assert s[1..][i..i + |p|] == s[i + 1..i + 1 + |p|];
        assert OccursAt(s, p, i + 1);
      }
      RemoveAllAbsent(s[1..], p);
    }
  }

  /** With an occurrence, `replace` deletes at least one whole copy of `p`. */
  lemma {:induction false} RemoveAllShrinks(s: string, p: string)
    requires p != [] && Contains(s, p)
    ensures |RemoveAll(s, p)| <= |s| - |p|
    decreases |s|
  {
    var i: int :| 0 <= i <= |s| - |p| && OccursAt(s, p, i);
    if s[..|p|] != p {
      assert i != 0 by { assert s[..|p|] == s[0..0 + |p|]; }
      assert s[1..][i - 1..i - 1 + |p|] == s[i..i + |p|];
      assert OccursAt(s[1..], p, i - 1);
      RemoveAllShrinks(s[1..], p);
    }
  }

  /** Every occurrence is removed, not only the first: after a stretch `a`
      without `p`, an occurrence is deleted and the scan goes on with the
      rest. This needs `p` to begin with a character it does not repeat, as
      `@username` does. */
  lemma {:induction false} RemoveAllAfterClean(a: string, p: string, b: string)
    requires p != [] && p[0] !in p[1..] && !Contains(a, p)
    ensures RemoveAll(a + p + b, p) == a + RemoveAll(b, p)
    decreases |a|
  {
    var s := a + p + b;
    if a == [] {
      assert s[..|p|] == p;
      assert s[|p|..] == b;
    } else {
      NotAtStart(a, p, b);
      CleanTail(a, p);
      var tail := a[1..];
      calc {
        RemoveAll(s, p);
        [s[0]] + RemoveAll(s[1..], p);
        { assert s[1..] == tail + p + b; }
        [a[0]] + RemoveAll(tail + p + b, p);
        { RemoveAllAfterClean(tail, p, b); }
        [a[0]] + (tail + RemoveAll(b, p));
        { assert [a[0]] + tail == a; }
        a + RemoveAll(b, p);
      }
    }
  }

  /** With a non-empty stretch `a` without `p` in front, the occurrence of
      `p` after it does not begin at index 0. */
  lemma NotAtStart(a: string, p: string, b: string)
    requires a != [] && p != [] && p[0] !in p[1..] && !Contains(a, p)
    ensures |a + p + b| >= |p| && (a + p + b)[..|p|] != p
  {
    var s := a + p + b;
    if |a| >= |p| {
      assert s[..|p|] == a[0..0 + |p|];
      assert !OccursAt(a, p, 0);
    } else {
      assert s[..|p|][|a|] == p[0];
      assert p[|a|] == p[1..][|a| - 1];
    }
  }

  /** Dropping the first character of a string without `p` leaves one
      without `p`. */
  lemma CleanTail(a: string, p: string)
    requires a != [] && !Contains(a, p)
    ensures !Contains(a[1..], p)
  {
    forall i | OccursAt(a[1..], p, i) ensures false {
      assert a[1..][i..i + |p|] == a[i + 1..i + 1 + |p|];
      assert OccursAt(a, p, i + 1);
    }
  }

  /** Both directions: `s.replace(p, "") == s` exactly when `p not in s`. */
  lemma RemoveAllUnchangedIff(s: string, p: string)
    requires p != []
    ensures RemoveAll(s, p) == s <==> !Contains(s, p)
  {
    if Contains(s, p) {
      RemoveAllShrinks(s, p);
    } else {
      RemoveAllAbsent(s, p);
    }
  }

  /** One pass only: deleting the occurrences can bring a new one together,
      which stays in the result. */
  lemma RemoveAllIsSinglePass()
    ensures RemoveAll("@@botbot", "@bot") == "@bot"
    ensures Contains(RemoveAll("@@botbot", "@bot"), "@bot")
  {
    var s := "@@botbot";
    assert s[..4][1] != "@bot"[1];
    assert s[1..][..4] == "@bot";
    assert s[1..][4..] == "bot";
    assert RemoveAll("bot", "@bot") == "bot";
    assert OccursAt("@bot", "@bot", 0);
  }

  /** Python's slice `s[lo:hi]` for non-negative bounds: both are clamped to
      the length, and an empty string results when `lo` passes `hi`. */
  function Slice(s: string, lo: nat, hi: nat): (r: string)
    ensures lo <= hi <= |s| ==> r == s[lo..hi]
    ensures |s| <= lo ==> r == []
    ensures hi <= lo ==> r == []
    ensures lo <= |s| <= hi ==> r == s[lo..]
  {
    var a := if lo < |s| then lo else |s|;
    var b := if hi < |s| then hi else |s|;
    if a <= b then s[a..b] else []
  }
}
