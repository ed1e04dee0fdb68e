/** The JavaScript string operations the CRM relies on, over `seq<char>`:
    `split` on one separator character, `includes`, `toLowerCase` and `trim`
    (both restricted to ASCII), and a global `replace` of a literal pattern by
    the empty string. */
module Strings {

  /** `p` is a prefix of `s` (`s.startsWith(p)`). */
  predicate IsPrefix(p: string, s: string) {
    |p| <= |s| && s[..|p|] == p
  }

  /** `s.includes(t)`: `t` occurs in `s` at some position. */
  predicate Contains(s: string, t: string)
    decreases |s|
  {
    IsPrefix(t, s) || (|s| > 0 && Contains(s[1..], t))
  }

  /** `Contains` holds exactly when `t` starts at some position of `s`. */
  lemma {:induction false} ContainsAt(s: string, t: string)
    ensures Contains(s, t) <==> exists i :: 0 <= i <= |s| && IsPrefix(t, s[i..])
    decreases |s|
  {
    assert s[0..] == s;
    if |s| > 0 {
      ContainsAt(s[1..], t);
      if exists i :: 0 <= i <= |s| && IsPrefix(t, s[i..]) {
        var i :| 0 <= i <= |s| && IsPrefix(t, s[i..]);
        if i > 0 {
          assert s[1..][i - 1..] == s[i..];
        }
      }
      if Contains(s[1..], t) {
        var i :| 0 <= i <= |s| - 1 && IsPrefix(t, s[1..][i..]);
        assert s[1..][i..] == s[i + 1..];
      }
    }
  }

  /** Every string contains the empty string. */
  lemma ContainsEmpty(s: string)
    ensures Contains(s, "")
  {
    assert IsPrefix("", s);
  }

  /** Whatever a slice contains, the whole string contains. */
  lemma {:induction false} ContainsSlice(s: string, i: nat, j: nat, t: string)
    requires i <= j <= |s|
    requires Contains(s[i..j], t)
    ensures Contains(s, t)
  {
    ContainsAt(s[i..j], t);
    var k :| 0 <= k <= j - i && IsPrefix(t, s[i..j][k..]);
    assert s[i..j][k..] == s[i + k..j];
    assert s[i + k..][..|t|] == s[i + k..j][..|t|];
    ContainsAt(s, t);
  }

  /** An occurrence of `t` is an occurrence of each of its prefixes. */
  lemma {:induction false} ContainsPrefixOf(s: string, t: string, u: string)
    requires IsPrefix(u, t) && Contains(s, t)
    ensures Contains(s, u)
    decreases |s|
  {
    if !IsPrefix(t, s) {
      ContainsPrefixOf(s[1..], t, u);
    } else {
      assert s[..|u|] == s[..|t|][..|u|];
    }
  }

  /** A string without the character `c` contains no pattern that starts with `c`. */
  lemma {:induction false} NotContainsChar(s: string, t: string)
    requires |t| > 0 && t[0] !in s
    ensures !Contains(s, t)
    decreases |s|
  {
    if |s| > 0 {
      assert s[0] != t[0];
      NotContainsChar(s[1..], t);
    }
  }

  // ---- split ----

  /** `s.split(sep)` for a one-character separator: the maximal runs between
      separators, in order; always at least one, possibly empty, part. */
  function Split(s: string, sep: char): (r: seq<string>)
    ensures |r| >= 1
    ensures forall k :: 0 <= k < |r| ==> sep !in r[k]
    decreases |s|
  {
    if |s| == 0 then [""]
    else
      var rest := Split(s[1..], sep);
      assert s == [s[0]] + s[1..];
      if s[0] == sep then [""] + rest
      else [[s[0]] + rest[0]] + rest[1..]
  }

  /** A string free of the separator splits into itself alone. */
  lemma {:induction false} SplitFree(a: string, sep: char)
    requires sep !in a
    ensures Split(a, sep) == [a]
    decreases |a|
  {
    if |a| > 0 {
      SplitFree(a[1..], sep);
      assert [a[0]] + a[1..] == a;
    }
  }

  /** The part before the first separator comes first, followed by the split
      of what comes after it. */
  lemma {:induction false} SplitAfterSep(a: string, b: string, sep: char)
    requires sep !in a
    ensures Split(a + [sep] + b, sep) == [a] + Split(b, sep)
    decreases |a|
  {
    var s := a + [sep] + b;
    if |a| == 0 {
      assert s[1..] == b;
    } else {
      assert s[1..] == a[1..] + [sep] + b;
      SplitAfterSep(a[1..], b, sep);
      assert [a[0]] + a[1..] == a;
    }
  }

  /** `s.charAt(0)`: the first character, or "" for the empty string. */
  function FirstChar(s: string): (r: string)
    ensures |r| == (if |s| == 0 then 0 else 1)
    ensures |s| > 0 ==> r[0] == s[0]
  {
    if |s| == 0 then "" else s[..1]
  }

  // ---- toLowerCase (ASCII) ----

  function LowerChar(c: char): char {
    if 'A' <= c <= 'Z' then (c as int + 32) as char else c
  }

  /** `s.toLowerCase()`, over ASCII letters only. */
  function Lower(s: string): (r: string)
    ensures |r| == |s|
    ensures forall i :: 0 <= i < |s| ==> r[i] == LowerChar(s[i])
    decreases |s|
  {
    if |s| == 0 then "" else [LowerChar(s[0])] + Lower(s[1..])
  }

  // ---- trim (ASCII white space) ----

  /** The white-space and line-terminator characters `trim` removes, restricted to ASCII. */
  predicate IsSpace(c: char) {
    c == ' ' || c == '\t' || c == '\n' || c == '\r' || c == '\U{000B}' || c == '\U{000C}'
  }

  /** `s` neither begins nor ends with white space. */
  predicate Trimmed(s: string) {
    |s| > 0 ==> !IsSpace(s[0]) && !IsSpace(s[|s| - 1])
  }

  /** `s.trimStart()`: the suffix left after dropping leading white space. */
  function TrimStart(s: string): (r: string)
    ensures |r| <= |s| && r == s[|s| - |r|..]
    ensures forall k :: 0 <= k < |s| - |r| ==> IsSpace(s[k])
    ensures |r| > 0 ==> !IsSpace(r[0])
    decreases |s|
  {
    if |s| > 0 && IsSpace(s[0]) then
      var r := TrimStart(s[1..]);
      assert s[1..][|s| - 1 - |r|..] == s[|s| - |r|..];
      assert forall k :: 1 <= k < |s| - |r| ==> s[k] == s[1..][k - 1];
      r
    else s
  }

  /** `s.trimEnd()`: the prefix left after dropping trailing white space. */
  function TrimEnd(s: string): (r: string)
    ensures |r| <= |s| && r == s[..|r|]
    ensures forall k :: |r| <= k < |s| ==> IsSpace(s[k])
    ensures |r| > 0 ==> !IsSpace(r[|r| - 1])
    decreases |s|
  {
    if |s| > 0 && IsSpace(s[|s| - 1]) then
      var r := TrimEnd(s[..|s| - 1]);
      assert s[..|s| - 1][..|r|] == s[..|r|];
      assert forall k :: |r| <= k < |s| - 1 ==> s[k] == s[..|s| - 1][k];
      r
    else s
  }

  /** `s.trim()`. */
  function Trim(s: string): string {
    TrimEnd(TrimStart(s))
  }

  /** `s[i..j]` is `s` with only white space cut off either end. */
  predicate TrimCut(s: string, i: int, j: int) {
    && 0 <= i <= j <= |s|
    && (forall k :: 0 <= k < i ==> IsSpace(s[k]))
    && (forall k :: j <= k < |s| ==> IsSpace(s[k]))
  }

  /** The trimmed string is a slice of the input with only white space cut
      off either end, and it is `Trimmed`. */
  lemma TrimSlice(s: string)
    ensures exists i, j :: TrimCut(s, i, j) && Trim(s) == s[i..j]
    ensures Trimmed(Trim(s))
  {
    var a := TrimStart(s);
    var r := TrimEnd(a);
    var i := |s| - |a|;
    assert r == s[i..i + |r|];
    forall k | i + |r| <= k < |s| ensures IsSpace(s[k]) {
      assert s[k] == a[k - i];
    }
    assert TrimCut(s, i, i + |r|);
  }

  /** Trimming changes nothing on a string that is already trimmed. */
  lemma TrimTrimmed(s: string)
    requires Trimmed(s)
    ensures Trim(s) == s
  {
  }

  // ---- replace(/pat/g, '') ----

  /** `s.replace(/pat/g, '')` for a literal `pat`: scan from the left, dropping
      each occurrence and resuming after it. */
  function RemoveAll(s: string, pat: string): (r: string)
    requires |pat| > 0
    ensures |r| <= |s|
    decreases |s|
  {
    if |s| == 0 then ""
    else if IsPrefix(pat, s) then RemoveAll(s[|pat|..], pat)
    else [s[0]] + RemoveAll(s[1..], pat)
  }

  /** Without an occurrence there is nothing to remove. */
  lemma {:induction false} RemoveAllAbsent(s: string, pat: string)
    requires |pat| > 0 && !Contains(s, pat)
    ensures RemoveAll(s, pat) == s
    decreases |s|
  {
    if |s| > 0 {
      RemoveAllAbsent(s[1..], pat);
      assert [s[0]] + s[1..] == s;
    }
  }

  /** An occurrence at the front is dropped and the scan resumes after it. */
  lemma RemoveAllLeading(b: string, pat: string)
    requires |pat| > 0
    ensures RemoveAll(pat + b, pat) == RemoveAll(b, pat)
  {
    assert (pat + b)[..|pat|] == pat;
    assert (pat + b)[|pat|..] == b;
  }

  /** Text in which the pattern's first character never occurs is kept as it
      is, and the scan goes on right after it. */
  lemma {:induction false} RemoveAllSkips(a: string, b: string, pat: string)
    requires |pat| > 0 && pat[0] !in a
    ensures RemoveAll(a + b, pat) == a + RemoveAll(b, pat)
    decreases |a|
  {
    if |a| == 0 {
      assert a + b == b;
    } else {
      var s := a + b;
      assert s[0] == a[0];
      assert !IsPrefix(pat, s);
      assert s[1..] == a[1..] + b;
      RemoveAllSkips(a[1..], b, pat);
      assert [a[0]] + a[1..] == a;
    }
  }

  /** A string shorter than the pattern does not contain it. */
  lemma {:induction false} ContainsShorter(s: string, t: string)
    requires |s| < |t|
    ensures !Contains(s, t)
    decreases |s|
  {
    if |s| > 0 {
      ContainsShorter(s[1..], t);
    }
  }

  /** A first character that starts no occurrence is kept. */
  lemma RemoveAllStep(s: string, pat: string)
    requires |pat| > 0 && |s| > 0 && !IsPrefix(pat, s)
    ensures RemoveAll(s, pat) == [s[0]] + RemoveAll(s[1..], pat)
  {
  }

  /** Text that never holds the pattern's first character, followed by one
      occurrence, leaves just the text. */
  lemma RemoveAllTrailing(body: string, pat: string)
    requires |pat| > 0 && pat[0] !in body
    ensures RemoveAll(body + pat, pat) == body
  {
    RemoveAllSkips(body, pat, pat);
    assert pat + "" == pat;
    RemoveAllLeading("", pat);
  }

  /** Between two occurrences of the pattern, text that never holds the
      pattern's first character is exactly what is left. */
  lemma RemoveAllWrapped(body: string, pat: string)
    requires |pat| > 0 && pat[0] !in body
    ensures RemoveAll(pat + body + pat, pat) == body
  {
    assert pat + body + pat == pat + (body + pat);
    RemoveAllLeading(body + pat, pat);
    RemoveAllTrailing(body, pat);
  }

  const Fence: string := "```"

  // Removing fences never moves a backtick to the front of what remains.
  lemma RemoveFencesHead(t: string)
    requires |t| == 0 || t[0] != '`'
    ensures var r := RemoveAll(t, Fence); |r| == 0 || r[0] != '`'
  {
  }

  lemma {:induction false} RemoveFencesHead2(t: string)
    requires !IsPrefix("``", t)
    ensures !IsPrefix("``", RemoveAll(t, Fence))
  {
    if |t| > 0 && t[0] == '`' {
      assert !IsPrefix(Fence, t);
      RemoveFencesHead(t[1..]);
      var r := RemoveAll(t, Fence);
      assert r == [t[0]] + RemoveAll(t[1..], Fence);
    } else {
      RemoveFencesHead(t);
    }
  }

  /** Removing every fence leaves no fence: removal never glues backticks
      together into a new one. */
  lemma {:induction false} RemoveFencesLeavesNone(s: string)
    ensures !Contains(RemoveAll(s, Fence), Fence)
    decreases |s|
  {
    if |s| > 0 {
      if IsPrefix(Fence, s) {
        RemoveFencesLeavesNone(s[3..]);
      } else {
        RemoveFencesLeavesNone(s[1..]);
        var u := RemoveAll(s[1..], Fence);
        var r := [s[0]] + u;
        assert r[1..] == u;
        if s[0] == '`' {
          if |s| >= 3 {
            assert s[..3] == [s[0]] + s[1..][..2];
          }
          RemoveFencesHead2(s[1..]);
          if |u| >= 2 {
            assert u[..2] == r[1..3];
          }
        }
      }
    }
  }
}
