/** String helpers with the meaning of the Python `str` methods the program
    calls. Letters are cased in their ASCII range only; whitespace is space, tab,
    line feed, carriage return, vertical tab and form feed. */
module Text {
  import opened Wrappers

  predicate IsLowerChar(c: char) { 'a' <= c <= 'z' }
  predicate IsUpperChar(c: char) { 'A' <= c <= 'Z' }
  predicate IsDigitChar(c: char) { '0' <= c <= '9' }
  predicate IsSpaceChar(c: char) { c == ' ' || c == '\t' || c == '\n' || c == '\r' || c == '\U{B}' || c == '\U{C}' }

  function UpperChar(c: char): char { if IsLowerChar(c) then (c as int - 32) as char else c }
  function LowerChar(c: char): char { if IsUpperChar(c) then (c as int + 32) as char else c }

  /** `str.upper()` */
  function Upper(s: string): (r: string)
    ensures |r| == |s|
    ensures forall i :: 0 <= i < |s| ==> r[i] == UpperChar(s[i])
  {
    if s == [] then [] else [UpperChar(s[0])] + Upper(s[1..])
  }

  /** `str.lower()` */
  function Lower(s: string): (r: string)
    ensures |r| == |s|
    ensures forall i :: 0 <= i < |s| ==> r[i] == LowerChar(s[i])
  {
    if s == [] then [] else [LowerChar(s[0])] + Lower(s[1..])
  }

  function StripLeft(s: string): (r: string)
    ensures |r| <= |s| && r == s[|s| - |r|..]
    ensures r == [] || !IsSpaceChar(r[0])
  {
    if s != [] && IsSpaceChar(s[0]) then StripLeft(s[1..]) else s
  }

  function StripRight(s: string): (r: string)
    ensures |r| <= |s| && r == s[..|r|]
    ensures r == [] || !IsSpaceChar(r[|r| - 1])
  {
    if s != [] && IsSpaceChar(s[|s| - 1]) then StripRight(s[..|s| - 1]) else s
  }

  /** `str.strip()`: the result is a piece of `s` with no whitespace at
      either end, and `s` itself when it has none there. */
  function Strip(s: string): (r: string)
    ensures |r| <= |s|
    ensures r == [] || (!IsSpaceChar(r[0]) && !IsSpaceChar(r[|r| - 1]))
    ensures (s == [] || (!IsSpaceChar(s[0]) && !IsSpaceChar(s[|s| - 1]))) ==> r == s
  {
    StripRight(StripLeft(s))
  }

  predicate StartsWith(s: string, p: string) { |p| <= |s| && s[..|p|] == p }

  /** Position of the first occurrence of `sub` in `s` (`str.find`). */
  function IndexOf(s: string, sub: string): (r: Option<nat>)
    ensures r.Some? ==> r.value + |sub| <= |s| && s[r.value..r.value + |sub|] == sub
    ensures r.Some? ==> StartsWith(s[r.value..], sub)
    ensures r.Some? ==> forall j :: 0 <= j < r.value ==> !StartsWith(s[j..], sub)
    ensures r.None? ==> forall j :: 0 <= j <= |s| ==> !StartsWith(s[j..], sub)
    decreases |s|
  {
    if StartsWith(s, sub) then assert s[0..] == s; Some(0)
    else if s == [] then None
    else
      var t := IndexOf(s[1..], sub);
      if t.Some? then
        var k := t.value + 1;
        assert s[k..] == s[1..][t.value..];
        assert s[k..k + |sub|] == s[1..][t.value..t.value + |sub|];
        assert forall j :: 0 <= j < k ==> !StartsWith(s[j..], sub) by {
          forall j | 0 <= j < k ensures !StartsWith(s[j..], sub) {
            if j > 0 { assert s[j..] == s[1..][j - 1..]; }
          }
        }
        Some(k)
      else
        assert forall j :: 0 <= j <= |s| ==> !StartsWith(s[j..], sub) by {
          forall j | 0 <= j <= |s| ensures !StartsWith(s[j..], sub) {
            if j > 0 { assert s[j..] == s[1..][j - 1..]; }
          }
        }
        None
  }

  /** `sub in s` */
  predicate Contains(s: string, sub: string) { IndexOf(s, sub).Some? }

  lemma ContainsAt(s: string, sub: string, j: nat)
    requires j + |sub| <= |s| && s[j..j + |sub|] == sub
    ensures Contains(s, sub)
  {
    assert StartsWith(s[j..], sub);
  }

  /** A string ends with what was appended to it. */
  lemma ContainsAppended(s: string, sub: string)
    ensures Contains(s + sub, sub)
  {
    assert (s + sub)[|s|..|s| + |sub|] == sub;
    ContainsAt(s + sub, sub, |s|);
  }

  /** `str.replace(pat, rep)`: leftmost, non-overlapping occurrences. */
  function Replace(s: string, pat: string, rep: string): (r: string)
    requires |pat| > 0
    decreases |s|
  {
    if |s| < |pat| then s
    else if s[..|pat|] == pat then rep + Replace(s[|pat|..], pat, rep)
    else [s[0]] + Replace(s[1..], pat, rep)
  }

  /** Deleting every occurrence of a one-character string leaves none of that
      character and only characters of `s`. */
  lemma {:induction false} ReplaceCharGone(s: string, c: char)
    ensures forall i :: 0 <= i < |Replace(s, [c], "")| ==> Replace(s, [c], "")[i] != c && Replace(s, [c], "")[i] in s
    decreases |s|
  {
    if |s| >= 1 {
      ReplaceCharGone(s[1..], c);
    }
  }

  /** Replacing one character by another keeps the length and changes
      exactly the positions holding that character. */
  lemma {:induction false} ReplaceCharByChar(s: string, c: char, d: char)
    ensures |Replace(s, [c], [d])| == |s|
    ensures forall i :: 0 <= i < |s| ==> Replace(s, [c], [d])[i] == if s[i] == c then d else s[i]
    decreases |s|
  {
    if |s| >= 1 {
      ReplaceCharByChar(s[1..], c, d);
      assert s[..1] == [s[0]];
    }
  }

  /** Deleting occurrences of any substring keeps only characters of `s`. */
  lemma {:induction false} ReplaceEmptyKeepsChars(s: string, pat: string)
    requires |pat| > 0
    ensures forall i :: 0 <= i < |Replace(s, pat, "")| ==> Replace(s, pat, "")[i] in s
    decreases |s|
  {
    if |s| >= |pat| {
      if s[..|pat|] == pat {
        ReplaceEmptyKeepsChars(s[|pat|..], pat);
      } else {
        ReplaceEmptyKeepsChars(s[1..], pat);
      }
    }
  }

  /** Deleting a pattern whose first character never occurs changes
      nothing. */
  lemma {:induction false} ReplaceAbsent(s: string, pat: string)
    requires |pat| > 0 && pat[0] !in s
    ensures Replace(s, pat, "") == s
    decreases |s|
  {
    if |s| >= |pat| {
      assert s[..|pat|][0] != pat[0];
      ReplaceAbsent(s[1..], pat);
      assert [s[0]] + s[1..] == s;
    }
  }

  /** The text before the first occurrence of `sep`, or all of `s`
      (`s.split(sep)[0]`). */
  function Before(s: string, sep: string): (r: string)
    requires |sep| > 0
    ensures |r| <= |s| && r == s[..|r|]
  {
    match IndexOf(s, sep)
    case Some(i) => s[..i]
    case None => s
  }

  /** The text before `sep` holds no `sep`. */
  lemma BeforeHasNoSep(s: string, sep: string)
    requires |sep| > 0
    ensures !Contains(Before(s, sep), sep)
  {
    var p := Before(s, sep);
    forall j | 0 <= j <= |p|
      ensures !StartsWith(p[j..], sep)
    {
      if j + |sep| <= |p| {
        assert p[j..][..|sep|] == s[j..][..|sep|];
      }
    }
  }

  /** A piece of a string without `sub` has no `sub` either. */
  lemma SliceKeepsAbsence(s: string, a: nat, b: nat, sub: string)
    requires a <= b <= |s| && !Contains(s, sub)
    ensures !Contains(s[a..b], sub)
  {
    var p := s[a..b];
    if Contains(p, sub) {
      var j := IndexOf(p, sub).value;
      assert j + |sub| <= |p| && p[j..j + |sub|] == sub;
      forall k | 0 <= k < |sub|
        ensures s[a + j + k] == sub[k]
      {
        assert p[j + k] == s[a + j + k];
        assert p[j..j + |sub|][k] == p[j + k];
      }
      assert s[a + j..a + j + |sub|] == sub;
      ContainsAt(s, sub, a + j);
    }
  }

  /** Every character of the stripped text is a character of the input, so
      a property all input characters have survives stripping. */
  lemma StripKeepsChars(s: string, p: char -> bool)
    requires forall i :: 0 <= i < |s| ==> p(s[i])
    ensures forall i :: 0 <= i < |Strip(s)| ==> p(Strip(s)[i])
  {
    var l := StripLeft(s);
    var r := Strip(s);
    var k := |s| - |l|;
    assert r == StripRight(l) == l[..|r|];
    assert l == s[k..];
    forall i | 0 <= i < |r| ensures p(r[i]) {
      assert r[i] == l[i] == s[k + i];
    }
  }

  /** Stripping cannot create an occurrence of `sub`. */
  lemma StripKeepsAbsence(s: string, sub: string)
    requires !Contains(s, sub)
    ensures !Contains(Strip(s), sub)
  {
    var l := StripLeft(s);
    var r := Strip(s);
    var a := |s| - |l|;
    assert r == StripRight(l) == l[..|r|];
    assert l == s[a..];
    assert r == s[a..a + |r|];
    PieceKeepsAbsence(r, s, a, sub);
  }

  lemma PieceKeepsAbsence(t: string, s: string, a: nat, sub: string)
    requires a + |t| <= |s| && t == s[a..a + |t|] && !Contains(s, sub)
    ensures !Contains(t, sub)
  {
    SliceKeepsAbsence(s, a, a + |t|, sub);
  }

  /** Stripping a text framed by newlines gives the text back when the text
      starts and ends with a non-blank character. */
  lemma StripFramed(x: string)
    requires x != [] && !IsSpaceChar(x[0]) && !IsSpaceChar(x[|x| - 1])
    ensures Strip("\n" + x + "\n") == x
  {
    var s := "\n" + x + "\n";
    assert s[1..] == x + "\n";
    assert StripLeft(s) == StripLeft(x + "\n");
    assert StripLeft(x + "\n") == x + "\n";
    assert (x + "\n")[..|x|] == x;
    assert StripRight(x + "\n") == StripRight(x);
  }

  /** The parts of `s` separated by `c`, without the empty ones
      (`[p for p in s.split(c) if p]`). */
  function SplitNonEmpty(s: string, c: char): (r: seq<string>)
    ensures forall k :: 0 <= k < |r| ==> r[k] != [] && c !in r[k]
    decreases |s|
  {
    SplitFrom(s, c, "")
  }

  function SplitFrom(s: string, c: char, cur: string): (r: seq<string>)
    requires c !in cur
    ensures forall k :: 0 <= k < |r| ==> r[k] != [] && c !in r[k]
    decreases |s|
  {
    if s == [] then (if cur == [] then [] else [cur])
    else if s[0] == c then (if cur == [] then [] else [cur]) + SplitFrom(s[1..], c, "")
    else SplitFrom(s[1..], c, cur + [s[0]])
  }

  /** `str.isalnum()` */
  predicate IsAlnum(s: string) { |s| > 0 && forall i :: 0 <= i < |s| ==> IsLowerChar(s[i]) || IsUpperChar(s[i]) || IsDigitChar(s[i]) }

  /** `str.isupper()`: some cased character and no lower-case one. */
  predicate IsUpperStr(s: string)
  {
    (exists i :: 0 <= i < |s| && IsUpperChar(s[i])) && forall i :: 0 <= i < |s| ==> !IsLowerChar(s[i])
  }

  /** `s[:n]` for a non-negative `n` */
  function Take<T>(s: seq<T>, n: nat): (r: seq<T>)
    ensures |r| <= n && |r| <= |s| && r == s[..|r|]
    ensures |s| <= n ==> r == s
    ensures |s| > n ==> |r| == n
  {
    if |s| <= n then s else s[..n]
  }

  /** `sep.join(parts)` */
  function Join(parts: seq<string>, sep: string): string
  {
    if parts == [] then "" else if |parts| == 1 then parts[0] else parts[0] + sep + Join(parts[1..], sep)
  }

  function DigitChar(d: nat): char
    requires d < 10
  {
    "0123456789"[d]
  }

  /** Decimal digits of a natural number, as `str(n)` prints them. */
  function NatToString(n: nat): (r: string)
    ensures |r| > 0
    ensures forall i :: 0 <= i < |r| ==> IsDigitChar(r[i])
  {
    if n < 10 then [DigitChar(n)] else NatToString(n / 10) + [DigitChar(n % 10)]
  }

  /** `str(n)` for an integer. */
  function IntToString(n: int): (r: string)
    ensures |r| > 0
  {
    if n < 0 then "-" + NatToString(-n) else NatToString(n)
  }
}
