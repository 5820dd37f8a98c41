/**
 * The few Python `str` operations the audit code relies on, over `seq<char>`
 * (one `char` per Unicode scalar value, as Python indexes strings).
 */
module Text {

  /** Python's `str.isspace()`: the characters `strip()` removes and `split()` splits on. */
  predicate IsSpace(c: char) {
    ('\t' <= c <= '\r') || ('\U{1C}' <= c <= ' ') || c == '\U{85}' || c == '\U{A0}'
    || c == '\U{1680}' || ('\U{2000}' <= c <= '\U{200A}') || c == '\U{2028}' || c == '\U{2029}'
    || c == '\U{202F}' || c == '\U{205F}' || c == '\U{3000}'
  }

  predicate StartsWith(s: string, prefix: string) {
    |prefix| <= |s| && s[..|prefix|] == prefix
  }

  predicate EndsWith(s: string, suffix: string) {
    |suffix| <= |s| && s[|s| - |suffix|..] == suffix
  }

  /** Python `sub in s`. */
  predicate Contains(s: string, sub: string)
    decreases |s|
  {
    StartsWith(s, sub) || (|s| > 0 && Contains(s[1..], sub))
  }

  /** `sub` occurs in `s` wherever it can be found at some position. */
  lemma {:induction false} ContainsAt(s: string, sub: string, i: nat)
    requires i + |sub| <= |s| && s[i..i + |sub|] == sub
    ensures Contains(s, sub)
    decreases i
  {
    if i > 0 {
      assert s[1..][i - 1..i - 1 + |sub|] == s[i..i + |sub|];
      ContainsAt(s[1..], sub, i - 1);
    }
  }

  lemma ContainsInfix(a: string, sub: string, c: string)
    ensures Contains(a + sub + c, sub)
  {
    assert (a + sub + c)[|a|..|a| + |sub|] == sub;
    ContainsAt(a + sub + c, sub, |a|);
  }

  /** `s[:n]` for a non-negative `n`. */
  function Take<T>(s: seq<T>, n: nat): (r: seq<T>)
    ensures |r| <= n && |r| <= |s|
    ensures |r| == if n < |s| then n else |s|
    ensures r == s[..|r|]
  {
    if n < |s| then s[..n] else s
  }

  /** `s.lstrip()`. */
  function LStrip(s: string): (r: string)
    ensures |r| <= |s|
    decreases |s|
  {
    if |s| > 0 && IsSpace(s[0]) then LStrip(s[1..]) else s
  }

  /** `lstrip()` cuts a prefix of whitespace and stops at the first other character. */
  lemma {:induction false} LStripSpec(s: string)
    ensures LStrip(s) == s[|s| - |LStrip(s)|..]
    ensures LStrip(s) == [] || !IsSpace(LStrip(s)[0])
    ensures forall i :: 0 <= i < |s| - |LStrip(s)| ==> IsSpace(s[i])
    decreases |s|
  {
    if |s| > 0 && IsSpace(s[0]) {
      LStripSpec(s[1..]);
      assert s[1..][|s| - 1 - |LStrip(s)|..] == s[|s| - |LStrip(s)|..];
      forall i | 0 <= i < |s| - |LStrip(s)| ensures IsSpace(s[i]) {
        if i > 0 { assert s[i] == s[1..][i - 1]; }
      }
    }
  }

  /** `s.rstrip()`. */
  function RStrip(s: string): (r: string)
    ensures |r| <= |s|
    decreases |s|
  {
    if |s| > 0 && IsSpace(s[|s| - 1]) then RStrip(s[..|s| - 1]) else s
  }

  /** `rstrip()` cuts a suffix of whitespace and stops at the last other character. */
  lemma {:induction false} RStripSpec(s: string)
    ensures RStrip(s) == s[..|RStrip(s)|]
    ensures RStrip(s) == [] || !IsSpace(RStrip(s)[|RStrip(s)| - 1])
    ensures forall i :: |RStrip(s)| <= i < |s| ==> IsSpace(s[i])
    decreases |s|
  {
    if |s| > 0 && IsSpace(s[|s| - 1]) {
      RStripSpec(s[..|s| - 1]);
      assert s[..|s| - 1][..|RStrip(s)|] == s[..|RStrip(s)|];
    }
  }

  /** `s.strip()`: `s` without its leading and trailing whitespace. */
  function Strip(s: string): (r: string)
    ensures |r| <= |s|
  {
    RStrip(LStrip(s))
  }

  /** What `strip()` keeps is a slice of `s` with no whitespace at either end. */
  lemma StripSpec(s: string) returns (lo: nat)
    ensures lo + |Strip(s)| <= |s| && Strip(s) == s[lo..lo + |Strip(s)|]
    ensures Strip(s) == [] || (!IsSpace(Strip(s)[0]) && !IsSpace(Strip(s)[|Strip(s)| - 1]))
  {
    var l := LStrip(s);
    LStripSpec(s);
    RStripSpec(l);
    lo := |s| - |l|;
    var r := Strip(s);
    if r != [] {
      assert r[0] == l[0];
    }
  }

  /** `s.lower()` on the ASCII letters; other characters are left alone. */
  function Lower(s: string): (r: string)
    ensures |r| == |s|
    ensures forall i :: 0 <= i < |s| ==> !('A' <= r[i] <= 'Z')
  {
    seq(|s|, i requires 0 <= i < |s| => LowerChar(s[i]))
  }

  function LowerChar(c: char): char {
    if 'A' <= c <= 'Z' then (c as int - 'A' as int + 'a' as int) as char else c
  }

  /** `s.find(c)` for a one-character needle: the first index of `c`, or -1. */
  function Find(s: string, c: char): (r: int)
    ensures -1 <= r < |s|
    ensures r == -1 <==> c !in s
    ensures r >= 0 ==> s[r] == c && c !in s[..r]
  {
    if |s| == 0 then -1
    else if s[0] == c then 0
    else
      var k := Find(s[1..], c);
      assert s[1..][..if k < 0 then 0 else k] == s[1..1 + (if k < 0 then 0 else k)];
      if k < 0 then -1 else k + 1
  }

  /** `s.rfind(c)` for a one-character needle: the last index of `c`, or -1. */
  function RFind(s: string, c: char): (r: int)
    ensures -1 <= r < |s|
    ensures r == -1 <==> c !in s
    ensures r >= 0 ==> s[r] == c && c !in s[r + 1..]
    decreases |s|
  {
    if |s| == 0 then -1
    else if s[|s| - 1] == c then |s| - 1
    else
      assert s == s[..|s| - 1] + [s[|s| - 1]];
      RFind(s[..|s| - 1], c)
  }

  /** `s.replace(old, new)`: every non-overlapping occurrence, scanning left to right. */
  function ReplaceAll(s: string, target: string, replacement: string): string
    requires |target| > 0
    decreases |s|
  {
    if |s| < |target| then s
    else if s[..|target|] == target then replacement + ReplaceAll(s[|target|..], target, replacement)
    else [s[0]] + ReplaceAll(s[1..], target, replacement)
  }

  /** A position where `sub` occurs in `s`. */
  lemma {:induction false} ContainsWitness(s: string, sub: string) returns (i: nat)
    requires Contains(s, sub)
    ensures i + |sub| <= |s| && s[i..i + |sub|] == sub
    decreases |s|
  {
    if StartsWith(s, sub) {
      i := 0;
    } else {
      var j := ContainsWitness(s[1..], sub);
      i := j + 1;
      assert s[1..][j..j + |sub|] == s[i..i + |sub|];
    }
  }

  /** Only a string at least as long as `sub` can contain it. */
  lemma {:induction false} ContainsLength(s: string, sub: string)
    ensures Contains(s, sub) ==> |sub| <= |s|
    decreases |s|
  {
    if |s| > 0 {
      ContainsLength(s[1..], sub);
    }
  }

  /** An occurrence inside a slice is an occurrence in the whole string. */
  lemma ContainsSlice(s: string, lo: nat, hi: nat, sub: string)
    requires lo <= hi <= |s| && Contains(s[lo..hi], sub)
    ensures Contains(s, sub)
  {
    var j := ContainsWitness(s[lo..hi], sub);
    assert s[lo + j..lo + j + |sub|] == sub by {
      forall k | 0 <= k < |sub| ensures s[lo + j + k] == sub[k] {
        assert s[lo..hi][j..j + |sub|][k] == sub[k];
      }
    }
    ContainsAt(s, sub, lo + j);
  }

  /** `strip()` cannot create an occurrence: it only cuts characters off both ends. */
  lemma StripKeepsOut(s: string, sub: string)
    requires !Contains(s, sub)
    ensures !Contains(Strip(s), sub)
  {
    var lo := StripSpec(s);
    if Contains(Strip(s), sub) {
      ContainsSlice(s, lo, lo + |Strip(s)|, sub);
    }
  }

  /** Removing every occurrence of a target never makes a string longer. */
  lemma {:induction false} RemoveAllShortens(s: string, target: string)
    requires |target| > 0
    ensures |ReplaceAll(s, target, "")| <= |s|
    decreases |s|
  {
    if |s| >= |target| {
      if s[..|target|] == target {
        RemoveAllShortens(s[|target|..], target);
      } else {
        RemoveAllShortens(s[1..], target);
      }
    }
  }

  /** Removing "```" keeps a first character that is not a backtick. */
  lemma KeepsFirst(u: string)
    requires |u| > 0 && u[0] != '`'
    ensures |ReplaceAll(u, "```", "")| > 0 && ReplaceAll(u, "```", "")[0] == u[0]
  {
    if |u| >= 3 {
      assert u[..3] != "```" by { assert u[..3][0] == u[0]; }
      assert ReplaceAll(u, "```", "") == [u[0]] + ReplaceAll(u[1..], "```", "");
    }
  }

  /**
   * `s.replace("```", "")` leaves no "```" behind: a run of backticks shrinks to fewer
   * than three, and the characters that separate runs stay.
   */
  lemma {:induction false} NoFenceAfterRemoval(s: string)
    ensures !Contains(ReplaceAll(s, "```", ""), "```")
    decreases |s|
  {
    var r := ReplaceAll(s, "```", "");
    if |s| < 3 {
      assert r == s;
      ContainsLength(r, "```");
    } else if s[..3] == "```" {
      assert r == ReplaceAll(s[3..], "```", "");
      NoFenceAfterRemoval(s[3..]);
    } else {
      var t := ReplaceAll(s[1..], "```", "");
      NoFenceAfterRemoval(s[1..]);
      assert r == [s[0]] + t;
      assert r[1..] == t;
      NoFenceAtHead(s);
    }
  }

  /** When `s` does not open with "```", neither does what removing "```" leaves of it. */
  lemma NoFenceAtHead(s: string)
    requires |s| >= 3 && s[..3] != "```"
    ensures !StartsWith(ReplaceAll(s, "```", ""), "```")
  {
    var r := ReplaceAll(s, "```", "");
    var t := ReplaceAll(s[1..], "```", "");
    assert r == [s[0]] + t;
    if s[0] != '`' {
      NoFenceWithout(r, 0);
    } else if s[1] != '`' {
      KeepsFirst(s[1..]);
      NoFenceWithout(r, 1);
    } else {
      assert s[2] != '`' by { assert s[..3] == [s[0], s[1], s[2]]; }
      var u := s[1..];
      if |u| >= 3 {
        assert u[..3] != "```" by { assert u[..3][1] == s[2]; }
        assert t == [u[0]] + ReplaceAll(u[1..], "```", "");
        KeepsFirst(u[1..]);
      } else {
        assert t == u;
      }
      NoFenceWithout(r, 2);
    }
  }

  /** A string with a character other than a backtick among its first three does not open with "```". */
  lemma NoFenceWithout(r: string, i: nat)
    requires i < 3 && i < |r| && r[i] != '`'
    ensures !StartsWith(r, "```")
  {
  }

  /** `s.replace(target, replacement, 1)`: the first occurrence only. */
  function ReplaceFirst(s: string, target: string, replacement: string): string
    requires |target| > 0
    decreases |s|
  {
    if |s| < |target| then s
    else if s[..|target|] == target then replacement + s[|target|..]
    else [s[0]] + ReplaceFirst(s[1..], target, replacement)
  }

  /** `s.rsplit(sep, 1)[0]`: everything before the last occurrence of `sep`, or `s`. */
  function BeforeLast(s: string, sep: string): (r: string)
    requires |sep| > 0
    ensures |r| <= |s| && r == s[..|r|]
    decreases |s|
  {
    if |s| < |sep| then s
    else if s[|s| - |sep|..] == sep then s[..|s| - |sep|]
    else
      var r := BeforeLast(s[..|s| - 1], sep);
      if |r| == |s| - 1 then s else r
  }

  /** Length of the leading run of non-whitespace characters. */
  function TokenEnd(s: string): (n: nat)
    ensures n <= |s|
    ensures forall i :: 0 <= i < n ==> !IsSpace(s[i])
    ensures n == |s| || IsSpace(s[n])
  {
    if |s| == 0 || IsSpace(s[0]) then 0 else 1 + TokenEnd(s[1..])
  }

  /** `s.split()`: the maximal runs of non-whitespace characters, in order. */
  function Words(s: string): seq<string>
    decreases |s|
  {
    var t := LStrip(s);
    if t == [] then []
    else
      var n := TokenEnd(t);
      [t[..n]] + Words(t[n..])
  }

  /** Every piece `split()` returns is a non-empty run without whitespace. */
  lemma {:induction false} WordsAreWords(s: string)
    ensures forall i :: 0 <= i < |Words(s)| ==> IsWord(Words(s)[i])
    decreases |s|
  {
    var t := LStrip(s);
    LStripSpec(s);
    if t != [] {
      var n := TokenEnd(t);
      var rest := Words(t[n..]);
      assert Words(s) == [t[..n]] + rest;
      WordsAreWords(t[n..]);
      WordThenWords(t[..n], rest);
    }
  }

  lemma WordThenWords(w: string, rest: seq<string>)
    requires w != [] && forall i :: 0 <= i < |w| ==> !IsSpace(w[i])
    requires forall i :: 0 <= i < |rest| ==> IsWord(rest[i])
    ensures forall i :: 0 <= i < |[w] + rest| ==> IsWord(([w] + rest)[i])
  {
    forall i | 0 <= i < |[w] + rest| ensures IsWord(([w] + rest)[i]) {
      if i > 0 { assert ([w] + rest)[i] == rest[i - 1]; }
    }
  }

  /** A non-empty run of non-whitespace characters. */
  predicate IsWord(w: string) {
    w != [] && forall i :: 0 <= i < |w| ==> !IsSpace(w[i])
  }

  /** `sep.join(parts)`. */
  function Join(parts: seq<string>, sep: string): string {
    if |parts| == 0 then ""
    else if |parts| == 1 then parts[0]
    else parts[0] + sep + Join(parts[1..], sep)
  }

  /** `s * n`. */
  function Repeat(s: string, n: nat): (r: string)
    ensures |r| == n * |s|
  {
    if n == 0 then "" else s + Repeat(s, n - 1)
  }

  /** The characters in `s * n` are those of `s`. */
  lemma {:induction false} RepeatChar(s: string, n: nat, j: nat) returns (i: nat)
    requires j < |Repeat(s, n)|
    ensures i < |s| && Repeat(s, n)[j] == s[i]
    decreases n
  {
    if j < |s| {
      i := j;
    } else {
      i := RepeatChar(s, n - 1, j - |s|);
    }
  }

  /** `s * n` ends with the last character of `s`. */
  lemma {:induction false} RepeatLast(s: string, n: nat)
    requires |s| > 0 && n > 0
    ensures Repeat(s, n)[|Repeat(s, n)| - 1] == s[|s| - 1]
    decreases n
  {
    if n > 1 {
      RepeatLast(s, n - 1);
    }
  }

  /** An ASCII decimal digit. */
  predicate IsDigit(c: char) {
    '0' <= c <= '9'
  }

  lemma DigitIsNoSpace(c: char)
    requires IsDigit(c)
    ensures !IsSpace(c) && c != '+' && c != '-' && c != '_'
  {
  }

  predicate AllDigits(s: string) {
    forall i :: 0 <= i < |s| ==> IsDigit(s[i])
  }

  /** The number a string of decimal digits spells, most significant digit first. */
  function DigitsValue(s: string): nat
    requires AllDigits(s)
  {
    if |s| == 0 then 0
    else 10 * DigitsValue(s[..|s| - 1]) + (s[|s| - 1] as int - '0' as int)
  }

  /** `s` without the characters that are not digits. */
  function Digits(s: string): (r: string)
    ensures AllDigits(r)
  {
    if |s| == 0 then ""
    else Digits(s[..|s| - 1]) + (if IsDigit(s[|s| - 1]) then [s[|s| - 1]] else "")
  }

  lemma {:induction false} DigitsOfDigits(s: string)
    requires AllDigits(s)
    ensures Digits(s) == s
  {
    if |s| > 0 {
      DigitsOfDigits(s[..|s| - 1]);
      assert s[..|s| - 1] + [s[|s| - 1]] == s;
    }
  }

  /**
   * What `int()` reads after an optional sign: digits, where single underscores may
   * separate two of them (so none leads, none ends the run, and no two are adjacent).
   */
  predicate IsDigitRun(s: string) {
    |s| > 0 && IsDigit(s[0]) && IsDigit(s[|s| - 1]) &&
    (forall i :: 0 <= i < |s| ==> IsDigit(s[i]) || s[i] == '_') && !Contains(s, "__")
  }

  /** A non-empty string of digits is a run `int()` reads. */
  lemma DigitsAreRun(s: string)
    requires |s| > 0 && AllDigits(s)
    ensures IsDigitRun(s)
  {
    NoUnderscorePair(s);
  }

  lemma {:induction false} NoUnderscorePair(s: string)
    requires AllDigits(s)
    ensures !Contains(s, "__")
    decreases |s|
  {
    if |s| > 0 {
      NoUnderscorePair(s[1..]);
      if |s| >= 2 {
        assert s[..2][0] == s[0];
      }
    }
  }

  /** `strip()` leaves a string without whitespace at either end as it is. */
  lemma StripUnchanged(s: string)
    requires |s| > 0 && !IsSpace(s[0]) && !IsSpace(s[|s| - 1])
    ensures Strip(s) == s
  {
    assert LStrip(s) == s;
  }

  /** `strip()` only removes whitespace: any other character of `s` is still there. */
  lemma StripKeepsChar(s: string, j: nat)
    requires j < |s| && !IsSpace(s[j])
    ensures s[j] in Strip(s)
  {
    var l := LStrip(s);
    LStripSpec(s);
    RStripSpec(l);
    var k := j - (|s| - |l|);
    assert 0 <= k < |l| && l[k] == s[j];
    assert k < |RStrip(l)|;
    assert Strip(s)[k] == s[j];
  }

  function DigitChar(d: nat): char
    requires d < 10
  {
    "0123456789"[d]
  }

  /** `str(n)` for a natural number. */
  function NatToString(n: nat): (r: string)
    ensures |r| > 0
    ensures forall i :: 0 <= i < |r| ==> '0' <= r[i] <= '9'
  {
    if n < 10 then [DigitChar(n)] else NatToString(n / 10) + [DigitChar(n % 10)]
  }

  /** Reading back the digits `str(n)` writes gives `n`. */
  lemma {:induction false} NatToStringValue(n: nat)
    ensures DigitsValue(NatToString(n)) == n
  {
    var t := NatToString(n);
    DigitCharValue(n % 10);
    if n >= 10 {
      NatToStringValue(n / 10);
      assert t[..|t| - 1] == NatToString(n / 10);
    }
  }

  lemma DigitCharValue(d: nat)
    requires d < 10
    ensures DigitChar(d) as int - '0' as int == d
  {
    if d == 0 {} else if d == 1 {} else if d == 2 {} else if d == 3 {} else if d == 4 {}
    else if d == 5 {} else if d == 6 {} else if d == 7 {} else if d == 8 {} else {}
  }

  /** `str(i)` for an integer. */
  function IntToString(i: int): string {
    if i < 0 then "-" + NatToString(-i) else NatToString(i)
  }

  function Pow10(k: nat): (p: nat)
    ensures p >= 1
  {
    if k == 0 then 1 else 10 * Pow10(k - 1)
  }

  /** `d` written with at least `width` digits, padded on the left with zeros. */
  function ZeroPad(d: nat, width: nat): string {
    var t := NatToString(d);
    if |t| >= width then t else Repeat("0", width - |t|) + t
  }

  /** `m * 10^places` rounded half up to a natural number. */
  function ScaledRound(m: real, places: nat): nat {
    var p := Pow10(places) as real;
    var rounded := (m * p + 0.5).Floor;
    if rounded < 0 then 0 else rounded
  }

  /**
   * `f"{x:.{places}f}"`: `x` rounded to `places` decimals, halves rounded away from zero
   * on the exact real value.
   */
  function FormatFixed(x: real, places: nat): string {
    var scaled := ScaledRound(if x < 0.0 then -x else x, places);
    var unit := Pow10(places);
    var body := if places == 0 then NatToString(scaled)
                else NatToString(scaled / unit) + "." + ZeroPad(scaled % unit, places);
    if x < 0.0 then "-" + body else body
  }
}
