/** ASCII stand-ins for the string operations the core relies on: JavaScript's
    toLowerCase, trim, split, endsWith and parseInt, Python's lower, and the
    decimal rendering of integers in template literals and f-strings.
    Case folding and white space are ASCII-only. */
module Text {

  import opened Wrappers

  // ---------------------------------------------------------------------------
  // Characters

  /** White space skipped by trim and parseInt (ASCII part of StrWhiteSpaceChar). */
  predicate IsSpace(c: char) {
    c == ' ' || c == '\t' || c == '\n' || c == '\r' || c as int == 11 || c as int == 12
  }

  predicate IsUpper(c: char) {
    'A' <= c <= 'Z'
  }

  function LowerChar(c: char): (d: char)
    ensures IsUpper(c) ==> d as int == c as int + 32
    ensures !IsUpper(c) ==> d == c
  {
    if IsUpper(c) then (c as int + 32) as char else c
  }

  /** toLowerCase / str.lower, character by character. */
  function Lower(s: string): (r: string)
    ensures |r| == |s|
  {
    seq(|s|, i requires 0 <= i < |s| => LowerChar(s[i]))
  }

  lemma LowerAppend(a: string, b: string)
    ensures Lower(a + b) == Lower(a) + Lower(b)
  {
    var l, r := Lower(a + b), Lower(a) + Lower(b);
    forall i | 0 <= i < |l| ensures l[i] == r[i] {
      if i < |a| { assert (a + b)[i] == a[i]; } else { assert (a + b)[i] == b[i - |a|]; }
    }
  }

  lemma LowerIdempotent(s: string)
    ensures Lower(Lower(s)) == Lower(s)
  {
  }

  /** Lowering leaves every non-letter where it was, so it neither creates nor
      removes separators such as '+' and white space. */
  lemma LowerKeepsNonLetters(s: string, c: char)
    requires !IsUpper(c) && !('a' <= c <= 'z')
    ensures c in Lower(s) <==> c in s
  {
    if c in Lower(s) {
      var i :| 0 <= i < |s| && Lower(s)[i] == c;
      assert s[i] == c;
    }
    if c in s {
      var i :| 0 <= i < |s| && s[i] == c;
      assert Lower(s)[i] == c;
    }
  }

  predicate EndsWith(s: string, suffix: string) {
    |suffix| <= |s| && s[|s| - |suffix|..] == suffix
  }

  /** Number of occurrences of c in s. */
  function Count(s: string, c: char): nat {
    if |s| == 0 then 0 else (if s[0] == c then 1 else 0) + Count(s[1..], c)
  }

  /** A character that occurs in s is counted at least once. */
  lemma {:induction false} CountPositive(s: string, c: char)
    requires c in s
    ensures Count(s, c) >= 1
    decreases |s|
  {
    if s[0] != c {
      assert c in s[1..] by {
        var i :| 0 <= i < |s| && s[i] == c;
        assert s[1..][i - 1] == c;
      }
      CountPositive(s[1..], c);
    }
  }

  // ---------------------------------------------------------------------------
  // trim

  /** Drops leading white space: the result is the suffix of s that starts at the
      first non-space character. */
  function TrimStart(s: string): (r: string)
    ensures |r| <= |s| && r == s[|s| - |r|..]
    ensures forall k :: 0 <= k < |s| - |r| ==> IsSpace(s[k])
    ensures |r| > 0 ==> !IsSpace(r[0])
  {
    if |s| > 0 && IsSpace(s[0]) then TrimStart(s[1..]) else s
  }

  /** Drops trailing white space: the result is the prefix of s that ends at the
      last non-space character. */
  function TrimEnd(s: string): (r: string)
    ensures |r| <= |s| && r == s[..|r|]
    ensures forall k :: |r| <= k < |s| ==> IsSpace(s[k])
    ensures |r| > 0 ==> !IsSpace(r[|r| - 1])
  {
    if |s| > 0 && IsSpace(s[|s| - 1]) then TrimEnd(s[..|s| - 1]) else s
  }

  /** String.prototype.trim. */
  function Trim(s: string): (r: string)
  {
    TrimEnd(TrimStart(s))
  }

  /** No white space at either end. */
  predicate Trimmed(s: string) {
    |s| == 0 || (!IsSpace(s[0]) && !IsSpace(s[|s| - 1]))
  }

  /** trim removes exactly the white space around s: it is the identity on trimmed
      strings and strips any white-space padding from them. */
  lemma TrimPadded(pre: string, s: string, post: string)
    requires forall k :: 0 <= k < |pre| ==> IsSpace(pre[k])
    requires forall k :: 0 <= k < |post| ==> IsSpace(post[k])
    requires Trimmed(s) && |s| > 0
    ensures Trim(pre + s + post) == s
  {
    var t := pre + s + post;
    var a := TrimStart(t);
    // TrimStart stops exactly at s[0]: everything before it is a space, s[0] is not.
    assert t[|pre|] == s[0];
    assert forall k :: 0 <= k < |pre| ==> t[k] == pre[k];
    assert a == t[|pre|..];
    assert t[|pre|..] == s + post;
    var b := TrimEnd(a);
    assert a[|s| - 1] == s[|s| - 1];
    assert forall k :: |s| <= k < |a| ==> a[k] == post[k - |s|];
    assert b == a[..|s|];
  }

  // ---------------------------------------------------------------------------
  // split and join

  /** String.prototype.split with a non-empty separator: scans left to right and
      cuts at every non-overlapping occurrence of sep. */
  function Split(s: string, sep: string): (r: seq<string>)
    requires |sep| > 0
    ensures |r| >= 1
    decreases |s|
  {
    if |s| < |sep| then [s]
    else if s[..|sep|] == sep then [""] + Split(s[|sep|..], sep)
    else
      var rest := Split(s[1..], sep);
      [[s[0]] + rest[0]] + rest[1..]
  }

  /** Array.prototype.join. */
  function Join(parts: seq<string>, sep: string): string {
    if |parts| == 0 then ""
    else if |parts| == 1 then parts[0]
    else parts[0] + sep + Join(parts[1..], sep)
  }

  /** Prefixing the first piece with c prefixes the joined string with c. */
  lemma JoinConsFirst(c: char, parts: seq<string>, sep: string)
    requires |parts| >= 1
    ensures Join([[c] + parts[0]] + parts[1..], sep) == [c] + Join(parts, sep)
  {
    var r := [[c] + parts[0]] + parts[1..];
    if |parts| > 1 {
      assert r[1..] == parts[1..];
    }
  }

  /** An empty first piece contributes only the separator. */
  lemma JoinEmptyFirst(parts: seq<string>, sep: string)
    requires |parts| >= 1
    ensures Join([""] + parts, sep) == sep + Join(parts, sep)
  {
    assert ([""] + parts)[1..] == parts;
  }

  /** Joining the pieces of a split with the same separator gives back the string. */
  lemma {:induction false} JoinSplit(s: string, sep: string)
    requires |sep| > 0
    ensures Join(Split(s, sep), sep) == s
    decreases |s|
  {
    if |s| < |sep| {
    } else if s[..|sep|] == sep {
      var tail := s[|sep|..];
      var parts := Split(tail, sep);
      assert Split(s, sep) == [""] + parts;
      JoinSplit(tail, sep);
      JoinEmptyFirst(parts, sep);
      assert s == sep + tail;
    } else {
      var rest := Split(s[1..], sep);
      assert Split(s, sep) == [[s[0]] + rest[0]] + rest[1..];
      JoinSplit(s[1..], sep);
      JoinConsFirst(s[0], rest, sep);
      assert s == [s[0]] + s[1..];
    }
  }

  /** A string without the separator character splits into itself alone. */
  lemma {:induction false} SplitWithout(s: string, c: char)
    requires c !in s
    ensures Split(s, [c]) == [s]
    decreases |s|
  {
    if |s| >= 1 {
      assert s[..1] != [c] by { assert s[..1][0] == s[0]; }
      SplitWithout(s[1..], c);
      assert [s[0]] + s[1..] == s;
    }
  }

  /** The first piece of a split on c is everything before the first c. */
  lemma {:induction false} SplitAt(a: string, c: char, b: string)
    requires c !in a
    ensures Split(a + [c] + b, [c]) == [a] + Split(b, [c])
    decreases |a|
  {
    var s := a + [c] + b;
    if |a| == 0 {
      assert s[..1] == [c];
      assert s[1..] == b;
    } else {
      assert s[..1] != [c] by { assert s[..1][0] == a[0]; }
      assert s[1..] == a[1..] + [c] + b;
      SplitAt(a[1..], c, b);
      assert [a[0]] + a[1..] == a;
    }
  }

  /** Splitting on a single character gives one piece more than it has occurrences. */
  lemma {:induction false} SplitCount(s: string, c: char)
    ensures |Split(s, [c])| == Count(s, c) + 1
    decreases |s|
  {
    if |s| >= 1 {
      SplitCount(s[1..], c);
      if s[0] == c {
        assert s[..1] == [c];
      } else {
        assert s[..1] != [c] by { assert s[..1][0] == s[0]; }
      }
    }
  }

  // ---------------------------------------------------------------------------
  // Decimal rendering and parseInt

  predicate IsDigit(c: char) {
    '0' <= c <= '9'
  }

  function DigitValue(c: char): nat
    requires IsDigit(c)
  {
    c as int - '0' as int
  }

  function DigitChar(d: nat): (c: char)
    requires d < 10
    ensures IsDigit(c) && DigitValue(c) == d
  {
    ('0' as int + d) as char
  }

  /** Decimal digits of n, most significant first, without leading zeros. */
  function NatText(n: nat): (s: string)
    ensures |s| > 0 && forall i :: 0 <= i < |s| ==> IsDigit(s[i])
    decreases n
  {
    if n < 10 then [DigitChar(n)] else NatText(n / 10) + [DigitChar(n % 10)]
  }

  /** `${n}` / f"{n}" for an integer n. */
  function IntText(n: int): (s: string)
    ensures |s| > 0 && !IsSpace(s[0])
  {
    if n < 0 then "-" + NatText(-n) else NatText(n)
  }

  /** Value of a string of decimal digits. */
  function DigitsValue(ds: string): nat
    requires forall i :: 0 <= i < |ds| ==> IsDigit(ds[i])
  {
    if |ds| == 0 then 0 else DigitsValue(ds[..|ds| - 1]) * 10 + DigitValue(ds[|ds| - 1])
  }

  /** Longest prefix of s made of decimal digits. */
  function LeadingDigits(s: string): (r: string)
    ensures |r| <= |s| && r == s[..|r|]
    ensures forall i :: 0 <= i < |r| ==> IsDigit(r[i])
    ensures |r| < |s| ==> !IsDigit(s[|r|])
  {
    if |s| > 0 && IsDigit(s[0]) then [s[0]] + LeadingDigits(s[1..]) else []
  }

  predicate IsHexDigit(c: char) {
    IsDigit(c) || 'a' <= c <= 'f' || 'A' <= c <= 'F'
  }

  function HexDigitValue(c: char): nat
    requires IsHexDigit(c)
  {
    if IsDigit(c) then DigitValue(c)
    else if 'a' <= c <= 'f' then c as int - 'a' as int + 10
    else c as int - 'A' as int + 10
  }

  function LeadingHexDigits(s: string): (r: string)
    ensures |r| <= |s| && forall i :: 0 <= i < |r| ==> IsHexDigit(r[i])
  {
    if |s| > 0 && IsHexDigit(s[0]) then [s[0]] + LeadingHexDigits(s[1..]) else []
  }

  function HexValue(ds: string): nat
    requires forall i :: 0 <= i < |ds| ==> IsHexDigit(ds[i])
  {
    if |ds| == 0 then 0 else HexValue(ds[..|ds| - 1]) * 16 + HexDigitValue(ds[|ds| - 1])
  }

  /** Sign handling shared by both forms of parseInt: the sign and what follows it. */
  function SplitSign(t: string): (int, string) {
    if |t| > 0 && t[0] == '-' then (-1, t[1..])
    else if |t| > 0 && t[0] == '+' then (1, t[1..])
    else (1, t)
  }

  /** parseInt(s, 10): skip white space, an optional sign, then the longest run of
      decimal digits; no digit at all is NaN (None). */
  function ParseInt(s: string): (r: Option<int>)
    ensures r.None? <==> |LeadingDigits(SplitSign(TrimStart(s)).1)| == 0
  {
    var (sign, rest) := SplitSign(TrimStart(s));
    var ds := LeadingDigits(rest);
    if |ds| == 0 then None else Some(sign * DigitsValue(ds))
  }

  /** parseInt(s) with no radix: as ParseInt, except that a "0x"/"0X" after the sign
      switches to hexadecimal. */
  function ParseIntAuto(s: string): (r: Option<int>)
  {
    var (sign, rest) := SplitSign(TrimStart(s));
    if |rest| >= 2 && rest[0] == '0' && (rest[1] == 'x' || rest[1] == 'X') then
      var ds := LeadingHexDigits(rest[2..]);
      if |ds| == 0 then None else Some(sign * HexValue(ds))
    else
      var ds := LeadingDigits(rest);
      if |ds| == 0 then None else Some(sign * DigitsValue(ds))
  }

  /** A string that starts with neither white space, a sign nor a digit, such as
      "undefined", parses to NaN. */
  lemma ParseIntNoDigits(s: string)
    requires |s| > 0 && !IsSpace(s[0]) && !IsDigit(s[0]) && s[0] != '-' && s[0] != '+'
    ensures ParseInt(s).None?
  {
    assert TrimStart(s) == s;
  }

  /** `${n}` for a parseInt result: NaN renders as "NaN". */
  function NumberText(n: Option<int>): string {
    match n
    case None => "NaN"
    case Some(v) => IntText(v)
  }

  lemma {:induction false} NatTextValue(n: nat)
    ensures DigitsValue(NatText(n)) == n
    decreases n
  {
    if n >= 10 {
      var s := NatText(n);
      NatTextValue(n / 10);
      assert s[..|s| - 1] == NatText(n / 10);
    }
  }

  lemma {:induction false} AllDigitsLead(s: string)
    requires forall i :: 0 <= i < |s| ==> IsDigit(s[i])
    ensures LeadingDigits(s) == s
    decreases |s|
  {
    if |s| > 0 {
      AllDigitsLead(s[1..]);
      assert [s[0]] + s[1..] == s;
    }
  }

  /** The rendering of an integer has no leading white space and splits into its
      sign and the digits of its magnitude. */
  lemma SignedText(n: int)
    ensures SplitSign(TrimStart(IntText(n))) == (if n < 0 then -1 else 1, NatText(if n < 0 then -n else n))
  {
    assert TrimStart(IntText(n)) == IntText(n);
    if n < 0 {
      assert IntText(n)[1..] == NatText(-n);
    }
  }

  /** After white space and sign, a run of decimal digits without a leading zero
      (unless it is the only digit) parses to its value in both forms of parseInt. */
  lemma ParseDigitRun(s: string, sign: int, ds: string)
    requires SplitSign(TrimStart(s)) == (sign, ds)
    requires |ds| > 0 && forall i :: 0 <= i < |ds| ==> IsDigit(ds[i])
    requires |ds| == 1 || ds[0] != '0'
    ensures ParseInt(s) == Some(sign * DigitsValue(ds))
    ensures ParseIntAuto(s) == Some(sign * DigitsValue(ds))
  {
    AllDigitsLead(ds);
  }

  /** The decimal digits of m, after the given sign, read back as sign * m. */
  lemma ParseMagnitude(n: int, m: nat, sign: int)
    requires m == (if n < 0 then -n else n) && sign == (if n < 0 then -1 else 1)
    ensures ParseInt(IntText(n)) == Some(sign * m)
    ensures ParseIntAuto(IntText(n)) == Some(sign * m)
  {
    SignedText(n);
    NatTextValue(m);
    if m >= 10 {
      NatTextNoLeadingZero(m);
    }
    ParseDigitRun(IntText(n), sign, NatText(m));
  }

  /** parseInt, with or without radix 10, reads back the decimal rendering of any
      integer: `${n}` followed by parseInt is the identity. */
  lemma ParseIntText(n: int)
    ensures ParseInt(IntText(n)) == Some(n)
    ensures ParseIntAuto(IntText(n)) == Some(n)
  {
    if n < 0 {
      ParseMagnitude(n, -n, -1);
    } else {
      ParseMagnitude(n, n, 1);
    }
  }

  /** A rendering of more than one digit does not start with '0'. */
  lemma {:induction false} NatTextNoLeadingZero(n: nat)
    requires n >= 10
    ensures NatText(n)[0] != '0'
    decreases n
  {
    if n / 10 >= 10 {
      NatTextNoLeadingZero(n / 10);
    }
  }
}
