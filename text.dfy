// String primitives with Python's semantics: the whitespace classes,
// `str.split`, `str.strip`, `str.lower`/`upper`, substring tests,
// `int()`/`float()` on decimal literals and integer/fixed-point printing.
// Only ASCII is modelled: Python's Unicode whitespace, digits and case
// mappings beyond ASCII are not.
module Text {
  import opened Wrappers

  /** `str.isspace()` / regex `\s` on ASCII: space, \t \n \v \f \r and \x1c-\x1f. */
  predicate IsSpace(c: char)
  {
    c == ' ' || (9 <= c as int <= 13) || (28 <= c as int <= 31)
  }

  predicate IsDigit(c: char)
  {
    '0' <= c <= '9'
  }

  /** Regex `\w` on ASCII: letters, digits and underscore. */
  predicate IsWordChar(c: char)
  {
    IsDigit(c) || ('a' <= c <= 'z') || ('A' <= c <= 'Z') || c == '_'
  }

  predicate NotSpace(c: char)
  {
    !IsSpace(c)
  }

  predicate AllDigits(s: string)
  {
    forall i :: 0 <= i < |s| ==> IsDigit(s[i])
  }

  /** `str.isdigit()`: non-empty and made of digits only. */
  predicate PyIsDigit(s: string)
  {
    |s| > 0 && AllDigits(s)
  }

  /** Python truthiness of an optional string: present and non-empty. */
  predicate Truthy(o: Option<string>)
  {
    o.Some? && o.value != ""
  }

  // ---------------------------------------------------------------
  // Case mapping
  // ---------------------------------------------------------------

  function LowerChar(c: char): char
  {
    if 'A' <= c <= 'Z' then (c as int + 32) as char else c
  }

  function UpperChar(c: char): char
  {
    if 'a' <= c <= 'z' then (c as int - 32) as char else c
  }

  function Lower(s: string): string
  {
    seq(|s|, i requires 0 <= i < |s| => LowerChar(s[i]))
  }

  function Upper(s: string): string
  {
    seq(|s|, i requires 0 <= i < |s| => UpperChar(s[i]))
  }

  lemma LowerIdempotent(s: string)
    ensures Lower(Lower(s)) == Lower(s)
  {
    assert forall i :: 0 <= i < |s| ==> LowerChar(LowerChar(s[i])) == LowerChar(s[i]);
  }

  lemma LowerConcat(a: string, b: string)
    ensures Lower(a + b) == Lower(a) + Lower(b)
  {
  }

  // ---------------------------------------------------------------
  // Substrings
  // ---------------------------------------------------------------

  predicate OccursAt(s: string, w: string, i: nat)
  {
    i + |w| <= |s| && s[i..i + |w|] == w
  }

  predicate StartsWith(s: string, p: string)
  {
    |p| <= |s| && s[..|p|] == p
  }

  /** Python's `w in s` for strings: `w` starts at some position of `s`. */
  predicate Contains(s: string, w: string)
    decreases |s|
  {
    StartsWith(s, w) || (|s| > 0 && Contains(s[1..], w))
  }

  /** `Contains` holds exactly when the word occurs at some index. */
  lemma {:induction false} ContainsIff(s: string, w: string)
    ensures Contains(s, w) <==> exists i :: 0 <= i <= |s| && OccursAt(s, w, i)
    decreases |s|
  {
    assert StartsWith(s, w) <==> OccursAt(s, w, 0);
    if |s| > 0 {
      ContainsIff(s[1..], w);
      forall i | 0 <= i <= |s| - 1
        ensures OccursAt(s[1..], w, i) <==> OccursAt(s, w, i + 1)
      {
        if i + |w| <= |s| - 1 {
          assert s[1..][i..i + |w|] == s[i + 1..i + 1 + |w|];
        }
      }
      if exists i :: 0 <= i <= |s| && OccursAt(s, w, i) {
        var i :| 0 <= i <= |s| && OccursAt(s, w, i);
        if i > 0 {
          assert OccursAt(s[1..], w, i - 1);
        }
      }
    }
  }

  lemma ContainsLeft(a: string, b: string, w: string)
    requires Contains(a, w)
    ensures Contains(a + b, w)
  {
    ContainsIff(a, w);
    ContainsIff(a + b, w);
    var i :| 0 <= i <= |a| && OccursAt(a, w, i);
    assert (a + b)[i..i + |w|] == a[i..i + |w|];
    assert OccursAt(a + b, w, i);
  }

  lemma ContainsRight(a: string, b: string, w: string)
    requires Contains(b, w)
    ensures Contains(a + b, w)
  {
    ContainsIff(b, w);
    ContainsIff(a + b, w);
    var i :| 0 <= i <= |b| && OccursAt(b, w, i);
    assert (a + b)[|a| + i..|a| + i + |w|] == b[i..i + |w|];
    assert OccursAt(a + b, w, |a| + i);
  }

  lemma ContainsSelf(w: string)
    ensures Contains(w, w)
  {
    assert StartsWith(w, w);
  }

  /** A word with a character the text lacks does not occur in it. */
  lemma NotContainsMissing(s: string, w: string, c: char)
    requires c in w && c !in s
    ensures !Contains(s, w)
  {
    ContainsIff(s, w);
  }

  /**
   * A word whose first character occurs once in the text, followed by
   * something other than the word's second character, does not occur in it.
   */
  lemma NotContainsUnique(a: string, c: char, b: string, w: string)
    requires |w| >= 2 && w[0] == c && c !in a && c !in b
    requires |b| == 0 || b[0] != w[1]
    ensures !Contains(a + [c] + b, w)
  {
    ContainsIff(a + [c] + b, w);
  }

  /** A word without spaces that occurs in neither half does not occur across a space between them. */
  lemma NotContainsSpaced(a: string, b: string, w: string)
    requires ' ' !in w && !Contains(a, w) && !Contains(b, w)
    ensures !Contains(a + " " + b, w)
  {
    var s := a + " " + b;
    if Contains(s, w) {
      ContainsIff(s, w);
      var i :| 0 <= i <= |s| && OccursAt(s, w, i);
      OccurrenceAroundSpace(a, b, w, i);
      if OccursAt(a, w, i) {
        ContainsAt(a, w, i);
      } else {
        ContainsAt(b, w, i - |a| - 1);
      }
    }
  }

  /** A space-free word found in "a b" lies wholly within `a` or wholly within `b`. */
  lemma OccurrenceAroundSpace(a: string, b: string, w: string, i: nat)
    requires ' ' !in w && OccursAt(a + " " + b, w, i)
    ensures OccursAt(a, w, i) || (i > |a| && OccursAt(b, w, i - |a| - 1))
  {
    var s := a + " " + b;
    if i + |w| <= |a| {
      assert s[i..i + |w|] == a[i..i + |w|];
    } else if i > |a| {
      OccurrenceInRight(a, b, w, i);
    } else {
      CharOfOccurrence(s, w, i, |a|);
    }
  }

  lemma OccurrenceInRight(a: string, b: string, w: string, i: nat)
    requires OccursAt(a + " " + b, w, i) && i > |a|
    ensures OccursAt(b, w, i - |a| - 1)
  {
    var s := a + " " + b;
    var j := i - |a| - 1;
    forall k | 0 <= k < |w|
      ensures w[k] == b[j + k]
    {
      CharOfOccurrence(s, w, i, i + k);
    }
    assert b[j..j + |w|] == w;
  }

  /** The character of an occurrence at a covered position. */
  lemma CharOfOccurrence(s: string, w: string, i: nat, p: nat)
    requires OccursAt(s, w, i) && i <= p < i + |w|
    ensures w[p - i] == s[p] && s[p] in w
  {
    assert w[p - i] == s[i..i + |w|][p - i];
  }

  /** Any occurrence of a word is found by `Contains`. */
  lemma ContainsAt(s: string, w: string, i: nat)
    requires OccursAt(s, w, i)
    ensures Contains(s, w)
  {
    ContainsIff(s, w);
  }

  /** A word already in lower case is found in the lower-casing of any text that holds it. */
  lemma ContainsInLower(pre: string, w: string, post: string)
    requires Lower(w) == w
    ensures Contains(Lower(pre + w + post), w)
  {
    LowerConcat(pre + w, post);
    LowerConcat(pre, w);
    var l := Lower(pre + w + post);
    assert l == Lower(pre) + w + Lower(post);
    assert l[|pre|..|pre| + |w|] == w;
    ContainsAt(l, w, |pre|);
  }

  /** A word holding a letter the text lacks in either case does not occur in its lower-casing. */
  lemma LowerLacks(s: string, w: string, c: char)
    requires 'a' <= c <= 'z' && c in w && c !in s && UpperChar(c) !in s
    ensures !Contains(Lower(s), w)
  {
    LowerMissing(s, c);
    NotContainsMissing(Lower(s), w, c);
  }

  /** A lower-case letter absent from a text in both cases is absent from its lower-casing. */
  lemma LowerMissing(s: string, c: char)
    requires 'a' <= c <= 'z' && c !in s && UpperChar(c) !in s
    ensures c !in Lower(s)
  {
  }

  // ---------------------------------------------------------------
  // Stripping
  // ---------------------------------------------------------------

  function LStripBy(s: string, p: char -> bool): (r: string)
    ensures |r| <= |s|
    ensures |r| > 0 ==> !p(r[0])
  {
    if |s| > 0 && p(s[0]) then LStripBy(s[1..], p) else s
  }

  /** What `LStripBy` keeps is a suffix of the text. */
  lemma {:induction false} LStripSuffix(s: string, p: char -> bool)
    ensures LStripBy(s, p) == s[|s| - |LStripBy(s, p)|..]
  {
    if |s| > 0 && p(s[0]) {
      LStripSuffix(s[1..], p);
      assert s[1..][|s[1..]| - |LStripBy(s[1..], p)|..] == s[|s| - |LStripBy(s, p)|..];
    }
  }

  function RStripBy(s: string, p: char -> bool): (r: string)
    ensures |r| <= |s|
    ensures |r| > 0 ==> !p(r[|r| - 1])
  {
    if |s| > 0 && p(s[|s| - 1]) then RStripBy(s[..|s| - 1], p) else s
  }

  /** `str.strip()` with no argument. */
  function Strip(s: string): string
  {
    RStripBy(LStripBy(s, IsSpace), IsSpace)
  }

  /** `str.rstrip(chars)`. */
  function RStripChars(s: string, cs: set<char>): (r: string)
    ensures |r| <= |s|
  {
    if |s| > 0 && s[|s| - 1] in cs then RStripChars(s[..|s| - 1], cs) else s
  }

  /** `str.strip(chars)`. */
  function StripChars(s: string, cs: set<char>): string
  {
    RStripBy(LStripBy(s, c => c in cs), c => c in cs)
  }

  // ---------------------------------------------------------------
  // Splitting
  // ---------------------------------------------------------------

  function IndexOf(s: string, c: char): (i: nat)
    requires c in s
    ensures i < |s| && s[i] == c && c !in s[..i]
  {
    if s[0] == c then 0 else IndexOf(s[1..], c) + 1
  }

  /** `s.split(sep)` for a one-character separator: never empty. */
  function SplitOn(s: string, sep: char): (r: seq<string>)
    ensures |r| >= 1
    decreases |s|
  {
    if sep in s then
      var i := IndexOf(s, sep);
      [s[..i]] + SplitOn(s[i + 1..], sep)
    else [s]
  }

  /** `sep.join(parts)` for a one-character separator. */
  function JoinOn(parts: seq<string>, sep: char): string
  {
    if |parts| == 0 then ""
    else if |parts| == 1 then parts[0]
    else parts[0] + [sep] + JoinOn(parts[1..], sep)
  }

  /** Splitting at a first separator: the piece before it, then the split of the rest. */
  lemma SplitOnFirst(x: string, sep: char, y: string)
    requires sep !in x
    ensures SplitOn(x + [sep] + y, sep) == [x] + SplitOn(y, sep)
  {
    var s := x + [sep] + y;
    IndexOfAfter(x, sep, y);
    assert s[..|x|] == x;
    assert s[|x| + 1..] == y;
  }

  /** Joining pieces free of the separator and splitting again gives the pieces back. */
  lemma {:induction false} SplitJoin(parts: seq<string>, sep: char)
    requires |parts| >= 1
    requires forall k :: 0 <= k < |parts| ==> sep !in parts[k]
    ensures SplitOn(JoinOn(parts, sep), sep) == parts
  {
    if |parts| > 1 {
      SplitJoin(parts[1..], sep);
      SplitOnFirst(parts[0], sep, JoinOn(parts[1..], sep));
      assert parts == [parts[0]] + parts[1..];
    }
  }

  /** Splitting and re-joining gives the text back; no piece holds the separator. */
  lemma {:induction false} SplitOnJoin(s: string, sep: char)
    ensures JoinOn(SplitOn(s, sep), sep) == s
    ensures forall k :: 0 <= k < |SplitOn(s, sep)| ==> sep !in SplitOn(s, sep)[k]
    decreases |s|
  {
    if sep in s {
      var i := IndexOf(s, sep);
      SplitOnJoin(s[i + 1..], sep);
      var rest := SplitOn(s[i + 1..], sep);
      assert SplitOn(s, sep) == [s[..i]] + rest;
      assert s == s[..i] + [sep] + s[i + 1..];
    }
  }

  function Lines(s: string): seq<string>
  {
    SplitOn(s, '\n')
  }

  /** End of the run of characters satisfying `p` that starts at `i`. */
  function RunEnd(s: string, i: nat, p: char -> bool): (j: nat)
    requires i <= |s|
    ensures i <= j <= |s|
    ensures forall k :: i <= k < j ==> p(s[k])
    ensures j == |s| || !p(s[j])
    decreases |s| - i
  {
    if i < |s| && p(s[i]) then RunEnd(s, i + 1, p) else i
  }

  predicate IsWord(w: string)
  {
    |w| > 0 && forall k :: 0 <= k < |w| ==> !IsSpace(w[k])
  }

  /** `s.split()`: the maximal runs of non-whitespace characters, in order. */
  function Words(s: string): (r: seq<string>)
    ensures forall k :: 0 <= k < |r| ==> IsWord(r[k])
    decreases |s|
  {
    if |s| == 0 then []
    else if IsSpace(s[0]) then Words(s[1..])
    else
      var j := RunEnd(s, 0, NotSpace);
      [s[..j]] + Words(s[j..])
  }

  /**
   * `s.split(None, m)`: at most `m` words, then the rest of the text with
   * its leading whitespace removed (trailing whitespace is kept).
   */
  function SplitMax(s: string, m: nat): (r: seq<string>)
    ensures |r| <= m + 1
    decreases m
  {
    var t := LStripBy(s, IsSpace);
    if |t| == 0 then []
    else if m == 0 then [t]
    else
      var j := RunEnd(t, 0, NotSpace);
      [t[..j]] + SplitMax(t[j..], m - 1)
  }

  // ---------------------------------------------------------------
  // Numbers
  // ---------------------------------------------------------------

  function DigitValue(c: char): nat
  {
    if IsDigit(c) then (c as int - '0' as int) as nat else 0
  }

  function DigitChar(d: nat): char
    requires d < 10
  {
    ('0' as int + d) as char
  }

  function DigitsValue(s: string): nat
  {
    if |s| == 0 then 0 else DigitsValue(s[..|s| - 1]) * 10 + DigitValue(s[|s| - 1])
  }

  /** `int(t)` for a stripped decimal literal: optional sign, then digits. */
  function IntLiteral(t: string): Option<int>
  {
    if |t| > 0 && (t[0] == '-' || t[0] == '+') then
      if PyIsDigit(t[1..]) then
        Some(if t[0] == '-' then -(DigitsValue(t[1..]) as int) else DigitsValue(t[1..]))
      else None
    else if PyIsDigit(t) then Some(DigitsValue(t))
    else None
  }

  /** Python's `int(s)`: surrounding whitespace is ignored; `None` is the ValueError. */
  function PyInt(s: string): Option<int>
  {
    IntLiteral(Strip(s))
  }

  function Pow10(n: nat): (p: nat)
    ensures p >= 1
  {
    if n == 0 then 1 else 10 * Pow10(n - 1)
  }

  /** The value of `ip.fp` for digit strings `ip` and `fp`. */
  function DecimalValue(ip: string, fp: string): real
  {
    DigitsValue(ip) as real + DigitsValue(fp) as real / Pow10(|fp|) as real
  }

  /** Unsigned decimal: digits, optionally a point and more digits, at least one digit. */
  function UnsignedDecimal(u: string): Option<real>
  {
    if '.' in u then
      var i := IndexOf(u, '.');
      var ip, fp := u[..i], u[i + 1..];
      if AllDigits(ip) && AllDigits(fp) && |ip| + |fp| > 0 then Some(DecimalValue(ip, fp))
      else None
    else if PyIsDigit(u) then Some(DigitsValue(u) as real)
    else None
  }

  /** Python's `float(s)` on decimal literals; `None` is the ValueError. */
  function PyFloat(s: string): Option<real>
  {
    var t := Strip(s);
    if |t| > 0 && (t[0] == '-' || t[0] == '+') then
      match UnsignedDecimal(t[1..])
      case None => None
      case Some(v) => Some(if t[0] == '-' then -v else v)
    else UnsignedDecimal(t)
  }

  /** `str(n)` for a natural number. */
  function NatToString(n: nat): (r: string)
    ensures PyIsDigit(r)
  {
    if n < 10 then [DigitChar(n)] else NatToString(n / 10) + [DigitChar(n % 10)]
  }

  /** `str(i)` for an integer. */
  function IntToString(i: int): string
  {
    if i < 0 then "-" + NatToString(-i) else NatToString(i)
  }

  lemma {:induction false} NatToStringValue(n: nat)
    ensures DigitsValue(NatToString(n)) == n
  {
    if n >= 10 {
      NatToStringValue(n / 10);
      var s := NatToString(n / 10) + [DigitChar(n % 10)];
      assert s[..|s| - 1] == NatToString(n / 10);
    }
  }

  /** Printing an integer and reading it back with `int()` is the identity. */
  lemma StripUnpadded(s: string)
    requires |s| > 0 && !IsSpace(s[0]) && !IsSpace(s[|s| - 1])
    ensures Strip(s) == s
  {
    assert LStripBy(s, IsSpace) == s;
  }

  lemma IntToStringRoundTrip(i: int)
    ensures PyInt(IntToString(i)) == Some(i)
  {
    var n: nat := if i < 0 then -i else i;
    NatToStringValue(n);
    if i < 0 {
      ReadNegativeDigits(NatToString(n));
    } else {
      ReadDigits(NatToString(n));
    }
  }

  /** `int()` on a run of digits is its decimal value. */
  lemma ReadDigits(d: string)
    requires PyIsDigit(d)
    ensures PyInt(d) == Some(DigitsValue(d) as int)
  {
    assert IsDigit(d[0]) && IsDigit(d[|d| - 1]);
    StripUnpadded(d);
  }

  /** `int()` on a minus sign followed by digits is the negated value. */
  lemma ReadNegativeDigits(d: string)
    requires PyIsDigit(d)
    ensures PyInt("-" + d) == Some(-(DigitsValue(d) as int))
  {
    var s := "-" + d;
    assert s[1..] == d;
    assert IsDigit(d[|d| - 1]) && s[|s| - 1] == d[|d| - 1];
    StripUnpadded(s);
  }

  /** `f"{i:02d}"`: zero-padded to two characters when 0 <= i < 10. */
  function ZeroPad2(i: int): string
  {
    if 0 <= i < 10 then ['0', DigitChar(i)] else IntToString(i)
  }

  /** Round half to even (Python's `round(x)` on an exact real). */
  function RoundHalfEven(x: real): (r: int)
    ensures r as real - 0.5 <= x <= r as real + 0.5
  {
    var f := x.Floor;
    var d := x - f as real;
    if d < 0.5 then f
    else if d > 0.5 then f + 1
    else if f % 2 == 0 then f else f + 1
  }

  lemma RoundHalfEvenMonotone(x: real, y: real)
    requires x <= y
    ensures RoundHalfEven(x) <= RoundHalfEven(y)
  {
  }

  lemma RoundHalfEvenOfInt(n: int)
    ensures RoundHalfEven(n as real) == n
  {
  }

  /** `f"{x:.1f}"` on an exact real, rounding half to even at the tenths digit. */
  function Fixed1(x: real): string
  {
    var q := RoundHalfEven((if x < 0.0 then -x else x) * 10.0);
    var m: nat := q;
    (if x < 0.0 then "-" else "") + NatToString(m / 10) + "." + [DigitChar(m % 10)]
  }

  /** The fixed-point text holds digits, a point and perhaps a minus sign only. */
  lemma Fixed1Chars(x: real, c: char)
    requires c in Fixed1(x)
    ensures IsDigit(c) || c == '-' || c == '.'
  {
    var q := RoundHalfEven((if x < 0.0 then -x else x) * 10.0);
    var m: nat := q;
    var d := NatToString(m / 10);
    assert Fixed1(x) == (if x < 0.0 then "-" else "") + d + "." + [DigitChar(m % 10)];
    if c in d {
      var k :| 0 <= k < |d| && d[k] == c;
    }
  }

  /** `f"{x:.0f}"` on an exact real, rounding half to even. */
  function Fixed0(x: real): string
  {
    IntToString(RoundHalfEven(x))
  }

  // ---------------------------------------------------------------
  // Reading printed durations back
  // ---------------------------------------------------------------

  function UnitSeconds(u: char): int
  {
    if u == 's' then 1 else if u == 'm' then 60 else if u == 'h' then 3600
    else if u == 'd' then 86400 else 0
  }

  /** Reads one "<int><unit>" field such as "5m" or "-3s". */
  function ReadField(f: string): Option<int>
  {
    if |f| == 0 || UnitSeconds(f[|f| - 1]) == 0 then None
    else
      match PyInt(f[..|f| - 1])
      case None => None
      case Some(v) => Some(v * UnitSeconds(f[|f| - 1]))
  }

  /**
   * Reads a duration printed as one or two space-separated fields
   * ("42s", "3m 07s", "2h 5m", "1d 4h") back into seconds. It is the
   * reference against which the duration printers are checked.
   */
  function ReadDuration(t: string): Option<int>
  {
    ReadFields(SplitOn(t, ' '))
  }

  /** One field, or the sum of two; anything else is unreadable. */
  function ReadFields(fs: seq<string>): Option<int>
  {
    if |fs| == 1 then ReadField(fs[0])
    else if |fs| == 2 && ReadField(fs[0]).Some? && ReadField(fs[1]).Some? then
      Some(ReadField(fs[0]).value + ReadField(fs[1]).value)
    else None
  }

  lemma SplitOnNone(x: string, c: char)
    requires c !in x
    ensures SplitOn(x, c) == [x]
  {
  }

  lemma {:induction false} IndexOfAfter(x: string, c: char, y: string)
    requires c !in x
    ensures c in x + [c] + y && IndexOf(x + [c] + y, c) == |x|
  {
    if |x| > 0 {
      assert (x + [c] + y)[1..] == x[1..] + [c] + y;
      IndexOfAfter(x[1..], c, y);
    }
  }

  lemma SplitOnPair(x: string, c: char, y: string)
    requires c !in x && c !in y
    ensures SplitOn(x + [c] + y, c) == [x, y]
  {
    var s := x + [c] + y;
    IndexOfAfter(x, c, y);
    assert s[..|x|] == x;
    assert s[|x| + 1..] == y;
  }

  lemma NoSpaceInNumber(i: int)
    ensures ' ' !in IntToString(i) && ' ' !in ZeroPad2(i)
  {
    var d := NatToString(if i < 0 then -i else i);
    assert forall k :: 0 <= k < |d| ==> IsDigit(d[k]);
    if i < 0 {
      assert IntToString(i) == "-" + d;
    }
  }

  /** A readable number followed by a unit letter reads as number times unit. */
  lemma ReadFieldOf(x: string, u: char, v: int, p: int)
    requires UnitSeconds(u) != 0 && PyInt(x) == Some(v) && p == v * UnitSeconds(u)
    ensures ReadField(x + [u]) == Some(p)
  {
    var f := x + [u];
    assert f[..|f| - 1] == x && f[|f| - 1] == u;
  }

  lemma PaddedDigitValue(i: int)
    requires 0 <= i < 10
    ensures PyInt(ZeroPad2(i)) == Some(i)
  {
    var z := ZeroPad2(i);
    assert z == ['0', DigitChar(i)];
    assert z[..1] == ['0'];
    assert DigitsValue(z[..1]) == 0;
    assert DigitsValue(z) == i;
    assert PyIsDigit(z);
    StripUnpadded(z);
  }

  lemma PaddedRoundTrip(i: int)
    ensures PyInt(ZeroPad2(i)) == Some(i)
  {
    if 0 <= i < 10 {
      PaddedDigitValue(i);
    } else {
      IntToStringRoundTrip(i);
    }
  }

  /** A printed number followed by a unit is one field, read back as number times unit. */
  lemma ReadPrintedField(x: string, u: char, a: int, p: int)
    requires UnitSeconds(u) != 0
    requires x == IntToString(a) || x == ZeroPad2(a)
    requires p == a * UnitSeconds(u)
    ensures ' ' !in x + [u]
    ensures ReadField(x + [u]) == Some(p)
  {
    NoSpaceInField(x, u, a);
    PrintedRoundTrip(x, a);
    ReadFieldOf(x, u, a, p);
  }

  lemma NoSpaceInField(x: string, u: char, a: int)
    requires UnitSeconds(u) != 0
    requires x == IntToString(a) || x == ZeroPad2(a)
    ensures ' ' !in x + [u]
  {
    NoSpaceInNumber(a);
    assert u != ' ';
  }

  lemma PrintedRoundTrip(x: string, a: int)
    requires x == IntToString(a) || x == ZeroPad2(a)
    ensures PyInt(x) == Some(a)
  {
    if x == IntToString(a) {
      IntToStringRoundTrip(a);
    } else {
      PaddedRoundTrip(a);
    }
  }

  /** Two space-free fields separated by one space are read and summed. */
  lemma ReadFieldPair(f: string, g: string, p: int, q: int)
    requires ' ' !in f && ' ' !in g
    requires ReadField(f) == Some(p) && ReadField(g) == Some(q)
    ensures ReadDuration(f + [' '] + g) == Some(p + q)
  {
    SplitOnPair(f, ' ', g);
    ReadSplitPair(f + [' '] + g, f, g, p, q);
  }

  lemma ReadSplitPair(t: string, f: string, g: string, p: int, q: int)
    requires SplitOn(t, ' ') == [f, g]
    requires ReadField(f) == Some(p) && ReadField(g) == Some(q)
    ensures ReadDuration(t) == Some(p + q)
  {
    ReadFieldsPair([f, g], p, q);
  }

  lemma ReadFieldsPair(fs: seq<string>, p: int, q: int)
    requires |fs| == 2 && ReadField(fs[0]) == Some(p) && ReadField(fs[1]) == Some(q)
    ensures ReadFields(fs) == Some(p + q)
  {
  }

  /**
   * Reading back "<a><u> <b><v>" gives p + q where p and q are the two
   * fields' values; the products are passed in so that the solver does
   * not reason about them non-linearly.
   */
  lemma ReadTwoFields(x: string, u: char, y: string, v: char, a: int, b: int, p: int, q: int)
    requires UnitSeconds(u) != 0 && UnitSeconds(v) != 0
    requires x == IntToString(a) || x == ZeroPad2(a)
    requires y == IntToString(b) || y == ZeroPad2(b)
    requires p == a * UnitSeconds(u) && q == b * UnitSeconds(v)
    ensures ReadDuration(x + [u] + " " + y + [v]) == Some(p + q)
  {
    ReadPrintedField(x, u, a, p);
    ReadPrintedField(y, v, b, q);
    Regroup(x, u, y, v);
    ReadFieldPair(x + [u], y + [v], p, q);
  }

  lemma Regroup(x: string, u: char, y: string, v: char)
    ensures x + [u] + " " + y + [v] == (x + [u]) + [' '] + (y + [v])
  {
  }

  lemma ReadOneField(x: string, u: char, a: int, p: int)
    requires UnitSeconds(u) != 0
    requires x == IntToString(a) || x == ZeroPad2(a)
    requires p == a * UnitSeconds(u)
    ensures ReadDuration(x + [u]) == Some(p)
  {
    ReadPrintedField(x, u, a, p);
    SplitOnNone(x + [u], ' ');
  }

  // ---------------------------------------------------------------
  // Reading numbers back
  // ---------------------------------------------------------------

  /** `float()` of a text starting with a digit and not ending in whitespace is its unsigned reading. */
  lemma ReadUnsigned(u: string)
    requires |u| > 0 && IsDigit(u[0]) && !IsSpace(u[|u| - 1])
    ensures PyFloat(u) == UnsignedDecimal(u)
  {
    StripUnpadded(u);
  }

  lemma ReadDigitsOnly(d: string)
    requires PyIsDigit(d)
    ensures UnsignedDecimal(d) == Some(DigitsValue(d) as real)
  {
    assert '.' !in d by {
      assert forall k :: 0 <= k < |d| ==> IsDigit(d[k]);
    }
  }

  /** Printing a natural number and reading it back with `float()` gives its value. */
  lemma ReadNat(n: nat)
    ensures PyFloat(NatToString(n)) == Some(n as real)
  {
    var d := NatToString(n);
    NatToStringValue(n);
    assert IsDigit(d[0]) && IsDigit(d[|d| - 1]);
    ReadUnsigned(d);
    ReadDigitsOnly(d);
  }

  /** `rstrip(c)` removes one trailing `c` after a digit. */
  lemma RStripOne(s: string, c: char)
    requires |s| > 0 && IsDigit(s[|s| - 1]) && !IsDigit(c)
    ensures RStripChars(s + [c], {c}) == s
  {
    var t := s + [c];
    assert t[..|t| - 1] == s;
  }

  // ---------------------------------------------------------------
  // Regex search and word splitting
  // ---------------------------------------------------------------

  /**
   * `re.search`: the match that `at` finds at the leftmost position from
   * `i` on. `at(s, k)` is the match (if any) of the pattern starting at `k`,
   * already resolved in the regex engine's backtracking order.
   */
  function Search<T>(s: string, i: nat, at: (string, nat) -> Option<T>): Option<T>
    requires i <= |s|
    decreases |s| - i
  {
    match at(s, i)
    case Some(v) => Some(v)
    case None => if i == |s| then None else Search(s, i + 1, at)
  }

  /** The search result is the match at some position, and no earlier position matches. */
  lemma {:induction false} SearchLeftmost<T>(s: string, i: nat, at: (string, nat) -> Option<T>)
    requires i <= |s|
    ensures Search(s, i, at).Some? ==>
      exists k :: i <= k <= |s| && at(s, k) == Search(s, i, at) && forall j :: i <= j < k ==> at(s, j).None?
    ensures Search(s, i, at).None? ==> forall j :: i <= j <= |s| ==> at(s, j).None?
    decreases |s| - i
  {
    if at(s, i).None? && i < |s| {
      SearchLeftmost(s, i + 1, at);
    }
  }

  /** Conversely, a match at `k` with no match before it is the search result. */
  lemma {:induction false} SearchFinds<T>(s: string, i: nat, k: nat, at: (string, nat) -> Option<T>)
    requires i <= k <= |s| && at(s, k).Some?
    requires forall j :: i <= j < k ==> at(s, j).None?
    ensures Search(s, i, at) == at(s, k)
    decreases k - i
  {
    if i < k {
      SearchFinds(s, i + 1, k, at);
    }
  }

  /** A run that stops at `j` ends at `j`. */
  lemma RunEndAt(s: string, i: nat, j: nat, p: char -> bool)
    requires i <= j <= |s|
    requires forall k :: i <= k < j ==> p(s[k])
    requires j == |s| || !p(s[j])
    ensures RunEnd(s, i, p) == j
  {
  }

  /** A run of characters satisfying `p`, then something else: the run from 0 ends where `a` ends. */
  lemma RunOf(a: string, rest: string, p: char -> bool)
    requires forall k :: 0 <= k < |a| ==> p(a[k])
    requires rest == [] || !p(rest[0])
    ensures RunEnd(a + rest, 0, p) == |a|
  {
    var s := a + rest;
    assert forall k :: 0 <= k < |a| ==> s[k] == a[k];
    assert |a| < |s| ==> s[|a|] == rest[0];
    RunEndAt(s, 0, |a|, p);
  }

  /** Stripping leading whitespace removes exactly the leading spaces. */
  lemma {:induction false} LStripSpaces(sp: string, rest: string)
    requires forall k :: 0 <= k < |sp| ==> IsSpace(sp[k])
    requires rest == [] || !IsSpace(rest[0])
    ensures LStripBy(sp + rest, IsSpace) == rest
  {
    var s := sp + rest;
    if |sp| > 0 {
      var tail := sp[1..];
      assert forall k :: 0 <= k < |tail| ==> IsSpace(tail[k]) by {
        forall k | 0 <= k < |tail| ensures IsSpace(tail[k]) {
          assert tail[k] == sp[k + 1];
        }
      }
      LStripSpaces(tail, rest);
      DropConcat(sp, rest);
      assert IsSpace(s[0]);
      assert LStripBy(s, IsSpace) == LStripBy(tail + rest, IsSpace);
    } else {
      assert s == rest by { assert sp == []; }
      LStripNone(rest, IsSpace);
    }
  }

  lemma ConsAppend<T>(xs: seq<T>, x: T)
    requires |xs| > 0
    ensures xs + [x] == [xs[0]] + (xs[1..] + [x])
  {
  }

  lemma DropConcat(a: string, b: string)
    requires |a| > 0
    ensures (a + b)[0] == a[0] && (a + b)[1..] == a[1..] + b
  {
  }

  /** Nothing to strip in front of a text that starts with a kept character. */
  lemma LStripNone(s: string, p: char -> bool)
    requires s == [] || !p(s[0])
    ensures LStripBy(s, p) == s
  {
  }

  /** A word followed by whitespace, or by nothing, is the first word. */
  lemma WordsFront(w: string, rest: string)
    requires IsWord(w)
    requires rest == [] || IsSpace(rest[0])
    ensures Words(w + rest) == [w] + Words(rest)
  {
    var s := w + rest;
    assert forall k :: 0 <= k < |w| ==> NotSpace(s[k]);
    RunEndAt(s, 0, |w|, NotSpace);
    assert s[..|w|] == w && s[|w|..] == rest;
  }

  /** A word and a space in front of the rest add that word in front of the rest's words. */
  lemma WordsSpaced(w: string, rest: string)
    requires IsWord(w)
    ensures Words(w + [' '] + rest) == [w] + Words(rest)
  {
    WordsFront(w, [' '] + rest);
    assert w + [' '] + rest == w + ([' '] + rest);
    assert ([' '] + rest)[1..] == rest;
  }

  /** Splitting words separated by single spaces gives the words back. */
  lemma {:induction false} WordsJoin(ws: seq<string>)
    requires |ws| >= 1
    requires forall k :: 0 <= k < |ws| ==> IsWord(ws[k])
    ensures Words(JoinOn(ws, ' ')) == ws
  {
    if |ws| == 1 {
      WordsFront(ws[0], []);
      assert ws[0] + [] == ws[0];
    } else {
      WordsJoin(ws[1..]);
      WordsSpaced(ws[0], JoinOn(ws[1..], ' '));
      assert ws == [ws[0]] + ws[1..];
    }
  }

  /** `strip(chars)` removes one enclosing character on each side when the inside starts and ends with others. */
  lemma StripEnclosed(open: char, w: string, close: char, cs: set<char>)
    requires open in cs && close in cs && |w| > 0 && w[0] !in cs && w[|w| - 1] !in cs
    ensures StripChars([open] + w + [close], cs) == w
  {
    var s := [open] + w + [close];
    var p := c => c in cs;
    assert s[1..] == w + [close];
    assert LStripBy(s, p) == w + [close];
    assert (w + [close])[..|w|] == w;
    assert RStripBy(w + [close], p) == RStripBy(w, p) == w;
  }

  lemma {:induction false} LStripKeeps(s: string, p: char -> bool, k: nat)
    requires k < |s| && !p(s[k])
    ensures |s| - |LStripBy(s, p)| <= k
  {
    if |s| > 0 && p(s[0]) {
      LStripKeeps(s[1..], p, k - 1);
    }
  }

  lemma {:induction false} RStripKeeps(s: string, p: char -> bool, k: nat)
    requires k < |s| && !p(s[k])
    ensures k < |RStripBy(s, p)|
  {
    if |s| > 0 && p(s[|s| - 1]) {
      RStripKeeps(s[..|s| - 1], p, k);
    }
  }

  /** A text with a non-blank character does not strip to nothing. */
  lemma StripNonBlank(s: string, k: nat)
    requires k < |s| && !IsSpace(s[k])
    ensures Strip(s) != ""
  {
    LStripKeeps(s, IsSpace, k);
    LStripSuffix(s, IsSpace);
    var l := LStripBy(s, IsSpace);
    var k' := k - (|s| - |l|);
    assert l[k'] == s[k];
    RStripKeeps(l, IsSpace, k');
  }

  /** Words each followed by one space: the columns in front of a free-text last column. */
  function Spaced(ws: seq<string>): string
  {
    if |ws| == 0 then "" else ws[0] + " " + Spaced(ws[1..])
  }

  /** A leading space does not change what `split(None, m)` finds. */
  lemma SplitMaxSpace(t: string, m: nat)
    ensures SplitMax(" " + t, m) == SplitMax(t, m)
  {
    assert (" " + t)[1..] == t;
    assert LStripBy(" " + t, IsSpace) == LStripBy(t, IsSpace);
  }

  /** A first word and a space: `split(None, m)` takes that word, then splits the rest once fewer. */
  lemma SplitMaxWord(w: string, tail: string, m: nat)
    requires IsWord(w) && m > 0
    ensures SplitMax(w + " " + tail, m) == [w] + SplitMax(tail, m - 1)
  {
    var s := w + (" " + tail);
    assert w + " " + tail == s;
    assert LStripBy(s, IsSpace) == s;
    assert forall k :: 0 <= k < |w| ==> NotSpace(w[k]);
    RunOf(w, " " + tail, NotSpace);
    assert s[..|w|] == w && s[|w|..] == " " + tail;
    SplitMaxSpace(tail, m - 1);
  }

  lemma SplitMaxCons(w: string, y: string, n: nat, l: seq<string>)
    requires IsWord(w)
    requires SplitMax(y, n) == l
    ensures SplitMax(w + " " + y, n + 1) == [w] + l
  {
    SplitMaxWord(w, y, n + 1);
  }

  lemma SplitMaxLast(rest: string)
    requires |rest| > 0 && !IsSpace(rest[0])
    ensures SplitMax(rest, 0) == [rest]
  {
    assert LStripBy(rest, IsSpace) == rest;
  }

  lemma SpacedCons(w: string, ws: seq<string>, rest: string)
    ensures Spaced([w] + ws) + rest == w + " " + (Spaced(ws) + rest)
  {
    assert ([w] + ws)[1..] == ws;
  }

  /** `split(None, m)` of `m` space-separated words and a last column gives back the words and that column. */
  lemma {:induction false} SplitMaxSpaced(ws: seq<string>, rest: string, line: string)
    requires forall k :: 0 <= k < |ws| ==> IsWord(ws[k])
    requires |rest| > 0 && !IsSpace(rest[0])
    requires line == Spaced(ws) + rest
    ensures SplitMax(line, |ws|) == ws + [rest]
    decreases |ws|
  {
    if |ws| == 0 {
      SplitMaxSpacedNone(ws, rest, line);
    } else {
      var tail := ws[1..];
      var y := Spaced(tail) + rest;
      assert forall k :: 0 <= k < |tail| ==> IsWord(tail[k]) by {
        forall k | 0 <= k < |tail| ensures IsWord(tail[k]) {
          assert tail[k] == ws[k + 1];
        }
      }
      SplitMaxSpaced(tail, rest, y);
      SplitMaxSpacedStep(ws, rest, line, y);
    }
  }

  lemma SplitMaxSpacedNone(ws: seq<string>, rest: string, line: string)
    requires |ws| == 0
    requires |rest| > 0 && !IsSpace(rest[0])
    requires line == Spaced(ws) + rest
    ensures SplitMax(line, |ws|) == ws + [rest]
  {
    assert ws == [];
    assert line == rest by { assert Spaced(ws) == ""; }
    SplitMaxLast(rest);
    assert ws + [rest] == [rest];
  }

  lemma SplitMaxSpacedStep(ws: seq<string>, rest: string, line: string, y: string)
    requires |ws| > 0 && IsWord(ws[0])
    requires line == Spaced(ws) + rest
    requires y == Spaced(ws[1..]) + rest
    requires SplitMax(y, |ws| - 1) == ws[1..] + [rest]
    ensures SplitMax(line, |ws|) == ws + [rest]
  {
    var tail := ws[1..];
    var a := ws[0] + " " + y;
    assert line == a by {
      SpacedCons(ws[0], tail, rest);
      assert [ws[0]] + tail == ws;
    }
    assert SplitMax(a, |ws|) == [ws[0]] + (tail + [rest]) by {
      SplitMaxCons(ws[0], y, |tail|, tail + [rest]);
    }
    assert [ws[0]] + (tail + [rest]) == ws + [rest] by {
      ConsAppend(ws, rest);
    }
  }
}
