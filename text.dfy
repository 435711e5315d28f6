/** String helpers shared by the message, configuration and client modules:
    splitting at a separator, joining, positional digit strings, decimal
    rendering of integers, ASCII case folding and Python's whitespace class. */
module Text {
  import opened Wrappers

  // ---------------------------------------------------------------------------
  // Splitting and joining

  /** `Join(parts, sep)` is Python's `sep.join(parts)`. */
  function Join(parts: seq<string>, sep: string): string
    decreases |parts|
  {
    if |parts| == 0 then ""
    else if |parts| == 1 then parts[0]
    else parts[0] + sep + Join(parts[1..], sep)
  }

  /** Number of occurrences of `c` in `s`. */
  function Occurrences(s: string, c: char): nat
    decreases |s|
  {
    if s == [] then 0 else (if s[0] == c then 1 else 0) + Occurrences(s[1..], c)
  }

  /** `Split(s, sep)` is Python's `s.split(sep)` for a one-character separator:
      the pieces between separators, an empty piece where two separators meet
      or where one stands at either end, and joining them back gives `s`. */
  function Split(s: string, sep: char): (parts: seq<string>)
    ensures |parts| == Occurrences(s, sep) + 1
    ensures forall i :: 0 <= i < |parts| ==> sep !in parts[i]
    ensures Join(parts, [sep]) == s
    decreases |s|
  {
    if s == [] then [""]
    else
      var rest := Split(s[1..], sep);
      if s[0] == sep then
        assert Join([""] + rest, [sep]) == [sep] + Join(rest, [sep]);
        [""] + rest
      else
        var parts := [[s[0]] + rest[0]] + rest[1..];
        assert parts[1..] == rest[1..];
        parts
  }

  /** Joining a piece in front of at least one more puts the separator between them. */
  lemma JoinCons(x: string, rest: seq<string>, sep: string)
    requires rest != []
    ensures Join([x] + rest, sep) == x + sep + Join(rest, sep)
  {
    assert ([x] + rest)[1..] == rest;
  }

  /** Splitting undoes joining when no piece contains the separator. */
  lemma {:induction false} SplitJoin(parts: seq<string>, sep: char)
    requires |parts| >= 1
    requires forall i :: 0 <= i < |parts| ==> sep !in parts[i]
    ensures Split(Join(parts, [sep]), sep) == parts
    decreases |parts|
  {
    if |parts| == 1 {
      SplitNoSeparator(parts[0], sep);
    } else {
      SplitJoin(parts[1..], sep);
      SplitAfterPiece(parts[0], Join(parts[1..], [sep]), sep);
      assert Join(parts, [sep]) == parts[0] + [sep] + Join(parts[1..], [sep]);
      assert [parts[0]] + parts[1..] == parts;
    }
  }

  /** A string without the separator splits into itself alone. */
  lemma {:induction false} SplitNoSeparator(s: string, sep: char)
    requires sep !in s
    ensures Split(s, sep) == [s]
    decreases |s|
  {
    if s != [] {
      assert sep !in s[1..];
      SplitNoSeparator(s[1..], sep);
      assert [s[0]] + s[1..] == s;
    }
  }

  /** Splitting `a + [sep] + b`, where `a` has no separator, yields `a` and then
      the pieces of `b`. */
  lemma {:induction false} SplitAfterPiece(a: string, b: string, sep: char)
    requires sep !in a
    ensures Split(a + [sep] + b, sep) == [a] + Split(b, sep)
    decreases |a|
  {
    if a == [] {
      assert a + [sep] + b == [sep] + b;
      assert ([sep] + b)[1..] == b;
    } else {
      var s := a + [sep] + b;
      assert s[0] == a[0] && s[1..] == a[1..] + [sep] + b;
      assert sep !in a[1..];
      SplitAfterPiece(a[1..], b, sep);
      assert [a[0]] + a[1..] == a;
    }
  }

  // ---------------------------------------------------------------------------
  // Substrings

  /** `sub` occurs somewhere in `s` (Python's `sub in s`). */
  predicate Contains(s: string, sub: string) {
    exists i | 0 <= i <= |s| :: sub <= s[i..]
  }

  /** A string contains every piece it is built from. */
  lemma ContainsMiddle(a: string, sub: string, b: string)
    ensures Contains(a + sub + b, sub)
  {
    var s := a + sub + b;
    assert sub <= s[|a|..];
  }

  /** A string contains each of its prefixes. */
  lemma ContainsPrefix(a: string, b: string)
    ensures Contains(a + b, a)
  {
    assert a <= (a + b)[0..];
  }

  /** Containment is transitive. */
  lemma ContainsWithin(s: string, mid: string, sub: string)
    requires Contains(s, mid) && Contains(mid, sub)
    ensures Contains(s, sub)
  {
    var i :| 0 <= i <= |s| && mid <= s[i..];
    var j :| 0 <= j <= |mid| && sub <= mid[j..];
    assert sub <= s[i + j..];
  }

  // ---------------------------------------------------------------------------
  // Positional digit strings (bases 2 to 16)

  type Base = b: nat | 2 <= b <= 16 witness 10

  /** The value of one digit character in `base`, accepting both cases of the
      letters a to f; None for a character that is not a digit of that base. */
  function DigitValue(c: char, base: Base): (d: Option<nat>)
    ensures d.Some? ==> d.value < base
  {
    var v :=
      if '0' <= c <= '9' then c as int - '0' as int
      else if 'a' <= c <= 'f' then c as int - 'a' as int + 10
      else if 'A' <= c <= 'F' then c as int - 'A' as int + 10
      else 16;
    if v < base then Some(v) else None
  }

  predicate AllDigits(s: string, base: Base) {
    forall i :: 0 <= i < |s| ==> DigitValue(s[i], base).Some?
  }

  /** The value of an all-digit string, most significant digit first. */
  function DigitsValue(s: string, base: Base): nat
    requires AllDigits(s, base)
    decreases |s|
  {
    if s == [] then 0
    else DigitsValue(s[..|s| - 1], base) * base + DigitValue(s[|s| - 1], base).value
  }

  /** Parses a non-empty string made only of digits of `base`; anything else
      (the empty string, a sign, a space, an underscore, a prefix) is None. */
  function ParseDigits(s: string, base: Base): (r: Option<nat>)
    ensures r.Some? <==> s != [] && AllDigits(s, base)
  {
    if s != [] && AllDigits(s, base) then Some(DigitsValue(s, base)) else None
  }

  /** The lower-case digit character for `d`. */
  function DigitChar(d: nat): (c: char)
    requires d < 16
    ensures '0' <= c <= '9' || 'a' <= c <= 'f'
  {
    if d < 10 then ('0' as int + d) as char else ('a' as int + d - 10) as char
  }

  lemma DivModBase(n: nat, base: Base)
    ensures n / base <= n && n % base < base && n / base * base + n % base == n
    ensures n >= base ==> n / base < n
  {
  }

  /** The digits of `n` in `base`, most significant first, without leading zeros. */
  function FormatNat(n: nat, base: Base): (s: string)
    ensures s != []
    ensures '0' <= s[0] <= '9' || 'a' <= s[0] <= 'f'
    decreases n
  {
    DivModBase(n, base);
    if n < base then [DigitChar(n)]
    else FormatNat(n / base, base) + [DigitChar(n % base)]
  }

  lemma DigitCharValue(d: nat, base: Base)
    requires d < base
    ensures DigitValue(DigitChar(d), base) == Some(d)
  {
  }

  /** Parsing the digits that `FormatNat` writes gives the number back. */
  lemma {:induction false} ParseFormat(n: nat, base: Base)
    ensures AllDigits(FormatNat(n, base), base)
    ensures ParseDigits(FormatNat(n, base), base) == Some(n)
    decreases n
  {
    DivModBase(n, base);
    DigitCharValue(n % base, base);
    if n >= base {
      ParseFormat(n / base, base);
      var s := FormatNat(n, base);
      var p := FormatNat(n / base, base);
      assert s == p + [DigitChar(n % base)];
      assert s[..|s| - 1] == p;
      assert AllDigits(s, base) by {
        forall i | 0 <= i < |s| ensures DigitValue(s[i], base).Some? {
          if i < |p| { assert s[i] == p[i]; }
        }
      }
      assert DigitsValue(s, base) == DigitsValue(p, base) * base + n % base;
    } else {
      DigitCharValue(n, base);
      var s := FormatNat(n, base);
      assert s == [DigitChar(n)] && s[..0] == [];
      assert DigitsValue(s, base) == n;
    }
  }

  // ---------------------------------------------------------------------------
  // Decimal rendering of integers (Python's str(n) / f"{n}")

  function IntToDecimal(n: int): (s: string)
    ensures s != []
  {
    if n < 0 then "-" + FormatNat(-n, 10) else FormatNat(n, 10)
  }

  /** Different integers are rendered differently. */
  lemma IntToDecimalInjective(m: int, n: int)
    requires IntToDecimal(m) == IntToDecimal(n)
    ensures m == n
  {
    var s := IntToDecimal(m);
    if m < 0 {
      assert n < 0;
      assert s[1..] == FormatNat(-m, 10) == FormatNat(-n, 10);
      ParseFormat(-m, 10);
      ParseFormat(-n, 10);
    } else {
      assert n >= 0;
      ParseFormat(m, 10);
      ParseFormat(n, 10);
    }
  }

  // ---------------------------------------------------------------------------
  // Case folding and whitespace

  /** ASCII lower-casing of one character; other characters are unchanged. */
  function LowerChar(c: char): char {
    if 'A' <= c <= 'Z' then (c as int - 'A' as int + 'a' as int) as char else c
  }

  function Lower(s: string): (r: string)
    ensures |r| == |s|
    ensures forall i :: 0 <= i < |s| ==> r[i] == LowerChar(s[i])
  {
    seq(|s|, i requires 0 <= i < |s| => LowerChar(s[i]))
  }

  /** Digit values ignore letter case, as Python's int() does. */
  lemma {:induction false} DigitsIgnoreCase(s: string, base: Base)
    ensures AllDigits(Lower(s), base) <==> AllDigits(s, base)
    ensures AllDigits(s, base) ==> DigitsValue(Lower(s), base) == DigitsValue(s, base)
    ensures ParseDigits(Lower(s), base) == ParseDigits(s, base)
    decreases |s|
  {
    var l := Lower(s);
    forall i | 0 <= i < |s|
      ensures DigitValue(l[i], base) == DigitValue(s[i], base)
    {
    }
    if s != [] {
      var p := s[..|s| - 1];
      assert Lower(p) == l[..|s| - 1];
      DigitsIgnoreCase(p, base);
    }
  }

  /** The characters Python's str.strip() removes when given no argument. */
  predicate IsPythonSpace(c: char) {
    || ('\t' <= c <= '\r')
    || ('\U{1C}' <= c <= ' ')
    || c == '\U{85}' || c == '\U{A0}' || c == '\U{1680}'
    || ('\U{2000}' <= c <= '\U{200A}')
    || c == '\U{2028}' || c == '\U{2029}' || c == '\U{202F}' || c == '\U{205F}' || c == '\U{3000}'
  }

  /** `not s or not s.strip()`: empty, or whitespace only. */
  predicate IsBlank(s: string) {
    forall i :: 0 <= i < |s| ==> IsPythonSpace(s[i])
  }
}
