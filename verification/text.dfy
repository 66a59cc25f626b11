/**
 * The JavaScript string operations the worksheet code relies on: whitespace
 * (the `\s` class, also used by `trim`), `trim`, `split` on one character,
 * `includes`, `toLowerCase`, `padStart`/`padEnd`, the digit regular
 * expressions and `parseInt` as section 19.2.5 of ECMA-262 defines it.
 */
module Text {
  import opened Options
  import opened Digits

  /** `Array.from({ length: n }, ...)` has no element for a negative n. */
  function Count(n: int): nat
  {
    if n < 0 then 0 else n
  }

  /** WhiteSpace and LineTerminator code points of ECMA-262 (the `\s` class). */
  predicate IsJsWhitespace(c: char)
  {
    var k := c as int;
    k == 0x09 || k == 0x0A || k == 0x0B || k == 0x0C || k == 0x0D || k == 0x20
    || k == 0xA0 || k == 0x1680 || (0x2000 <= k <= 0x200A) || k == 0x2028
    || k == 0x2029 || k == 0x202F || k == 0x205F || k == 0x3000 || k == 0xFEFF
  }

  predicate NoWhitespace(s: string)
  {
    forall i :: 0 <= i < |s| ==> !IsJsWhitespace(s[i])
  }

  /** `s.trimStart()`: drops the leading whitespace and nothing else. */
  function TrimStart(s: string): (r: string)
    ensures |r| <= |s| && r == s[|s| - |r|..]
    ensures forall i :: 0 <= i < |s| - |r| ==> IsJsWhitespace(s[i])
    ensures r == [] || !IsJsWhitespace(r[0])
  {
    if s != [] && IsJsWhitespace(s[0]) then TrimStart(s[1..]) else s
  }

  /** `s.trimEnd()` (also `s.replace(/\s+$/, "")`): drops the trailing whitespace and nothing else. */
  function TrimEnd(s: string): (r: string)
    ensures |r| <= |s| && r == s[..|r|]
    ensures forall i :: |r| <= i < |s| ==> IsJsWhitespace(s[i])
    ensures r == [] || !IsJsWhitespace(r[|r| - 1])
  {
    if s != [] && IsJsWhitespace(s[|s| - 1]) then TrimEnd(s[..|s| - 1]) else s
  }

  /** `s.trim()`. */
  function Trim(s: string): string
  {
    TrimEnd(TrimStart(s))
  }

  /** Trimming removes only whitespace, and leaves nothing blank at either end. */
  lemma {:induction false} TrimShape(s: string)
    ensures var r := Trim(s);
      (r == [] || (!IsJsWhitespace(r[0]) && !IsJsWhitespace(r[|r| - 1])))
      && exists i :: 0 <= i <= |s| && OccursAt(s, r, i)
  {
    var t := TrimStart(s);
    var r := TrimEnd(t);
    assert r == [] || r[0] == t[0];
    var i := |s| - |t|;
    assert t == s[i..];
    assert r == t[..|r|];
    assert s[i..i + |r|] == r;
    assert OccursAt(s, r, i);
  }

  /** A string that has content at both ends is its own trim. */
  lemma {:induction false} TrimOfTrimmed(s: string)
    requires s == [] || (!IsJsWhitespace(s[0]) && !IsJsWhitespace(s[|s| - 1]))
    ensures Trim(s) == s
  {
  }

  /** `s.trim() === ""`: the string has no non-whitespace character. */
  lemma {:induction false} TrimEmptyIffBlank(s: string)
    ensures Trim(s) == [] <==> forall i :: 0 <= i < |s| ==> IsJsWhitespace(s[i])
  {
    var t := TrimStart(s);
    if t != [] {
      assert !IsJsWhitespace(s[|s| - |t|]);
    }
  }

  /** `s.replace(/\s/g, "")`. */
  function RemoveWhitespace(s: string): (r: string)
    ensures NoWhitespace(r)
    ensures |r| <= |s|
    ensures r == [] <==> forall i :: 0 <= i < |s| ==> IsJsWhitespace(s[i])
  {
    if s == [] then []
    else (if IsJsWhitespace(s[0]) then [] else [s[0]]) + RemoveWhitespace(s[1..])
  }

  /** `s.split(sep)` for a one-character separator. */
  function Split(s: string, sep: char): (parts: seq<string>)
    ensures |parts| >= 1
    ensures forall i :: 0 <= i < |parts| ==> sep !in parts[i]
  {
    if s == [] then [""]
    else
      var rest := Split(s[1..], sep);
      if s[0] == sep then [""] + rest else [[s[0]] + rest[0]] + rest[1..]
  }

  /** `parts.join(sep)`. */
  function Join(parts: seq<string>, sep: char): string
    requires |parts| >= 1
  {
    if |parts| == 1 then parts[0] else parts[0] + [sep] + Join(parts[1..], sep)
  }

  /** Splitting and joining again restore the text. */
  lemma {:induction false} JoinSplit(s: string, sep: char)
    ensures Join(Split(s, sep), sep) == s
  {
    if s != [] {
      JoinSplit(s[1..], sep);
      var rest := Split(s[1..], sep);
      if s[0] != sep {
        if |rest| == 1 {
          assert [s[0]] + rest[0] == s;
        } else {
          assert Join([[s[0]] + rest[0]] + rest[1..], sep)
              == [s[0]] + rest[0] + [sep] + Join(rest[1..], sep);
        }
      }
    }
  }

  /** Joining parts that do not contain the separator and splitting again restore the parts. */
  lemma {:induction false} SplitJoin(parts: seq<string>, sep: char)
    requires |parts| >= 1
    requires forall i :: 0 <= i < |parts| ==> sep !in parts[i]
    ensures Split(Join(parts, sep), sep) == parts
  {
    if |parts| == 1 {
      SplitPlain(parts[0], sep);
    } else {
      SplitJoin(parts[1..], sep);
      SplitPrefix(parts[0], Join(parts[1..], sep), sep);
      assert parts == [parts[0]] + parts[1..];
    }
  }

  /** Joined text ends with the last character of the last part. */
  lemma {:induction false} JoinLast(parts: seq<string>, sep: char)
    requires |parts| >= 1 && |parts[|parts| - 1]| > 0
    ensures |Join(parts, sep)| > 0
    ensures Join(parts, sep)[|Join(parts, sep)| - 1] == parts[|parts| - 1][|parts[|parts| - 1]| - 1]
  {
    if |parts| > 1 {
      JoinLast(parts[1..], sep);
    }
  }

  lemma {:induction false} SplitPlain(s: string, sep: char)
    requires sep !in s
    ensures Split(s, sep) == [s]
  {
    if s != [] {
      SplitPlain(s[1..], sep);
      assert [s[0]] + s[1..] == s;
    }
  }

  lemma {:induction false} SplitPrefix(a: string, b: string, sep: char)
    requires sep !in a
    ensures Split(a + [sep] + b, sep) == [a] + Split(b, sep)
  {
    if a == [] {
      assert [sep] + b == ([] + [sep] + b);
      assert ([sep] + b)[1..] == b;
    } else {
      SplitPrefix(a[1..], b, sep);
      assert (a + [sep] + b)[1..] == a[1..] + [sep] + b;
      assert [a[0]] + a[1..] == a;
    }
  }

  /** sub occurs in s starting at index i. */
  predicate OccursAt(s: string, sub: string, i: nat)
  {
    i + |sub| <= |s| && s[i..i + |sub|] == sub
  }

  /** `s.includes(sub)`. */
  predicate Contains(s: string, sub: string)
  {
    exists i :: 0 <= i <= |s| && OccursAt(s, sub, i)
  }

  lemma {:induction false} ContainsPrefix(s: string, sub: string)
    requires |sub| <= |s| && s[..|sub|] == sub
    ensures Contains(s, sub)
  {
    assert OccursAt(s, sub, 0);
  }

  function LowerChar(c: char): char
  {
    if 'A' <= c <= 'Z' then (c as int + 32) as char else c
  }

  /** `s.toLowerCase()` on the ASCII letters; other characters are kept as they are. */
  function ToLower(s: string): (r: string)
    ensures |r| == |s|
    ensures forall i :: 0 <= i < |s| ==> r[i] == LowerChar(s[i])
  {
    if s == [] then [] else [LowerChar(s[0])] + ToLower(s[1..])
  }

  function Repeat(c: char, n: nat): (r: string)
    ensures |r| == n && forall i :: 0 <= i < n ==> r[i] == c
  {
    if n == 0 then [] else [c] + Repeat(c, n - 1)
  }

  /** `s.padStart(width, fill)` with a one-character fill. */
  function PadStart(s: string, width: int, fill: char): (r: string)
    ensures |r| == if |s| >= width then |s| else width
    ensures r[|r| - |s|..] == s
    ensures forall i :: 0 <= i < |r| - |s| ==> r[i] == fill
  {
    if |s| >= width then s else Repeat(fill, width - |s|) + s
  }

  /** `s.padEnd(width, fill)` with a one-character fill. */
  function PadEnd(s: string, width: int, fill: char): (r: string)
    ensures |r| == if |s| >= width then |s| else width
    ensures r[..|s|] == s
    ensures forall i :: |s| <= i < |r| ==> r[i] == fill
  {
    if |s| >= width then s else s + Repeat(fill, width - |s|)
  }

  /** The regular expression `/^\d+$/`. */
  predicate IsDigitString(s: string)
  {
    |s| > 0 && forall i :: 0 <= i < |s| ==> IsDigitChar(s[i])
  }

  /** The input filter `value === "" || /^\d+$/.test(value)` of the number inputs. */
  predicate AcceptsNumberInput(value: string)
  {
    value == "" || IsDigitString(value)
  }

  // ---------------------------------------------------------------------
  // parseInt(string) with no radix argument (ECMA-262, section 19.2.5)

  /** The value of c as a digit in the given radix (10 or 16), if it is one. */
  function DigitIn(c: char, radix: nat): Option<nat>
  {
    if '0' <= c <= '9' then Some(c as int - 48)
    else if radix == 16 && 'a' <= c <= 'f' then Some(c as int - 87)
    else if radix == 16 && 'A' <= c <= 'F' then Some(c as int - 55)
    else None
  }

  /** Length of the longest prefix of s made of radix digits. */
  function DigitPrefixLength(s: string, radix: nat): (k: nat)
    ensures k <= |s|
    ensures forall i :: 0 <= i < k ==> DigitIn(s[i], radix).Some?
    ensures k == |s| || DigitIn(s[k], radix).None?
  {
    if s != [] && DigitIn(s[0], radix).Some? then 1 + DigitPrefixLength(s[1..], radix) else 0
  }

  /** The value of a string of radix digits, most significant first. */
  function RadixValue(s: string, radix: nat): nat
    requires forall i :: 0 <= i < |s| ==> DigitIn(s[i], radix).Some?
  {
    if s == [] then 0 else radix * RadixValue(s[..|s| - 1], radix) + DigitIn(s[|s| - 1], radix).value
  }

  /** `parseInt(s)`: leading whitespace is skipped; None stands for NaN. */
  function ParseInt(s: string): Option<int>
  {
    ParseSigned(TrimStart(s))
  }

  /** An optional sign, then the magnitude. */
  function ParseSigned(t: string): Option<int>
  {
    if t != [] && t[0] == '-' then
      match ParseMagnitude(t[1..])
      case None => None
      case Some(m) => Some(-m)
    else if t != [] && t[0] == '+' then ParseMagnitude(t[1..])
    else ParseMagnitude(t)
  }

  /** A "0x"/"0X" prefix selects radix 16, anything else radix 10. */
  function ParseMagnitude(u: string): Option<int>
  {
    if |u| >= 2 && u[0] == '0' && (u[1] == 'x' || u[1] == 'X') then ReadDigits(u[2..], 16)
    else ReadDigits(u, 10)
  }

  /** The value of the longest radix-digit prefix; None when it is empty. */
  function ReadDigits(v: string, radix: nat): Option<int>
  {
    var k := DigitPrefixLength(v, radix);
    if k == 0 then None else Some(RadixValue(v[..k], radix))
  }

  lemma {:induction false} RadixValueDecimal(s: string)
    requires forall i :: 0 <= i < |s| ==> IsDigitChar(s[i])
    ensures forall i :: 0 <= i < |s| ==> DigitIn(s[i], 10).Some?
    ensures RadixValue(s, 10) == DecimalValue(s)
  {
    if s != [] {
      RadixValueDecimal(s[..|s| - 1]);
    }
  }

  lemma {:induction false} DigitPrefixOfDigits(d: string, rest: string)
    requires forall i :: 0 <= i < |d| ==> IsDigitChar(d[i])
    requires rest == [] || !IsDigitChar(rest[0])
    ensures DigitPrefixLength(d + rest, 10) == |d|
  {
    if d != [] {
      DigitPrefixOfDigits(d[1..], rest);
      assert (d + rest)[1..] == d[1..] + rest;
    } else {
      assert d + rest == rest;
    }
  }

  /**
   * `parseInt` reads a leading run of decimal digits and ignores what
   * follows it (as long as the run is not the "0x" of a hexadecimal literal).
   */
  lemma {:induction false} ParseIntDigitsThen(d: string, rest: string)
    requires IsDigitString(d)
    requires rest == [] || !IsDigitChar(rest[0])
    requires !(d == "0" && rest != [] && (rest[0] == 'x' || rest[0] == 'X'))
    ensures ParseInt(d + rest) == Some(DecimalValue(d))
  {
    var s := d + rest;
    assert s[0] == d[0];
    assert |s| >= 2 ==> s[1] == if |d| >= 2 then d[1] else rest[0];
    ParseIntOfDigitStart(s);
    DigitPrefixOfDigits(d, rest);
    RadixValueDecimal(d);
    assert s[..|d|] == d;
  }

  /** A minus sign followed by decimal digits is read as the negated decimal value. */
  lemma {:induction false} ParseIntNegativeDigits(d: string)
    requires IsDigitString(d)
    ensures ParseInt("-" + d) == Some(-(DecimalValue(d) as int))
  {
    var s := "-" + d;
    assert TrimStart(s) == s;
    assert s[1..] == d;
    ParseMagnitudeOfDigits(d);
  }

  /** A string of decimal digits, read after the sign, is its decimal value. */
  lemma {:induction false} ParseMagnitudeOfDigits(d: string)
    requires IsDigitString(d)
    ensures ParseMagnitude(d) == Some(DecimalValue(d))
  {
    DigitPrefixOfDigits(d, []);
    assert d + [] == d;
    RadixValueDecimal(d);
    assert d[..|d|] == d;
    assert |d| >= 2 ==> IsDigitChar(d[1]);
  }

  /** A string that starts with a digit, and not with "0x" or "0X", is read as decimal digits from its start. */
  lemma {:induction false} ParseIntOfDigitStart(s: string)
    requires s != [] && IsDigitChar(s[0])
    requires !(|s| >= 2 && s[0] == '0' && (s[1] == 'x' || s[1] == 'X'))
    ensures ParseInt(s) == ReadDigits(s, 10)
  {
    assert TrimStart(s) == s;
    assert ParseSigned(s) == ParseMagnitude(s);
  }

  /** `parseInt` reads back the decimal form of a non-negative integer. */
  lemma {:induction false} ParseIntOfNatToString(n: nat)
    ensures ParseInt(NatToString(n)) == Some(n)
  {
    DecimalValueOfNatToString(n);
    NatToStringDigits(n);
    assert NatToString(n) + "" == NatToString(n);
    ParseIntDigitsThen(NatToString(n), "");
  }

  /** The decimal form of a number is a non-empty run of digits, so it has no whitespace. */
  lemma {:induction false} NatToStringClean(n: nat)
    ensures NatToString(n) != "" && NoWhitespace(NatToString(n))
  {
    NatToStringDigits(n);
  }

  /** A string of spaces followed by a string without whitespace loses exactly the spaces. */
  lemma {:induction false} RemoveLeadingSpaces(k: nat, t: string)
    requires NoWhitespace(t)
    ensures RemoveWhitespace(Repeat(' ', k) + t) == t
  {
    if k == 0 {
      assert Repeat(' ', 0) + t == t;
      NoWhitespaceKept(t);
    } else {
      var s := Repeat(' ', k) + t;
      assert s[0] == ' ' && IsJsWhitespace(' ');
      assert s[1..] == Repeat(' ', k - 1) + t;
      RemoveLeadingSpaces(k - 1, t);
    }
  }

  /** Removing whitespace from a string without any changes nothing. */
  lemma {:induction false} NoWhitespaceKept(t: string)
    requires NoWhitespace(t)
    ensures RemoveWhitespace(t) == t
  {
    if t != [] {
      NoWhitespaceKept(t[1..]);
    }
  }

  /**
   * Left-padded to width + 1, `s` ends in the last cell: its character for
   * position p from the right sits in cell width - p, and the fill lies
   * before it.
   */
  lemma {:induction false} PadStartFromRight(s: string, width: nat, fill: char, p: nat)
    requires |s| <= width + 1 && p <= width
    ensures |PadStart(s, width + 1, fill)| == width + 1
    ensures PadStart(s, width + 1, fill)[width - p] == if p < |s| then s[|s| - 1 - p] else fill
  {
    var r := PadStart(s, width + 1, fill);
    if p < |s| {
      assert r[width + 1 - |s|..][|s| - 1 - p] == r[width - p];
    }
  }

  /** Left-padding with spaces is removed again by `replace(/\s/g, "")`. */
  lemma {:induction false} PaddedClean(t: string, width: int)
    requires NoWhitespace(t)
    ensures RemoveWhitespace(PadStart(t, width, ' ')) == t
  {
    var p := PadStart(t, width, ' ');
    assert p == Repeat(' ', |p| - |t|) + t;
    RemoveLeadingSpaces(|p| - |t|, t);
  }

  /** `record[index] || ""`: a missing entry reads as the empty string. */
  function Entry(record: map<int, string>, index: int): string
  {
    if index in record then record[index] else ""
  }

  /** An entry counts as filled when it holds a non-whitespace character. */
  predicate Filled(value: string)
  {
    RemoveWhitespace(value) != ""
  }

  /** `trimmed || "0"`. */
  function OrZero(trimmed: string): string
  {
    if trimmed == "" then "0" else trimmed
  }
}
