/**
 * Decimal notation of natural numbers: powers of ten, the digit at a place,
 * the number of digits, `Number.prototype.toString` for integers, and the
 * list of nonzero (digit, place) pairs that all the multiplication methods
 * are built from.
 */
module Digits {

  /** 10^k, the exact value of `Math.pow(10, k)`. */
  function Pow10(k: nat): (r: nat)
    ensures r >= 1
  {
    if k == 0 then 1 else 10 * Pow10(k - 1)
  }

  lemma {:induction false} Pow10Add(a: nat, b: nat)
    ensures Pow10(a + b) == Pow10(a) * Pow10(b)
  {
    if a > 0 {
      Pow10Add(a - 1, b);
      calc {
        Pow10(a + b);
        10 * Pow10(a - 1 + b);
        10 * (Pow10(a - 1) * Pow10(b));
        (10 * Pow10(a - 1)) * Pow10(b);
      }
    }
  }

  /** A higher place is worth at least ten times a lower one. */
  lemma {:induction false} Pow10Grows(a: nat, b: nat)
    requires a < b
    ensures 10 * Pow10(a) <= Pow10(b)
  {
    if a + 1 < b {
      Pow10Grows(a, b - 1);
    }
  }

  /** n with its k least significant digits dropped, i.e. floor(n / 10^k). */
  function Shift(n: nat, k: nat): nat
  {
    if k == 0 then n else Shift(n / 10, k - 1)
  }

  /** The decimal digit of n at place p (place 0 is the ones digit). */
  function DigitAt(n: nat, p: nat): (d: nat)
    ensures d < 10
  {
    Shift(n, p) % 10
  }

  /** The length of n's decimal form; 0 is written with one digit. */
  function NumDigits(n: nat): (r: nat)
    ensures r >= 1
  {
    if n < 10 then 1 else 1 + NumDigits(n / 10)
  }

  lemma {:induction false} ShiftStep(n: nat, k: nat)
    ensures Shift(n, k + 1) == Shift(n, k) / 10
    ensures Shift(n, k) == 10 * Shift(n, k + 1) + DigitAt(n, k)
  {
    if k > 0 {
      ShiftStep(n / 10, k - 1);
    }
  }

  lemma {:induction false} ShiftZeroStays(n: nat, k: nat, j: nat)
    requires Shift(n, k) == 0 && k <= j
    ensures Shift(n, j) == 0
  {
    if k < j {
      ShiftZeroStays(n, k, j - 1);
      ShiftStep(n, j - 1);
    }
  }

  /** Dropping all of n's digits leaves 0, and dropping fewer leaves something. */
  lemma {:induction false} ShiftPastDigits(n: nat, k: nat)
    ensures Shift(n, k) == 0 <==> (n == 0 || k >= NumDigits(n))
  {
    if k > 0 {
      ShiftPastDigits(n / 10, k - 1);
    }
  }

  /** The leading digit of a positive number is not 0. */
  lemma {:induction false} LeadingDigitNonzero(n: nat)
    requires n > 0
    ensures DigitAt(n, NumDigits(n) - 1) != 0
  {
    if n >= 10 {
      LeadingDigitNonzero(n / 10);
    }
  }

  /** A number has d digits exactly when it lies in [10^(d-1), 10^d - 1] (0 has one digit). */
  lemma {:induction false} NumDigitsRange(n: nat, d: nat)
    requires d >= 1
    ensures NumDigits(n) == d <==> (d == 1 || Pow10(d - 1) <= n) && n < Pow10(d)
  {
    if d > 1 {
      NumDigitsRange(n / 10, d - 1);
      DivTen(n, Pow10(d - 1));
      DivTen(n, Pow10(d - 2));
    }
  }

  /** n is below 10^NumDigits(n). */
  lemma {:induction false} BelowPow10(n: nat)
    ensures n < Pow10(NumDigits(n))
  {
    NumDigitsRange(n, NumDigits(n));
  }

  /** Powers of ten grow with the exponent. */
  lemma {:induction false} Pow10Mono(a: nat, b: nat)
    requires a <= b
    ensures Pow10(a) <= Pow10(b)
  {
    if a < b {
      Pow10Grows(a, b);
    }
  }

  /** A number below 10^k has at most k digits. */
  lemma {:induction false} DigitsOfBound(n: nat, k: nat)
    requires k >= 1 && n < Pow10(k)
    ensures NumDigits(n) <= k
  {
    var d := NumDigits(n);
    NumDigitsRange(n, d);
    if d > 1 && k <= d - 1 {
      Pow10Mono(k, d - 1);
    }
  }

  lemma {:induction false} DivTen(n: nat, q: nat)
    ensures n / 10 < q <==> n < 10 * q
    ensures q <= n / 10 <==> 10 * q <= n
  {
  }

  lemma {:induction false} DigitAtPastDigits(n: nat, p: nat)
    requires p >= NumDigits(n)
    ensures DigitAt(n, p) == 0
  {
    ShiftPastDigits(n, p);
  }

  /** Sum of DigitAt(n, p) * 10^p over the places p < k. */
  function DigitSum(n: nat, k: nat): nat
  {
    if k == 0 then 0 else DigitSum(n, k - 1) + DigitAt(n, k - 1) * Pow10(k - 1)
  }

  lemma {:induction false} DigitSumSplit(n: nat, k: nat)
    ensures n == DigitSum(n, k) + Pow10(k) * Shift(n, k)
  {
    if k > 0 {
      DigitSumSplit(n, k - 1);
      ShiftStep(n, k - 1);
      Regroup(n, DigitSum(n, k - 1), Pow10(k - 1), Shift(n, k), DigitAt(n, k - 1));
    }
  }

  /** n = ds + p(10s + d) is n = (ds + dp) + (10p)s. */
  lemma {:induction false} Regroup(n: int, ds: int, p: int, s: int, d: int)
    requires n == ds + p * (10 * s + d)
    ensures n == (ds + d * p) + (10 * p) * s
  {
    assert p * (10 * s + d) == p * (10 * s) + p * d;
  }

  /** A number is the sum of its digits times their place values. */
  lemma {:induction false} DigitSumIsValue(n: nat)
    ensures DigitSum(n, NumDigits(n)) == n
  {
    DigitSumSplit(n, NumDigits(n));
    ShiftPastDigits(n, NumDigits(n));
  }

  // ---------------------------------------------------------------------
  // Number.prototype.toString for integers

  function DigitChar(d: nat): (c: char)
    requires d < 10
    ensures '0' <= c <= '9'
  {
    (48 + d) as char
  }

  predicate IsDigitChar(c: char)
  {
    '0' <= c <= '9'
  }

  /** The value of a digit character; the digit-character case of `parseInt(c)`. */
  function CharDigit(c: char): (d: nat)
    requires IsDigitChar(c)
    ensures d < 10 && DigitChar(d) == c
  {
    c as int - 48
  }

  /** `n.toString()` for a non-negative integer. */
  function NatToString(n: nat): (s: string)
  {
    if n < 10 then [DigitChar(n)] else NatToString(n / 10) + [DigitChar(n % 10)]
  }

  /** `i.toString()` for any integer. */
  function IntToString(i: int): string
  {
    if i < 0 then "-" + NatToString(-i) else NatToString(i)
  }

  /**
   * The decimal form of n has NumDigits(n) characters, all of them digits,
   * and reading it from the right gives the digits from place 0 upwards.
   */
  lemma {:induction false} NatToStringDigits(n: nat)
    ensures |NatToString(n)| == NumDigits(n)
    ensures forall i :: 0 <= i < |NatToString(n)| ==> IsDigitChar(NatToString(n)[i])
    ensures forall p :: 0 <= p < NumDigits(n) ==>
              NatToString(n)[NumDigits(n) - 1 - p] == DigitChar(DigitAt(n, p))
  {
    if n >= 10 {
      NatToStringDigits(n / 10);
      var s := NatToString(n);
      forall p | 0 <= p < NumDigits(n)
        ensures s[NumDigits(n) - 1 - p] == DigitChar(DigitAt(n, p))
      {
        if p > 0 {
          assert DigitAt(n, p) == DigitAt(n / 10, p - 1);
        }
      }
    }
  }

  /** The digit of n at place p is written NumDigits(n) - 1 - p characters from the left. */
  lemma {:induction false} CharAtPlace(n: nat, p: nat)
    requires p < NumDigits(n)
    ensures |NatToString(n)| == NumDigits(n)
    ensures NatToString(n)[NumDigits(n) - 1 - p] == DigitChar(DigitAt(n, p))
  {
    NatToStringDigits(n);
  }

  /** Character i of n's decimal form, read with `parseInt`, is the digit at place NumDigits(n) - 1 - i. */
  lemma {:induction false} DigitOfString(n: nat, i: nat)
    requires i < NumDigits(n)
    ensures |NatToString(n)| == NumDigits(n)
    ensures IsDigitChar(NatToString(n)[i])
    ensures CharDigit(NatToString(n)[i]) == DigitAt(n, NumDigits(n) - 1 - i)
  {
    NatToStringDigits(n);
    var p := NumDigits(n) - 1 - i;
    assert NatToString(n)[NumDigits(n) - 1 - p] == DigitChar(DigitAt(n, p));
  }

  /** Character i of n's decimal form, read with `parseInt`, is the digit at place p, counted from the right. */
  lemma {:induction false} DigitOfStringAt(n: nat, i: nat, p: nat)
    requires i < NumDigits(n) && p == NumDigits(n) - 1 - i
    ensures |NatToString(n)| == NumDigits(n)
    ensures IsDigitChar(NatToString(n)[i]) && CharDigit(NatToString(n)[i]) == DigitAt(n, p)
  {
    DigitOfString(n, i);
  }

  /** Every character of n's decimal form is a digit; character j holds the digit at place NumDigits(n) - 1 - j. */
  lemma {:induction false} ReadRightToLeft(n: nat)
    ensures |NatToString(n)| == NumDigits(n)
    ensures forall j :: 0 <= j < |NatToString(n)| ==>
              IsDigitChar(NatToString(n)[j]) && CharDigit(NatToString(n)[j]) == DigitAt(n, |NatToString(n)| - 1 - j)
  {
    NatToStringDigits(n);
    forall j | 0 <= j < |NatToString(n)|
      ensures IsDigitChar(NatToString(n)[j]) && CharDigit(NatToString(n)[j]) == DigitAt(n, |NatToString(n)| - 1 - j)
    {
      DigitOfString(n, j);
    }
  }

  /** The first character of a positive number's decimal form is not '0'. */
  lemma {:induction false} NatToStringNoLeadingZero(n: nat)
    requires n > 0
    ensures NatToString(n)[0] != '0'
  {
    NatToStringDigits(n);
    LeadingDigitNonzero(n);
    assert NatToString(n)[0] == NatToString(n)[NumDigits(n) - 1 - (NumDigits(n) - 1)];
  }

  /** The value of a string of decimal digits, most significant first. */
  function DecimalValue(s: string): nat
    requires forall i :: 0 <= i < |s| ==> IsDigitChar(s[i])
  {
    if s == [] then 0 else 10 * DecimalValue(s[..|s| - 1]) + CharDigit(s[|s| - 1])
  }

  /** Reading a number's decimal form gives the number back. */
  lemma {:induction false} DecimalValueOfNatToString(n: nat)
    ensures forall i :: 0 <= i < |NatToString(n)| ==> IsDigitChar(NatToString(n)[i])
    ensures DecimalValue(NatToString(n)) == n
  {
    NatToStringDigits(n);
    if n >= 10 {
      DecimalValueOfNatToString(n / 10);
      var s := NatToString(n);
      assert s[..|s| - 1] == NatToString(n / 10);
    }
  }

  /** Distinct numbers have distinct decimal forms. */
  lemma {:induction false} NatToStringInjective(a: nat, b: nat)
    requires NatToString(a) == NatToString(b)
    ensures a == b
  {
    DecimalValueOfNatToString(a);
    DecimalValueOfNatToString(b);
  }

  // ---------------------------------------------------------------------
  // Nonzero digits with their places

  /** A digit together with its place: it stands for digit * 10^place. */
  datatype Place = Place(digit: nat, place: nat)

  function PlaceValue(pl: Place): nat
  {
    pl.digit * Pow10(pl.place)
  }

  /** The nonzero digits of n at places below k, least significant first. */
  function NonzeroPlacesBelow(n: nat, k: nat): seq<Place>
  {
    if k == 0 then []
    else NonzeroPlacesBelow(n, k - 1) + (if DigitAt(n, k - 1) == 0 then [] else [Place(DigitAt(n, k - 1), k - 1)])
  }

  /** All nonzero digits of n with their places, least significant first; [] for 0. */
  function NonzeroPlaces(n: nat): seq<Place>
  {
    NonzeroPlacesBelow(n, NumDigits(n))
  }

  /** Once no digits remain above place k, looking at more places adds nothing. */
  lemma {:induction false} NonzeroPlacesBelowStable(n: nat, k: nat, j: nat)
    requires Shift(n, k) == 0 && k <= j
    ensures NonzeroPlacesBelow(n, j) == NonzeroPlacesBelow(n, k)
  {
    if k < j {
      NonzeroPlacesBelowStable(n, k, j - 1);
      ShiftZeroStays(n, k, j - 1);
    }
  }

  /** Every place whose digits are exhausted gives the full list. */
  lemma {:induction false} NonzeroPlacesBelowAll(n: nat, k: nat)
    requires Shift(n, k) == 0
    ensures NonzeroPlacesBelow(n, k) == NonzeroPlaces(n)
  {
    ShiftPastDigits(n, NumDigits(n));
    if k <= NumDigits(n) {
      NonzeroPlacesBelowStable(n, k, NumDigits(n));
    } else {
      NonzeroPlacesBelowStable(n, NumDigits(n), k);
    }
  }

  lemma {:induction false} NonzeroPlacesBelowEntries(n: nat, k: nat)
    ensures forall i :: 0 <= i < |NonzeroPlacesBelow(n, k)| ==>
              var pl := NonzeroPlacesBelow(n, k)[i];
              pl.place < k && pl.digit == DigitAt(n, pl.place) && 1 <= pl.digit <= 9
  {
    if k > 0 {
      NonzeroPlacesBelowEntries(n, k - 1);
      var prev := NonzeroPlacesBelow(n, k - 1);
      var all := NonzeroPlacesBelow(n, k);
      forall i | 0 <= i < |all|
        ensures all[i].place < k && all[i].digit == DigitAt(n, all[i].place) && 1 <= all[i].digit <= 9
      {
        if i < |prev| {
          assert all[i] == prev[i];
        }
      }
    }
  }

  lemma {:induction false} NonzeroPlacesBelowIncreasing(n: nat, k: nat)
    ensures forall i, j :: 0 <= i < j < |NonzeroPlacesBelow(n, k)| ==>
              NonzeroPlacesBelow(n, k)[i].place < NonzeroPlacesBelow(n, k)[j].place
  {
    if k > 0 {
      NonzeroPlacesBelowIncreasing(n, k - 1);
      NonzeroPlacesBelowEntries(n, k - 1);
      var prev := NonzeroPlacesBelow(n, k - 1);
      var all := NonzeroPlacesBelow(n, k);
      forall i, j | 0 <= i < j < |all| ensures all[i].place < all[j].place {
        assert all[i] == prev[i];
        if j < |prev| {
          assert all[j] == prev[j];
        }
      }
    }
  }

  lemma {:induction false} NonzeroPlacesBelowComplete(n: nat, k: nat)
    ensures forall p :: 0 <= p < k && DigitAt(n, p) != 0 ==> Place(DigitAt(n, p), p) in NonzeroPlacesBelow(n, k)
  {
    if k > 0 {
      NonzeroPlacesBelowComplete(n, k - 1);
    }
  }

  /** Sum of a list of numbers. */
  function Sum(s: seq<int>): int
  {
    if s == [] then 0 else s[0] + Sum(s[1..])
  }

  lemma {:induction false} SumAppend(a: seq<int>, b: seq<int>)
    ensures Sum(a + b) == Sum(a) + Sum(b)
  {
    if a == [] {
      assert a + b == b;
    } else {
      SumAppend(a[1..], b);
      assert (a + b)[1..] == a[1..] + b;
    }
  }

  /** Sum of the place values of a list of places. */
  function PlaceSum(ps: seq<Place>): nat
  {
    if ps == [] then 0 else PlaceSum(ps[..|ps| - 1]) + PlaceValue(ps[|ps| - 1])
  }

  lemma {:induction false} PlaceSumAppend(a: seq<Place>, b: seq<Place>)
    ensures PlaceSum(a + b) == PlaceSum(a) + PlaceSum(b)
  {
    if b != [] {
      PlaceSumAppend(a, b[..|b| - 1]);
      assert (a + b)[..|a + b| - 1] == a + b[..|b| - 1];
      assert (a + b)[|a + b| - 1] == b[|b| - 1];
      assert PlaceSum(a + b) == PlaceSum(a + b[..|b| - 1]) + PlaceValue(b[|b| - 1]);
      assert PlaceSum(b) == PlaceSum(b[..|b| - 1]) + PlaceValue(b[|b| - 1]);
    } else {
      assert a + b == a;
    }
  }

  lemma {:induction false} PlaceSumBelow(n: nat, k: nat)
    ensures PlaceSum(NonzeroPlacesBelow(n, k)) == DigitSum(n, k)
  {
    if k > 0 {
      PlaceSumBelow(n, k - 1);
      var extra := if DigitAt(n, k - 1) == 0 then [] else [Place(DigitAt(n, k - 1), k - 1)];
      PlaceSumAppend(NonzeroPlacesBelow(n, k - 1), extra);
      assert extra != [] ==> PlaceSum(extra) == PlaceValue(extra[0]) by {
        if extra != [] { assert extra[..0] == []; }
      }
    }
  }

  /** The nonzero place values of n add up to n. */
  lemma {:induction false} PlaceSumOfNonzeroPlaces(n: nat)
    ensures PlaceSum(NonzeroPlaces(n)) == n
  {
    PlaceSumBelow(n, NumDigits(n));
    DigitSumIsValue(n);
  }

  /** Number of characters of s other than '0'. */
  function CountNonzeroChars(s: string): nat
  {
    if s == [] then 0 else (if s[0] != '0' then 1 else 0) + CountNonzeroChars(s[1..])
  }

  lemma {:induction false} CountNonzeroBelow(n: nat, k: nat)
    requires k <= NumDigits(n)
    ensures |NatToString(n)| == NumDigits(n)
    ensures |NonzeroPlacesBelow(n, k)| == CountNonzeroChars(NatToString(n)[NumDigits(n) - k..])
  {
    NatToStringDigits(n);
    var s := NatToString(n);
    if k > 0 {
      CountNonzeroBelow(n, k - 1);
      var m := NumDigits(n);
      assert s[m - k..][1..] == s[m - (k - 1)..];
      assert s[m - k..][0] == s[m - 1 - (k - 1)] == DigitChar(DigitAt(n, k - 1));
    }
  }

  /**
   * There is one nonzero place per character of n's decimal form that is
   * not '0'.
   */
  lemma {:induction false} NonzeroPlacesCount(n: nat)
    ensures |NonzeroPlaces(n)| == CountNonzeroChars(NatToString(n))
  {
    NatToStringDigits(n);
    CountNonzeroBelow(n, NumDigits(n));
    assert NatToString(n)[0..] == NatToString(n);
  }
}
