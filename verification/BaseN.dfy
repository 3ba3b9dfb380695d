/** Printing identifiers in base 62 and base 91. */
module BaseN {
  import opened Common

  /** The characters from first, in order. */
  function Run(first: char, count: nat): (run: string)
    requires first as int + count <= 0x80
    ensures |run| == count
  {
    seq(count, i requires 0 <= i < count => (first as int + i) as char)
  }

  const LOWER := Run('a', 26)
  const UPPER := Run('A', 26)
  const DIGITS := Run('0', 10)
  const BASE91_EXTRA := "!#$%&()*+,-./" + ":;<=>?@" + "[]^_`{|}~"

  function Table(extra: string): (table: string)
    ensures |table| == 62 + |extra|
  {
    LOWER + UPPER + DIGITS + extra
  }

  // Digits

  /** The quotient and the remainder of a number. */
  ghost function Split(num: nat, base: nat): (parts: (nat, nat))
    requires base >= 2
    ensures parts.0 * base + parts.1 == num && parts.1 < base
  {
    DivMod(num, base);
    var q: nat, r: nat :| q * base + r == num && r < base;
    (q, r)
  }

  lemma Smaller(num: nat, base: nat)
    requires base >= 2 && num > 0
    ensures Split(num, base).0 < num
  {
    Scale(2, base, Split(num, base).0);
  }

  /** Split is division. */
  lemma SplitIs(num: nat, base: nat)
    requires base >= 2
    ensures Split(num, base) == (num / base, num % base)
  {
    var (q, r) := Split(num, base);
    DivMod(num, base);
    NotAbove(num / base, num % base, q, r, base);
    NotAbove(q, r, num / base, num % base, base);
  }

  ghost function Digits(num: nat, base: nat): seq<nat>
    requires base >= 2
  {
    if num == 0 then []
    else
      Smaller(num, base);
      Digits(Split(num, base).0, base) + [Split(num, base).1]
  }

  function Value(digits: seq<nat>, base: nat): nat {
    if digits == [] then 0 else Value(digits[..|digits| - 1], base) * base + digits[|digits| - 1]
  }

  function Power(base: nat, k: nat): nat { if k == 0 then 1 else Power(base, k - 1) * base }

  /** The digits are those of the number, with no zero in front. */
  lemma {:induction false} DigitsOf(num: nat, base: nat)
    requires base >= 2
    ensures Value(Digits(num, base), base) == num
    ensures forall i :: 0 <= i < |Digits(num, base)| ==> Digits(num, base)[i] < base
    ensures num > 0 ==> Digits(num, base) != [] && Digits(num, base)[0] > 0
  {
    if num > 0 {
      var q := Split(num, base).0;
      Smaller(num, base);
      DigitsOf(q, base);
      var digits := Digits(num, base);
      assert digits[..|digits| - 1] == Digits(q, base);
    }
  }

  /** A number has at most k digits exactly when it is below the power. */
  lemma {:induction false} DigitCount(num: nat, base: nat, k: nat)
    requires base >= 2
    ensures |Digits(num, base)| <= k <==> num < Power(base, k)
  {
    if num == 0 {
      PowerPositive(base, k);
    } else if k > 0 {
      Smaller(num, base);
      DigitCount(Split(num, base).0, base, k - 1);
      QuotientBelow(num, base, Power(base, k - 1));
    }
  }

  lemma {:induction false} PowerPositive(base: nat, k: nat)
    requires base >= 1
    ensures Power(base, k) > 0
  {
    if k > 0 {
      PowerPositive(base, k - 1);
    }
  }

  lemma DivMod(num: nat, base: nat)
    requires base > 0
    ensures num == num / base * base + num % base && num % base < base
  {
  }

  lemma QuotientBelow(num: nat, base: nat, bound: nat)
    requires base >= 2
    ensures Split(num, base).0 < bound <==> num < bound * base
  {
    var q := Split(num, base).0;
    if q < bound {
      Scale(q + 1, bound, base);
      assert (q + 1) * base == q * base + base;
    } else {
      Scale(bound, q, base);
    }
  }

  // Printing

  ghost function Drawn(digits: seq<nat>, table: string): (text: string)
    requires forall i :: 0 <= i < |digits| ==> digits[i] < |table|
    ensures |text| == |digits|
  {
    seq(|digits|, i requires 0 <= i < |digits| => table[digits[i]])
  }

  ghost function Shown(num: nat, table: string): (text: string)
    requires |table| >= 2
    ensures |text| == |Digits(num, |table|)|
  {
    DigitsOf(num, |table|);
    Drawn(Digits(num, |table|), table)
  }

  ghost function Printed(num: nat, extra: string): (text: string)
    ensures |text| == |Digits(num, |Table(extra)|)|
  {
    Shown(num, Table(extra))
  }

  /** One step of the loop. */
  lemma ShownNext(num: nat, table: string, q: nat, r: nat)
    requires |table| >= 2 && num > 0 && (q, r) == Split(num, |table|)
    ensures Shown(num, table) == Shown(q, table) + [table[r]]
  {
    Smaller(num, |table|);
    DigitsOf(num, |table|);
  }

  method Divmod(num: nat, base: nat) returns (q: nat, r: nat)
    requires base >= 2
    ensures (q, r) == Split(num, base)
  {
    q, r := num / base, num % base;
    SplitIs(num, base);
  }

  /** base62; a negative number would be divided for ever. */
  method Base62(num: nat, extra: string) returns (buf: string)
    ensures buf == Printed(num, extra)
  {
    var table := Table(extra);
    buf := "";
    var left: nat := num;
    while left != 0
      invariant Shown(num, table) == Shown(left, table) + buf
    {
      var q, mod := Divmod(left, |table|);
      ShownNext(left, table, q, mod);
      Smaller(left, |table|);
      Associative(Shown(q, table), [table[mod]], buf);
      left := q;
      buf := [table[mod]] + buf;
    }
  }

  method Base91(num: nat) returns (text: string)
    ensures text == Printed(num, BASE91_EXTRA)
  {
    text := Base62(num, BASE91_EXTRA);
  }

  /** guid64, given its random number */
  method Guid64(random: nat) returns (guid: string)
    requires random < 0x1_0000_0000_0000_0000
    ensures guid == Printed(random, BASE91_EXTRA) && |guid| <= 10
    ensures random > 0 ==> guid != "" && guid[0] != 'a'
  {
    guid := Base91(random);
    FitsTenCharacters(random);
    if random > 0 {
      DigitsOf(random, 91);
      Base91Distinct();
      var table := Table(BASE91_EXTRA);
      assert table[0] == 'a';
      assert guid[0] == table[Digits(random, 91)[0]];
    }
  }

  lemma FitsTenCharacters(num: nat)
    requires num < 0x1_0000_0000_0000_0000
    ensures |Digits(num, 91)| <= 10
  {
    assert Power(91, 2) == 8281;
    assert Power(91, 4) == 68574961;
    assert Power(91, 6) == 567869252041;
    assert Power(91, 8) == 4702525276151521;
    assert Power(91, 10) == 38941611811810745401;
    DigitCount(num, 91, 10);
  }

  // Injectivity

  predicate Distinct(table: string) {
    forall i, j :: 0 <= i < j < |table| ==> table[i] != table[j]
  }

  lemma SamePrintSameNumber(one: nat, other: nat, extra: string)
    requires Distinct(Table(extra)) && Printed(one, extra) == Printed(other, extra)
    ensures one == other
  {
    var table := Table(extra);
    var a, b := Digits(one, |table|), Digits(other, |table|);
    DigitsOf(one, |table|);
    DigitsOf(other, |table|);
    forall i | 0 <= i < |a|
      ensures a[i] == b[i]
    {
      assert table[a[i]] == Printed(one, extra)[i] == table[b[i]];
    }
    assert a == b;
  }

  /** Different numbers are printed differently exactly when the table repeats nothing. */
  lemma InjectiveWhenDistinct(extra: string)
    ensures Distinct(Table(extra))
       <==> forall one: nat, other: nat :: Printed(one, extra) == Printed(other, extra) ==> one == other
  {
    var table := Table(extra);
    if Distinct(table) {
      forall one: nat, other: nat | Printed(one, extra) == Printed(other, extra)
        ensures one == other
      {
        SamePrintSameNumber(one, other, extra);
      }
    } else {
      var i, j :| 0 <= i < j < |table| && table[i] == table[j];
      TwoDigits(1, i, |table|);
      TwoDigits(1, j, |table|);
      assert Printed(|table| + i, extra) == Printed(|table| + j, extra);
    }
  }

  lemma TwoDigits(high: nat, low: nat, base: nat)
    requires 0 < high < base && low < base
    ensures Digits(high * base + low, base) == [high, low]
  {
    Quotient(high, low, base);
    Quotient(0, high, base);
    assert Digits(high, base) == Digits(0, base) + [high];
  }

  lemma {:induction false} Scale(a: nat, b: nat, c: nat)
    requires a <= b
    ensures a * c <= b * c
    decreases b
  {
    if a < b {
      Scale(a, b - 1, c);
      assert b * c == (b - 1) * c + c;
    }
  }

  lemma NotAbove(q: nat, r: nat, high: nat, low: nat, base: nat)
    requires q * base + r == high * base + low && low < base
    ensures q <= high
  {
    if q > high {
      Scale(high + 1, q, base);
    }
  }

  lemma Quotient(high: nat, low: nat, base: nat)
    requires low < base && base >= 2
    ensures Split(high * base + low, base) == (high, low)
  {
    var (q, r) := Split(high * base + low, base);
    NotAbove(q, r, high, low, base);
    NotAbove(high, low, q, r, base);
  }

  predicate Increasing(s: string) { forall i, j :: 0 <= i < j < |s| ==> s[i] < s[j] }

  predicate Within(s: string, first: char, last: char) { forall i :: 0 <= i < |s| ==> first <= s[i] <= last }

  lemma FirstExtra()
    ensures Increasing("!#$%&()*+,-./") && Within("!#$%&()*+,-./", '!', '/')
  {
  }

  lemma SecondExtra()
    ensures Increasing(":;<=>?@") && Within(":;<=>?@", ':', '@')
  {
  }

  lemma ThirdExtra()
    ensures Increasing("[]^_`{|}~")
    ensures forall c :: c in "[]^_`{|}~" ==> '[' <= c <= '`' || '{' <= c <= '~'
  {
  }

  lemma Base91Distinct()
    ensures Distinct(Table(BASE91_EXTRA)) && |Table(BASE91_EXTRA)| == 91
  {
    FirstExtra();
    SecondExtra();
    ThirdExtra();
  }

  lemma LettersAre()
    ensures LOWER == "abcdefghijklmnopqrstuvwxyz" && UPPER == "ABCDEFGHIJKLMNOPQRSTUVWXYZ" && DIGITS == "0123456789"
  {
  }

  /** The tables, character by character: letters, then digits, then what makes them 91. */
  lemma TablesAre()
    ensures Table("") == "abcdefghijklmnopqrstuvwxyz" + "ABCDEFGHIJKLMNOPQRSTUVWXYZ" + "0123456789"
    ensures Table(BASE91_EXTRA) == Table("") + "!#$%&()*+,-./:;<=>?@[]^_`{|}~"
  {
    LettersAre();
    assert "!#$%&()*+,-./" + ":;<=>?@" + "[]^_`{|}~" == "!#$%&()*+,-./:;<=>?@[]^_`{|}~";
    assert Table("") + "" == Table("");
  }
}
