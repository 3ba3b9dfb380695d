/** The operations of Python's bytes that the HTTP side uses. A byte string is a string
    of the characters 0 to 255. */
module Bytes {
  import opened Common

  type Bytes = string

  const CRLF: Bytes := "\r\n"
  const HEADER_END: Bytes := "\r\n\r\n"

  // Searching

  predicate Occurs(data: Bytes, pat: Bytes, i: int) {
    0 <= i <= |data| - |pat| && data[i..i + |pat|] == pat
  }

  ghost predicate Free(data: Bytes, pat: Bytes) {
    forall i :: !Occurs(data, pat, i)
  }

  /** The places of pat in a part are its places in the whole that lie in the part. */
  lemma PlacesInPart(data: Bytes, pat: Bytes, lo: nat, hi: nat)
    requires lo <= hi <= |data|
    ensures forall i :: Occurs(data[lo..hi], pat, i) ==> Occurs(data, pat, lo + i)
    ensures forall j :: Occurs(data, pat, j) && lo <= j <= hi - |pat| ==> Occurs(data[lo..hi], pat, j - lo)
  {
    forall i | Occurs(data[lo..hi], pat, i)
      ensures Occurs(data, pat, lo + i)
    {
      SliceOfSlice(data, lo, hi, i, |pat|);
    }
    forall j | Occurs(data, pat, j) && lo <= j <= hi - |pat|
      ensures Occurs(data[lo..hi], pat, j - lo)
    {
      SliceOfSlice(data, lo, hi, j - lo, |pat|);
    }
  }

  /** A string that holds pat holds it at a first place. */
  lemma {:induction false} FirstPlace(data: Bytes, pat: Bytes, i: int)
    requires Occurs(data, pat, i)
    ensures exists r :: Occurs(data, pat, r) && (forall j :: 0 <= j < r ==> !Occurs(data, pat, j))
    decreases i
  {
    if j :| 0 <= j < i && Occurs(data, pat, j) {
      FirstPlace(data, pat, j);
    }
  }

  /** bytes.find: the first place of pat, or -1. */
  function Find(data: Bytes, pat: Bytes): (r: int)
    ensures r < 0 <==> Free(data, pat)
    ensures r >= 0 ==> Occurs(data, pat, r)
    ensures forall i :: Occurs(data, pat, i) ==> 0 <= r <= i
  {
    if i :| 0 <= i <= |data| && Occurs(data, pat, i) then
      FirstPlace(data, pat, i);
      var r :| 0 <= r <= |data| && Occurs(data, pat, r) && forall j :: 0 <= j < r ==> !Occurs(data, pat, j);
      r
    else -1
  }

  lemma OccursAt(data: Bytes, pat: Bytes, i: int, k: nat)
    requires Occurs(data, pat, i) && k < |pat|
    ensures data[i + k] == pat[k]
  {
    assert data[i..i + |pat|][k] == data[i + k];
  }

  lemma CharAbsent(data: Bytes, pat: Bytes, k: nat)
    requires k < |pat| && pat[k] !in data
    ensures Free(data, pat)
  {
    if i :| Occurs(data, pat, i) {
      OccursAt(data, pat, i, k);
    }
  }

  lemma NotHere(data: Bytes, pat: Bytes, i: nat, k: nat)
    requires k < |pat| && (i + k < |data| ==> data[i + k] != pat[k])
    ensures !Occurs(data, pat, i)
  {
    if Occurs(data, pat, i) {
      OccursAt(data, pat, i, k);
    }
  }

  lemma FindIs(data: Bytes, pat: Bytes, i: int)
    requires Occurs(data, pat, i)
    requires forall j :: 0 <= j < i ==> !Occurs(data, pat, j)
    ensures Find(data, pat) == i
  {
  }

  /** A later byte cannot move the first place of pat. */
  lemma FindInPrefix(data: Bytes, more: Bytes, pat: Bytes)
    requires Find(data, pat) >= 0
    ensures Find(data + more, pat) == Find(data, pat)
  {
    assert (data + more)[0..|data|] == data;
    PlacesInPart(data + more, pat, 0, |data|);
    assert Occurs(data, pat, Find(data, pat));
    FindIs(data + more, pat, Find(data, pat));
  }

  lemma FreePart(data: Bytes, pat: Bytes, lo: nat, hi: nat)
    requires Free(data, pat) && lo <= hi <= |data|
    ensures Free(data[lo..hi], pat)
  {
    PlacesInPart(data, pat, lo, hi);
  }

  // Splitting

  /** bytes.split: the parts between the successive places of sep. */
  function Split(data: Bytes, sep: Bytes): (parts: seq<Bytes>)
    requires sep != ""
    ensures parts != []
    decreases |data|
  {
    var i := Find(data, sep);
    if i < 0 then [data] else [data[..i]] + Split(data[i + |sep|..], sep)
  }

  /** No part holds the separator, and none holds what the whole did not. */
  lemma {:induction false} SplitParts(data: Bytes, sep: Bytes, pat: Bytes, k: nat)
    requires sep != "" && k < |Split(data, sep)|
    ensures Free(Split(data, sep)[k], sep)
    ensures Free(data, pat) ==> Free(Split(data, sep)[k], pat)
    decreases |data|
  {
    var i := Find(data, sep);
    if i >= 0 {
      if k == 0 {
        assert data[0..i] == data[..i];
        PlacesInPart(data, sep, 0, i);
        if Free(data, pat) {
          FreePart(data, pat, 0, i);
        }
      } else {
        SplitParts(data[i + |sep|..], sep, pat, k - 1);
        if Free(data, pat) {
          assert data[i + |sep|..|data|] == data[i + |sep|..];
          FreePart(data, pat, i + |sep|, |data|);
        }
      }
    }
  }

  /** The parts with the separator between them. */
  function Joined(parts: seq<Bytes>, sep: Bytes): Bytes {
    if parts == [] then "" else if |parts| == 1 then parts[0] else parts[0] + sep + Joined(parts[1..], sep)
  }

  /** The parts are what is between the separators, and nothing is lost. */
  lemma {:induction false} SplitJoins(data: Bytes, sep: Bytes)
    requires sep != ""
    ensures Joined(Split(data, sep), sep) == data
    decreases |data|
  {
    var i := Find(data, sep);
    if i >= 0 {
      var rest := data[i + |sep|..];
      SplitJoins(rest, sep);
      assert Split(data, sep)[1..] == Split(rest, sep);
      assert data[..i] + sep + rest == data;
    }
  }

  /** Text without the separator is one part, and so is the text before the first one. */
  lemma SplitFirst(first: Bytes, sep: Bytes, rest: Bytes)
    requires sep != "" && Free(first + sep[..|sep| - 1], sep)
    ensures Split(first + sep + rest, sep) == [first] + Split(rest, sep)
  {
    var data := first + sep + rest;
    assert data[|first|..|first| + |sep|] == sep;
    var start := |first| + |sep| - 1;
    assert data[0..start] == first + sep[..|sep| - 1];
    PlacesInPart(data, sep, 0, start);
    FindIs(data, sep, |first|);
    assert data[..|first|] == first && data[|first| + |sep|..] == rest;
  }

  // Letter case

  function LowerChar(c: char): char { if 'A' <= c <= 'Z' then c + 32 as char else c }

  function UpperChar(c: char): char { if 'a' <= c <= 'z' then c - 32 as char else c }

  function Lower(data: Bytes): (r: Bytes)
    ensures |r| == |data|
  {
    seq(|data|, i requires 0 <= i < |data| => LowerChar(data[i]))
  }

  function Upper(data: Bytes): Bytes { seq(|data|, i requires 0 <= i < |data| => UpperChar(data[i])) }

  /** The letters have a case, capitals and small letters going pairwise, and nothing else has. */
  lemma LettersChangeCase(k: nat, c: char)
    requires k < 26
    ensures Lower(['A' + k as char]) == ['a' + k as char] && Upper(['a' + k as char]) == ['A' + k as char]
    ensures !('A' <= c <= 'Z') ==> Lower([c]) == [c]
    ensures !('a' <= c <= 'z') ==> Upper([c]) == [c]
  {
    assert LowerChar('A' + k as char) == 'a' + k as char && UpperChar('a' + k as char) == 'A' + k as char;
  }

  // Integers

  function Digit(c: char): nat
    requires IsDigit(c)
  {
    c as int - '0' as int
  }

  predicate IsSpace(c: char) { c == ' ' || 9 as char <= c <= 13 as char }

  function Strip(data: Bytes): Bytes {
    if data == "" then ""
    else if IsSpace(data[0]) then Strip(data[1..])
    else if IsSpace(data[|data| - 1]) then Strip(data[..|data| - 1])
    else data
  }

  /** Digits with single underscores between them. */
  function DigitsValue(data: Bytes): Option<nat> {
    if data == "" || !IsDigit(data[|data| - 1]) then None
    else
      var last := Digit(data[|data| - 1]);
      var front := data[..|data| - 1];
      if front == "" then Some(last)
      else
        var higher := if front[|front| - 1] == '_' then DigitsValue(front[..|front| - 1]) else DigitsValue(front);
        if higher.None? then None else Some(10 * higher.value + last)
  }

  /** int(data); None where Python raises ValueError. */
  function ParseInt(data: Bytes): Option<int> {
    var stripped := Strip(data);
    if stripped == "" then None
    else if stripped[0] == '-' then
      var v := DigitsValue(stripped[1..]);
      if v.None? then None else Some(-(v.value as int))
    else
      var v := DigitsValue(if stripped[0] == '+' then stripped[1..] else stripped);
      if v.None? then None else Some(v.value as int)
  }

  /** str(n) */
  function Decimal(n: nat): (r: Bytes)
    ensures r != "" && forall i :: 0 <= i < |r| ==> IsDigit(r[i])
  {
    var last := [('0' as int + n % 10) as char];
    if n < 10 then last else Decimal(n / 10) + last
  }

  lemma {:induction false} DecimalDigits(n: nat)
    ensures DigitsValue(Decimal(n)) == Some(n)
  {
    if n >= 10 {
      DecimalDigits(n / 10);
      assert Decimal(n)[..|Decimal(n)| - 1] == Decimal(n / 10);
    }
  }

  /** Reading back a printed length gives the length. */
  lemma ParsePrinted(n: nat)
    ensures ParseInt(Decimal(n)) == Some(n)
  {
    DecimalDigits(n);
    var text := Decimal(n);
    assert IsDigit(text[0]) && IsDigit(text[|text| - 1]);
  }

  /** What Python takes for the digits of an integer: at least one, and single underscores
      between them. */
  predicate IsNumeral(data: Bytes) {
    && data != "" && IsDigit(data[0]) && IsDigit(data[|data| - 1])
    && (forall i :: 0 <= i < |data| ==> IsDigit(data[i]) || data[i] == '_')
    && forall i :: 0 < i < |data| ==> !(data[i - 1] == '_' && data[i] == '_')
  }

  lemma {:induction false} NumeralsHaveValues(data: Bytes)
    ensures DigitsValue(data).Some? <==> IsNumeral(data)
    decreases |data|
  {
    if data != "" && IsDigit(data[|data| - 1]) && |data| > 1 {
      var front := data[..|data| - 1];
      if front[|front| - 1] == '_' {
        var before := front[..|front| - 1];
        NumeralsHaveValues(before);
        assert forall i :: 0 <= i < |before| ==> before[i] == data[i];
        assert data[|data| - 2] == '_';
        assert IsNumeral(before) ==> IsDigit(before[|before| - 1]) && before[|before| - 1] == data[|data| - 3];
        assert before == "" ==> data[0] == '_';
        assert IsNumeral(data) ==> data[|data| - 3] != '_';
      } else {
        NumeralsHaveValues(front);
        assert forall i :: 0 <= i < |front| ==> front[i] == data[i];
      }
    }
  }

  predicate AllSpace(data: Bytes) { forall i :: 0 <= i < |data| ==> IsSpace(data[i]) }

  lemma {:induction false} StripIs(before: Bytes, data: Bytes, after: Bytes)
    requires AllSpace(before) && AllSpace(after)
    requires data != "" && !IsSpace(data[0]) && !IsSpace(data[|data| - 1])
    ensures Strip(before + data + after) == data
    decreases |before| + |after|
  {
    var all := before + data + after;
    if before != "" {
      assert all[1..] == before[1..] + data + after;
      StripIs(before[1..], data, after);
    } else if after != "" {
      assert all[0] == data[0];
      assert all[..|all| - 1] == before + data + after[..|after| - 1];
      StripIs(before, data, after[..|after| - 1]);
    } else {
      assert all == data;
    }
  }

  /** An integer is read from its digits with or without a sign, and with spaces around it. */
  lemma PaddedIsRead(before: Bytes, digits: Bytes, after: Bytes)
    requires AllSpace(before) && AllSpace(after) && IsNumeral(digits)
    ensures DigitsValue(digits).Some?
    ensures ParseInt(before + digits + after) == Some(DigitsValue(digits).value)
    ensures ParseInt(before + ("+" + digits) + after) == Some(DigitsValue(digits).value)
    ensures ParseInt(before + ("-" + digits) + after) == Some(-(DigitsValue(digits).value as int))
  {
    NumeralsHaveValues(digits);
    StripIs(before, digits, after);
    StripIs(before, "+" + digits, after);
    StripIs(before, "-" + digits, after);
    assert ("+" + digits)[1..] == digits && ("-" + digits)[1..] == digits;
  }

  /** Nothing else is an integer. */
  lemma OnlyNumeralsAreRead(data: Bytes)
    ensures ParseInt(data).Some? <==>
              var text := Strip(data);
              text != "" && IsNumeral(if text[0] == '-' || text[0] == '+' then text[1..] else text)
  {
    var text := Strip(data);
    if text != "" {
      NumeralsHaveValues(if text[0] == '-' || text[0] == '+' then text[1..] else text);
    }
  }
}
