/** Little-endian words, rows of words, and bit sets in a word. */
module LittleEndian {
  import opened Common

  type Byte = x: nat | x < 256

  /** 256 to the power w. */
  function Range(w: nat): (r: nat)
    ensures r > 0
  {
    if w == 0 then 1 else 256 * Range(w - 1)
  }

  function ToBytes(n: nat, w: nat): (bytes: seq<Byte>)
    ensures |bytes| == w
    decreases w
  {
    if w == 0 then [] else [n % 256] + ToBytes(n / 256, w - 1)
  }

  function FromBytes(bytes: seq<Byte>): (n: nat)
    ensures n < Range(|bytes|)
  {
    if bytes == [] then 0 else bytes[0] + 256 * FromBytes(bytes[1..])
  }

  lemma {:induction false} WordRoundTrip(n: nat, w: nat)
    requires n < Range(w)
    ensures FromBytes(ToBytes(n, w)) == n
    decreases w
  {
    if w > 0 {
      WordRoundTrip(n / 256, w - 1);
      assert ToBytes(n, w)[1..] == ToBytes(n / 256, w - 1);
    }
  }

  lemma LowByte(low: Byte, high: nat)
    ensures (low + 256 * high) % 256 == low && (low + 256 * high) / 256 == high
  {
  }

  lemma {:induction false} BytesRoundTrip(bytes: seq<Byte>)
    ensures ToBytes(FromBytes(bytes), |bytes|) == bytes
  {
    if bytes != [] {
      BytesRoundTrip(bytes[1..]);
      LowByte(bytes[0], FromBytes(bytes[1..]));
      assert bytes == [bytes[0]] + bytes[1..];
    }
  }

  /** Each byte is worth 256 times the one before it. */
  lemma {:induction false} LowBytesFirst(low: seq<Byte>, high: seq<Byte>)
    ensures FromBytes(low + high) == FromBytes(low) + Range(|low|) * FromBytes(high)
    ensures forall b: Byte :: FromBytes([b]) == b
  {
    if low == [] {
      assert low + high == high;
    } else {
      assert (low + high)[1..] == low[1..] + high;
      LowBytesFirst(low[1..], high);
      Distribute(FromBytes(low[1..]), Range(|low| - 1), FromBytes(high));
    }
  }

  lemma Distribute(a: nat, b: nat, c: nat)
    ensures 256 * (a + b * c) == 256 * a + (256 * b) * c
  {
  }

  lemma Ranges()
    ensures Range(1) == 0x100 && Range(4) == 0x1_0000_0000 && Range(8) == 0x1_0000_0000_0000_0000
  {
    assert Range(2) == 0x1_0000;
    assert Range(3) == 0x100_0000;
    assert Range(5) == 0x100_0000_0000;
    assert Range(6) == 0x1_0000_0000_0000;
    assert Range(7) == 0x100_0000_0000_0000;
  }

  // Signed words

  type I64 = x: int | -0x8000_0000_0000_0000 <= x < 0x8000_0000_0000_0000

  /** Two's complement. */
  function ToWord(x: I64): nat { if x < 0 then x + 0x1_0000_0000_0000_0000 else x }

  function FromWord(n: nat): I64
    requires n < Range(8)
  {
    Ranges();
    if n >= 0x8000_0000_0000_0000 then n - 0x1_0000_0000_0000_0000 else n
  }

  lemma SignedRoundTrip(x: I64, n: nat)
    requires n < Range(8)
    ensures ToWord(x) < Range(8) && FromWord(ToWord(x)) == x && ToWord(FromWord(n)) == n
  {
    Ranges();
  }

  // Rows of words

  function Width(widths: seq<nat>): nat {
    if widths == [] then 0 else widths[0] + Width(widths[1..])
  }

  ghost predicate Fit(values: seq<nat>, widths: seq<nat>) {
    |values| == |widths| && forall i :: 0 <= i < |values| ==> values[i] < Range(widths[i])
  }

  function RowToBytes(values: seq<nat>, widths: seq<nat>): (bytes: seq<Byte>)
    requires |values| == |widths|
    ensures |bytes| == Width(widths)
  {
    if values == [] then [] else ToBytes(values[0], widths[0]) + RowToBytes(values[1..], widths[1..])
  }

  function RowFromBytes(bytes: seq<Byte>, widths: seq<nat>): (values: seq<nat>)
    requires |bytes| == Width(widths)
    ensures Fit(values, widths)
    decreases widths
  {
    if widths == [] then []
    else [FromBytes(bytes[..widths[0]])] + RowFromBytes(bytes[widths[0]..], widths[1..])
  }

  lemma {:induction false} RowRoundTrip(values: seq<nat>, widths: seq<nat>)
    requires Fit(values, widths)
    ensures RowFromBytes(RowToBytes(values, widths), widths) == values
  {
    if values != [] {
      var first := ToBytes(values[0], widths[0]);
      var rest := RowToBytes(values[1..], widths[1..]);
      WordRoundTrip(values[0], widths[0]);
      RowRoundTrip(values[1..], widths[1..]);
      assert (first + rest)[..widths[0]] == first && (first + rest)[widths[0]..] == rest;
    }
  }

  /** The sum of the first k widths. */
  function Offset(widths: seq<nat>, k: nat): (at: nat)
    requires k <= |widths|
    ensures at <= Width(widths)
    ensures k < |widths| ==> at + widths[k] <= Width(widths)
    decreases k
  {
    if k == 0 then 0 else widths[0] + Offset(widths[1..], k - 1)
  }

  lemma PartOfRest(bytes: seq<Byte>, lo: nat, i: nat, n: nat)
    requires lo + i + n <= |bytes|
    ensures bytes[lo..][i..i + n] == bytes[lo + i..lo + i + n]
  {
    assert bytes[lo..|bytes|] == bytes[lo..];
    SliceOfSlice(bytes, lo, |bytes|, i, n);
  }

  /** The bytes of word k. */
  function Part(bytes: seq<Byte>, widths: seq<nat>, k: nat): (part: seq<Byte>)
    requires |bytes| == Width(widths) && k < |widths|
    ensures |part| == widths[k]
    decreases k
  {
    if k == 0 then bytes[..widths[0]] else Part(bytes[widths[0]..], widths[1..], k - 1)
  }

  lemma {:induction false} WordOfPart(bytes: seq<Byte>, widths: seq<nat>, k: nat)
    requires |bytes| == Width(widths) && k < |widths|
    ensures RowFromBytes(bytes, widths)[k] == FromBytes(Part(bytes, widths, k))
    decreases k
  {
    if k > 0 {
      WordOfPart(bytes[widths[0]..], widths[1..], k - 1);
    }
  }

  lemma {:induction false} PartAt(bytes: seq<Byte>, widths: seq<nat>, k: nat)
    requires |bytes| == Width(widths) && k < |widths|
    ensures Part(bytes, widths, k) == bytes[Offset(widths, k)..Offset(widths, k) + widths[k]]
    decreases k
  {
    if k > 0 {
      PartAt(bytes[widths[0]..], widths[1..], k - 1);
      PartAfterFirst(bytes, widths[0], Offset(widths[1..], k - 1), widths[k], Offset(widths, k));
    }
  }

  lemma PartAfterFirst(bytes: seq<Byte>, first: nat, inner: nat, n: nat, at: nat)
    requires at == first + inner && at + n <= |bytes|
    ensures bytes[first..][inner..inner + n] == bytes[at..at + n]
  {
    PartOfRest(bytes, first, inner, n);
  }

  /** Word k of a row that lies in a longer buffer. */
  lemma WordInBuffer(bytes: seq<Byte>, start: nat, width: nat, widths: seq<nat>, k: nat, at: nat)
    requires start + width <= |bytes| && width == Width(widths) && k < |widths| && at == Offset(widths, k)
    ensures start + at + widths[k] <= |bytes|
    ensures RowFromBytes(bytes[start..start + width], widths)[k]
         == FromBytes(bytes[start + at..start + at + widths[k]])
  {
    var row, n := bytes[start..start + width], widths[k];
    WordOfPart(row, widths, k);
    PartAt(row, widths, k);
    SliceOfSlice(bytes, start, start + width, at, n);
  }

  /** A row has these bytes exactly when the bytes have these words. */
  lemma SameRow(bytes: seq<Byte>, values: seq<nat>, widths: seq<nat>)
    requires |bytes| == Width(widths) && Fit(values, widths)
    ensures RowToBytes(values, widths) == bytes <==> values == RowFromBytes(bytes, widths)
  {
    RowRoundTrip(values, widths);
    RowBytesRoundTrip(bytes, widths);
  }

  lemma {:induction false} RowBytesRoundTrip(bytes: seq<Byte>, widths: seq<nat>)
    requires |bytes| == Width(widths)
    ensures RowToBytes(RowFromBytes(bytes, widths), widths) == bytes
    decreases widths
  {
    if widths == [] {
      assert bytes == [];
    } else {
      var values := RowFromBytes(bytes, widths);
      assert values[1..] == RowFromBytes(bytes[widths[0]..], widths[1..]);
      BytesRoundTrip(bytes[..widths[0]]);
      RowBytesRoundTrip(bytes[widths[0]..], widths[1..]);
    }
  }

  lemma {:induction false} RowAppend(values: seq<nat>, widths: seq<nat>, more: seq<nat>, moreWidths: seq<nat>)
    requires |values| == |widths| && |more| == |moreWidths|
    ensures RowToBytes(values + more, widths + moreWidths)
         == RowToBytes(values, widths) + RowToBytes(more, moreWidths)
    decreases values
  {
    if values == [] {
      assert [] + more == more && [] + moreWidths == moreWidths;
    } else {
      RowAppend(values[1..], widths[1..], more, moreWidths);
      assert (values + more)[1..] == values[1..] + more;
      assert (widths + moreWidths)[1..] == widths[1..] + moreWidths;
      Associative(ToBytes(values[0], widths[0]), RowToBytes(values[1..], widths[1..]), RowToBytes(more, moreWidths));
    }
  }

  function Same(width: nat, count: nat): seq<nat> { seq(count, _ => width) }

  // Bits

  /** (n & (1 << k)) != 0 */
  predicate Bit(n: nat, k: nat)
    decreases k
  {
    if k == 0 then n % 2 == 1 else Bit(n / 2, k - 1)
  }

  /** n | (1 << k) */
  function SetBit(n: nat, k: nat): nat
    decreases k
  {
    if k == 0 then (if n % 2 == 1 then n else n + 1) else n % 2 + 2 * SetBit(n / 2, k - 1)
  }

  /** The word whose bit k is set when flags[k] is. */
  function Flags(flags: seq<bool>): nat {
    if flags == [] then 0 else (if flags[0] then 1 else 0) + 2 * Flags(flags[1..])
  }

  function Power2(k: nat): nat { if k == 0 then 1 else 2 * Power2(k - 1) }

  lemma {:induction false} FlagBits(flags: seq<bool>, k: nat)
    ensures Flags(flags) < Power2(|flags|)
    ensures Bit(Flags(flags), k) <==> k < |flags| && flags[k]
    decreases |flags|, k
  {
    if flags == [] {
      if k > 0 {
        FlagBits(flags, k - 1);
      }
    } else {
      FlagBits(flags[1..], if k > 0 then k - 1 else 0);
      assert Flags(flags) / 2 == Flags(flags[1..]);
    }
  }

  /** Setting the next bit when a flag is up is adding the flag. */
  lemma {:induction false} FlagSnoc(flags: seq<bool>, flag: bool)
    ensures Flags(flags + [flag]) == if flag then SetBit(Flags(flags), |flags|) else Flags(flags)
  {
    if flags == [] {
      assert Flags([flag]) == (if flag then 1 else 0) + 2 * Flags([flag][1..]);
    } else {
      FlagSnoc(flags[1..], flag);
      assert (flags + [flag])[1..] == flags[1..] + [flag];
    }
  }

  function BitsOf(n: nat, count: nat): seq<bool> { seq(count, k requires 0 <= k < count => Bit(n, k)) }

  /** A word is the set of its first bits exactly when no later bit is set. */
  lemma {:induction false} BitsAreWord(n: nat, count: nat)
    ensures Flags(BitsOf(n, count)) == n <==> n < Power2(count)
    decreases count
  {
    FlagBits(BitsOf(n, count), 0);
    if count > 0 {
      BitsAreWord(n / 2, count - 1);
      assert BitsOf(n, count)[1..] == BitsOf(n / 2, count - 1);
    }
  }
}
