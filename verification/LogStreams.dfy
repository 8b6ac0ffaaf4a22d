/** Integer formatting and the fixed log buffer (base/LogStream.cpp, base/LogStream.h). */
module LogStreams {
  import opened Options

  const MAX_NUMERIC_SIZE: nat := 48

  // ---------------------------------------------------------------- numerals

  const DIGITS := "0123456789ABCDEF"

  function Base(isHex: bool): nat { if isHex then 16 else 10 }

  function DigitChar(d: nat): char
    requires d < 16
  {
    DIGITS[d]
  }

  function Quotient(t: nat, isHex: bool): nat { if isHex then t / 16 else t / 10 }

  function Remainder(t: nat, isHex: bool): (r: nat)
    ensures r < Base(isHex) && t == Base(isHex) * Quotient(t, isHex) + r
  {
    if isHex then t % 16 else t % 10
  }

  /** The numeral of `t` in base 16 or 10, most significant digit first. */
  function Numeral(t: nat, isHex: bool): string {
    if t < Base(isHex) then [DigitChar(t)]
    else Numeral(Quotient(t, isHex), isHex) + [DigitChar(Remainder(t, isHex))]
  }

  function DigitValue(c: char): int {
    if '0' <= c <= '9' then c as int - '0' as int else c as int - 'A' as int + 10
  }

  /** Reading a numeral: the reference convert is measured against. */
  function Read(s: string, isHex: bool): int {
    if s == "" then 0
    else
      var high := Read(s[..|s| - 1], isHex);
      (if isHex then 16 * high else 10 * high) + DigitValue(s[|s| - 1])
  }

  lemma DigitRoundTrip(d: nat)
    requires d < 16
    ensures DigitValue(DigitChar(d)) == d
    ensures DigitChar(d) == '0' ==> d == 0
  {
  }

  /** Decoding the numeral returns the number, and no superfluous zero leads it. */
  lemma {:induction false} NumeralReadsBack(t: nat, isHex: bool)
    ensures Read(Numeral(t, isHex), isHex) == t
    ensures Numeral(t, isHex) != "" && (Numeral(t, isHex)[0] == '0' ==> t == 0)
    ensures t == 0 ==> Numeral(t, isHex) == "0"
    decreases t
  {
    var s := Numeral(t, isHex);
    if t < Base(isHex) {
      DigitRoundTrip(t);
      assert s[..0] == "";
    } else {
      var q, r := Quotient(t, isHex), Remainder(t, isHex);
      NumeralReadsBack(q, isHex);
      DigitRoundTrip(r);
      assert s[..|s| - 1] == Numeral(q, isHex);
    }
  }

  function Pow(isHex: bool, k: nat): nat {
    if k == 0 then 1 else if isHex then 16 * Pow(isHex, k - 1) else 10 * Pow(isHex, k - 1)
  }

  lemma {:induction false} NumeralLength(t: nat, isHex: bool, k: nat)
    requires k > 0 && t < Pow(isHex, k)
    ensures 1 <= |Numeral(t, isHex)| <= k
    decreases k
  {
    if t >= Base(isHex) {
      NumeralLength(Quotient(t, isHex), isHex, k - 1);
    }
  }

  /** A 64-bit value and its terminator fit the reserve formatInteger asks for. */
  lemma SixtyFourBitsFit(t: nat, isHex: bool)
    requires t < 0x1_0000_0000_0000_0000
    ensures |TextOf(t, isHex)| + 1 <= 48 == MAX_NUMERIC_SIZE
  {
    if isHex {
      assert Pow(true, 8) == 0x1_0000_0000;
      assert Pow(true, 16) == 0x1_0000_0000_0000_0000;
      NumeralLength(t, true, 16);
    } else {
      assert Pow(false, 10) == 10_000_000_000;
      assert Pow(false, 20) == 100_000_000_000_000_000_000;
      NumeralLength(t, false, 20);
    }
  }

  function Prefix(isHex: bool): string { if isHex then "0x" else "" }

  function TextOf(t: nat, isHex: bool): string {
    Prefix(isHex) + Numeral(t, isHex)
  }

  /** A number and the base it was written in. */
  datatype Number = Number(value: int, isHex: bool)

  predicate IsDigit(c: char, isHex: bool) { '0' <= c <= '9' || (isHex && 'A' <= c <= 'F') }

  /** Digits of the base and nothing else, with no superfluous zero in front. */
  predicate IsNumeral(d: string, isHex: bool) {
    d != "" && (forall k :: 0 <= k < |d| ==> IsDigit(d[k], isHex)) && (|d| > 1 ==> d[0] != '0')
  }

  /** What a reader makes of a text: the text itself says the base. */
  function ReadText(s: string): Option<Number> {
    if "0x" <= s then
      if IsNumeral(s[2..], true) then Some(Number(Read(s[2..], true), true)) else None
    else
      if IsNumeral(s, false) then Some(Number(Read(s, false), false)) else None
  }

  lemma DigitCharIsDigit(d: nat, isHex: bool)
    requires d < Base(isHex)
    ensures IsNumeral([DigitChar(d)], isHex) && IsDigit(DigitChar(d), isHex)
  {
  }

  lemma {:induction false} NumeralIsNumeral(t: nat, isHex: bool)
    ensures IsNumeral(Numeral(t, isHex), isHex)
    decreases t
  {
    if t >= Base(isHex) {
      var q := Quotient(t, isHex);
      NumeralIsNumeral(q, isHex);
      NumeralReadsBack(q, isHex);
      DigitCharIsDigit(Remainder(t, isHex), isHex);
      OneMoreDigit(Numeral(q, isHex), DigitChar(Remainder(t, isHex)), isHex);
    } else {
      DigitCharIsDigit(t, isHex);
    }
  }

  lemma OneMoreDigit(d: string, c: char, isHex: bool)
    requires IsNumeral(d, isHex) && d[0] != '0' && IsDigit(c, isHex)
    ensures IsNumeral(d + [c], isHex)
  {
  }

  lemma DecimalsHaveNoPrefix(s: string)
    requires IsNumeral(s, false)
    ensures !("0x" <= s)
  {
    assert |s| >= 2 ==> IsDigit(s[1], false) && "0x"[1] == 'x';
  }

  /** The whole text, prefix and all, reads back as the integer in the base asked for. */
  lemma TextReadsBack(t: nat, isHex: bool)
    ensures ReadText(TextOf(t, isHex)) == Some(Number(t, isHex))
  {
    NumeralReadsBack(t, isHex);
    NumeralIsNumeral(t, isHex);
    var s := TextOf(t, isHex);
    if isHex {
      assert s[..2] == "0x" && s[2..] == Numeral(t, true);
    } else {
      assert s == Numeral(t, false);
      DecimalsHaveNoPrefix(s);
    }
  }

  // ----------------------------------------------------------------- convert

  /** C's % and / on int, which truncate toward zero. */
  function TruncRem(a: int, isHex: bool): int {
    if a >= 0 then Remainder(a, isHex) else var r: int := Remainder(-a, isHex); -r
  }

  function TruncDiv(a: int, isHex: bool): int {
    if a >= 0 then Quotient(a, isHex) else var q: int := Quotient(-a, isHex); -q
  }

  /** Every index the do-while loop of convert uses lies inside the digit table. */
  predicate IndicesInRange(t: int, isHex: bool)
    decreases if t >= 0 then t else -t
  {
    0 <= TruncRem(t, isHex) && (TruncDiv(t, isHex) != 0 ==> IndicesInRange(TruncDiv(t, isHex), isHex))
  }

  /** The loop stays inside the table exactly for non-negative values. */
  lemma {:induction false} ConvertSafeIff(t: int, isHex: bool)
    ensures IndicesInRange(t, isHex) <==> t >= 0
    decreases if t >= 0 then t else -t
  {
    if TruncDiv(t, isHex) != 0 {
      ConvertSafeIff(TruncDiv(t, isHex), isHex);
    }
  }

  function Reversed(s: string): (r: string)
    ensures |r| == |s|
  {
    if s == "" then "" else Reversed(s[1..]) + [s[0]]
  }

  lemma {:induction false} ReversedSnoc(s: string, c: char)
    ensures Reversed(s + [c]) == [c] + Reversed(s)
  {
    if s == "" {
      assert "" + [c] == [c];
      assert [c][1..] == "";
    } else {
      ReversedSnoc(s[1..], c);
      assert (s + [c])[1..] == s[1..] + [c];
    }
  }

  lemma {:induction false} ReversedAt(s: string, k: nat)
    requires k < |s|
    ensures Reversed(s)[k] == s[|s| - 1 - k]
  {
    if k < |s| - 1 {
      ReversedAt(s[1..], k);
    }
  }

  lemma ReversedIs(s: string, r: string)
    requires |r| == |s| && forall k :: 0 <= k < |s| ==> r[k] == s[|s| - 1 - k]
    ensures r == Reversed(s)
  {
    forall k | 0 <= k < |s|
      ensures r[k] == Reversed(s)[k]
    {
      ReversedAt(s, k);
    }
  }

  /** std::reverse on a[lo..hi]. */
  method Reverse(a: array<char>, lo: nat, hi: nat)
    requires lo <= hi <= a.Length
    modifies a
    ensures a[lo..hi] == Reversed(old(a[lo..hi]))
    ensures forall k :: 0 <= k < lo || hi <= k < a.Length ==> a[k] == old(a[k])
  {
    var i, j := lo, hi;
    while i + 1 < j
      invariant lo <= i && i + j == lo + hi && i <= j + 1
      invariant forall k :: lo <= k < i || j <= k < hi ==> a[k] == old(a[lo + hi - 1 - k])
      invariant forall k :: i <= k < j ==> a[k] == old(a[k])
      invariant forall k :: 0 <= k < lo || hi <= k < a.Length ==> a[k] == old(a[k])
      decreases j - i
    {
      a[i], a[j - 1] := a[j - 1], a[i];
      i, j := i + 1, j - 1;
    }
    ghost var was := old(a[lo..hi]);
    forall k | 0 <= k < hi - lo
      ensures a[lo..hi][k] == was[hi - lo - 1 - k]
    {
      assert a[lo + k] == old(a[hi - 1 - k]);
    }
    ReversedIs(was, a[lo..hi]);
  }

  /** convert: digits are written least significant first and reversed in place. */
  method Convert(buf: array<char>, at: nat, t: nat, isHex: bool) returns (len: nat)
    requires at + |TextOf(t, isHex)| < buf.Length
    modifies buf
    ensures len == |TextOf(t, isHex)|
    ensures buf[at..at + len] == TextOf(t, isHex) && buf[at + len] == '\0'
    ensures ReadText(buf[at..at + len]) == Some(Number(t, isHex))
    ensures buf[..at + len] == old(buf[..at]) + TextOf(t, isHex)
  {
    ghost var before := buf[..at];
    len := WriteText(buf, at, t, isHex);
    TextReadsBack(t, isHex);
    BehindFront(buf, at, len, before, TextOf(t, isHex));
  }

  lemma BehindFront(buf: array<char>, at: nat, len: nat, before: string, text: string)
    requires at + len <= buf.Length && |before| == at && buf[..at + len] == before + text
    ensures buf[at..at + len] == text
  {
    assert buf[at..at + len] == buf[..at + len][at..];
  }

  /** Its body. */
  method WriteText(buf: array<char>, at: nat, t: nat, isHex: bool) returns (len: nat)
    requires at + |TextOf(t, isHex)| < buf.Length
    modifies buf
    ensures len == |TextOf(t, isHex)| && buf[at + len] == '\0'
    ensures buf[..at + len] == old(buf[..at]) + TextOf(t, isHex)
  {
    ghost var before := buf[..at];
    var start := WritePrefix(buf, at, isHex);
    var p := WriteDigits(buf, start, t, isHex);
    Finish(buf, start, p);
    len := p - at;
    Associate(before, Prefix(isHex), Numeral(t, isHex));
  }

  lemma Associate(a: string, b: string, c: string)
    ensures (a + b) + c == a + (b + c)
  {
  }

  method WritePrefix(buf: array<char>, at: nat, isHex: bool) returns (p: nat)
    requires at + |Prefix(isHex)| < buf.Length
    modifies buf
    ensures p == at + |Prefix(isHex)|
    ensures buf[..p] == old(buf[..at]) + Prefix(isHex)
  {
    p := at;
    if isHex {
      buf[p] := '0';
      p := p + 1;
      buf[p] := 'x';
      p := p + 1;
    }
  }

  /** The end of convert: the terminator, and the digits turned round. */
  method Finish(buf: array<char>, start: nat, p: nat)
    requires start <= p < buf.Length
    modifies buf
    ensures buf[p] == '\0'
    ensures buf[..p] == old(buf[..start]) + Reversed(old(buf[start..p]))
  {
    ghost var front, digits := buf[..start], buf[start..p];
    buf[p] := '\0';
    assert buf[start..p] == digits;
    Reverse(buf, start, p);
    assert buf[..start] == front;
    assert buf[..p] == buf[..start] + buf[start..p];
  }

  /** What is left of the numeral of `t` when the last digit of `tmp` has been written. */
  function Above(tmp: nat, isHex: bool): string {
    if tmp < Base(isHex) then "" else Numeral(Quotient(tmp, isHex), isHex)
  }

  lemma DigitStep(t: nat, tmp: nat, isHex: bool, written: string, c: char)
    requires Numeral(tmp, isHex) + Reversed(written) == Numeral(t, isHex)
    requires c == DIGITS[Remainder(tmp, isHex)]
    ensures Above(tmp, isHex) + Reversed(written + [c]) == Numeral(t, isHex)
    ensures |written| < |Numeral(t, isHex)|
  {
    AboveAndLast(tmp, isHex);
    ReversedSnoc(written, c);
    Regroup(Above(tmp, isHex), c, Reversed(written));
  }

  lemma AboveAndLast(tmp: nat, isHex: bool)
    ensures Numeral(tmp, isHex) == Above(tmp, isHex) + [DIGITS[Remainder(tmp, isHex)]]
  {
    assert tmp < Base(isHex) ==> Remainder(tmp, isHex) == tmp;
  }

  lemma Regroup(a: string, c: char, r: string)
    ensures (a + [c]) + r == a + ([c] + r)
  {
  }

  /** The do-while loop of convert. */
  method WriteDigits(buf: array<char>, start: nat, t: nat, isHex: bool) returns (p: nat)
    requires start + |Numeral(t, isHex)| < buf.Length
    modifies buf
    ensures p == start + |Numeral(t, isHex)|
    ensures Reversed(buf[start..p]) == Numeral(t, isHex)
    ensures buf[..start] == old(buf[..start])
  {
    p := start;
    var tmp: nat := t;
    var more := true;
    assert Numeral(t, isHex) + Reversed(buf[start..p]) == Numeral(t, isHex);
    while more
      invariant start <= p < buf.Length && p - start <= |Numeral(t, isHex)|
      invariant (if more then Numeral(tmp, isHex) else "") + Reversed(buf[start..p]) == Numeral(t, isHex)
      invariant forall k :: 0 <= k < start ==> buf[k] == old(buf[k])
      decreases more, tmp
    {
      var index := Remainder(tmp, isHex);
      ghost var written := buf[start..p];
      DigitStep(t, tmp, isHex, written, DIGITS[index]);
      buf[p] := DIGITS[index];
      p := p + 1;
      assert buf[start..p] == written + [DIGITS[index]];
      tmp := Quotient(tmp, isHex);
      more := tmp != 0;
    }
    assert "" + Reversed(buf[start..p]) == Reversed(buf[start..p]);
  }

  // ------------------------------------------------------------- FixedBuffer

  /** strncpy of a whole message: everything from its first NUL on becomes NUL. */
  function Padded(msg: string): (r: string)
    ensures |r| == |msg|
  {
    if msg == "" then ""
    else if msg[0] == '\0' then seq(|msg|, _ => '\0')
    else [msg[0]] + Padded(msg[1..])
  }

  /** What strncpy still has to write at `k`; `copying` tells that it has seen no NUL. */
  function PadRest(msg: string, k: nat, copying: bool): string
    requires k <= |msg|
  {
    if copying then Padded(msg[k..]) else seq(|msg| - k, _ => '\0')
  }

  /** One character of it. */
  lemma PadStep(msg: string, k: nat, copying: bool)
    requires k < |msg|
    ensures
      var still := copying && msg[k] != '\0';
      PadRest(msg, k, copying) == [if still then msg[k] else '\0'] + PadRest(msg, k + 1, still)
  {
    if copying && msg[k] != '\0' {
      PadCopies(msg, k);
    } else {
      PadFills(|msg| - k);
    }
  }

  lemma NothingWritten(before: string, msg: string)
    ensures before + "" == before && StillToPad(msg, 0, true, "")
  {
    assert msg[0..] == msg;
  }

  /** `written` is what strncpy has written before `k`. */
  predicate StillToPad(msg: string, k: nat, copying: bool, written: string) {
    k <= |msg| && Padded(msg) == written + PadRest(msg, k, copying)
  }

  lemma PadEnds(msg: string, copying: bool, written: string)
    requires StillToPad(msg, |msg|, copying, written)
    ensures written == Padded(msg)
  {
    assert PadRest(msg, |msg|, copying) == "";
  }

  lemma PadMoves(msg: string, k: nat, copying: bool, written: string)
    requires k < |msg| && StillToPad(msg, k, copying, written)
    ensures
      var still := copying && msg[k] != '\0';
      StillToPad(msg, k + 1, still, written + [if still then msg[k] else '\0'])
  {
    PadStep(msg, k, copying);
    var still := copying && msg[k] != '\0';
    Associate(written, [if still then msg[k] else '\0'], PadRest(msg, k + 1, still));
  }

  lemma OneMore(buf: array<char>, i: nat, before: string, written: string)
    requires i < buf.Length && buf[..i] == before + written
    ensures buf[..i + 1] == before + (written + [buf[i]])
  {
  }

  lemma PadCopies(msg: string, k: nat)
    requires k < |msg| && msg[k] != '\0'
    ensures Padded(msg[k..]) == [msg[k]] + Padded(msg[k + 1..])
  {
    assert msg[k..][1..] == msg[k + 1..];
  }

  lemma PadFills(n: nat)
    requires n > 0
    ensures seq(n, _ => '\0') == ['\0'] + seq(n - 1, _ => '\0')
  {
  }

  lemma {:induction false} PaddedIsIdentityIff(msg: string)
    ensures Padded(msg) == msg <==> NulsLast(msg)
  {
    if msg != "" {
      if msg[0] == '\0' {
        NulsAreNuls(msg);
      } else {
        PaddedIsIdentityIff(msg[1..]);
        NulsStayLast(msg);
        assert [msg[0]] + msg[1..] == msg;
        assert ([msg[0]] + Padded(msg[1..]))[1..] == Padded(msg[1..]);
      }
    }
  }

  predicate NulsLast(msg: string) { forall i, j :: 0 <= i < j < |msg| && msg[i] == '\0' ==> msg[j] == '\0' }

  lemma NulsAreNuls(msg: string)
    requires msg != "" && msg[0] == '\0'
    ensures seq(|msg|, _ => '\0') == msg <==> NulsLast(msg)
  {
    var nuls := seq(|msg|, _ => '\0');
    if nuls == msg {
      assert forall j :: 0 <= j < |msg| ==> msg[j] == nuls[j];
    }
  }

  lemma NulsStayLast(msg: string)
    requires msg != "" && msg[0] != '\0'
    ensures NulsLast(msg) <==> NulsLast(msg[1..])
  {
    if NulsLast(msg[1..]) {
      forall i, j | 0 <= i < j < |msg| && msg[i] == '\0'
        ensures msg[j] == '\0'
      {
        assert msg[1..][i - 1] == '\0' && msg[1..][j - 1] == msg[j];
      }
    }
  }

  lemma AfterFront(front: string, text: string)
    ensures (front + text)[|front|..] == text
  {
  }

  class FixedBuffer {
    const buf: array<char>
    var cur: nat

    ghost predicate Valid()
      reads this
    {
      cur <= buf.Length
    }

    ghost function Contents(): string
      requires Valid()
      reads this, buf
    {
      buf[..cur]
    }

    constructor (size: nat)
      ensures Valid() && fresh(buf) && buf.Length == size && Contents() == ""
    {
      buf := new char[size](_ => '\0');
      cur := 0;
    }

    function Available(): nat
      requires Valid()
      reads this
    {
      buf.Length - cur
    }

    method Append(msg: string)
      requires Valid() && |msg| <= Available()
      modifies this, buf
      ensures Valid() && Contents() == old(Contents()) + Padded(msg)
    {
      StrNCopy(buf, cur, msg);
      cur := cur + |msg|;
    }

    /** strncpy of the whole of `msg` to a[at..]. */
    static method StrNCopy(a: array<char>, at: nat, msg: string)
      requires at + |msg| <= a.Length
      modifies a
      ensures a[..at + |msg|] == old(a[..at]) + Padded(msg)
    {
      ghost var before, written := a[..at], "";
      var k, copying := 0, true;
      NothingWritten(before, msg);
      while k < |msg|
        invariant 0 <= k <= |msg|
        invariant a[..at + k] == before + written
        invariant StillToPad(msg, k, copying, written)
      {
        PadMoves(msg, k, copying, written);
        copying := copying && msg[k] != '\0';
        a[at + k] := if copying then msg[k] else '\0';
        OneMore(a, at + k, before, written);
        written := written + [a[at + k]];
        k := k + 1;
      }
      PadEnds(msg, copying, written);
    }

    method AddLen(len: nat)
      requires Valid() && len <= Available()
      modifies this`cur
      ensures Valid() && cur == old(cur) + len
      ensures Contents() == old(Contents()) + buf[old(cur)..old(cur) + len]
    {
      cur := cur + len;
    }

    method Reset()
      modifies this`cur
      ensures Valid() && Contents() == ""
    {
      cur := 0;
    }

    /** LogStream::formatInteger: nothing is written unless the whole reserve is available. */
    method FormatInteger(t: nat, isHex: bool)
      requires Valid() && t < 0x1_0000_0000_0000_0000
      modifies this, buf
      ensures Valid()
      ensures Contents() == old(Contents()) + if old(Available()) > MAX_NUMERIC_SIZE then TextOf(t, isHex) else ""
      ensures old(Available()) > 48 ==>
                && old(cur) <= cur && ReadText(Contents()[old(cur)..]) == Some(Number(t, isHex))
    {
      if Available() > MAX_NUMERIC_SIZE {
        SixtyFourBitsFit(t, isHex);
        PutInteger(t, isHex, Contents(), TextOf(t, isHex));
        TextReadsBack(t, isHex);
      }
    }

    /** convert behind the contents, then addLen. */
    method PutInteger(t: nat, isHex: bool, ghost before: string, ghost text: string)
      requires Valid() && before == Contents() && text == TextOf(t, isHex) && |text| < Available()
      modifies this, buf
      ensures Valid() && cur == old(cur) + |text| && Contents() == before + text && Contents()[old(cur)..] == text
    {
      var len := Convert(buf, cur, t, isHex);
      AddLen(len);
      AfterFront(before, text);
    }
  }
}
