/**
 * Go's `strconv.ParseUint(s, 16, 64)`: a non-empty string of base-16
 * digits (either case, no prefix, no sign, no underscores) whose value fits
 * in 64 bits. The scan is modelled as Go performs it, digit check before
 * overflow check, so the kind of error matches Go's; it is proved against a
 * declarative reading of hexadecimal numerals.
 */
module HexParse {
  import opened Wrappers

  const MaxUint64: nat := 0xFFFF_FFFF_FFFF_FFFF
  newtype uint64 = x: int | 0 <= x <= 0xFFFF_FFFF_FFFF_FFFF

  /** The smallest n with n * 16 > MaxUint64: multiplying n by the base would overflow. */
  const Cutoff: nat := MaxUint64 / 16 + 1

  /** `strconv.ErrSyntax` and `strconv.ErrRange`. */
  datatype NumError = ErrSyntax | ErrRange

  // ----- Declarative reading of a hexadecimal numeral -----

  predicate IsHexDigit(c: char) {
    ('0' <= c <= '9') || ('a' <= c <= 'f') || ('A' <= c <= 'F')
  }

  function HexDigitValue(c: char): nat
    requires IsHexDigit(c)
  {
    if '0' <= c <= '9' then c as nat - '0' as nat
    else if 'a' <= c <= 'f' then c as nat - 'a' as nat + 10
    else c as nat - 'A' as nat + 10
  }

  predicate AllHex(s: string) {
    forall k :: 0 <= k < |s| ==> IsHexDigit(s[k])
  }

  /** The value of a numeral, most significant digit first. */
  function HexValue(s: string): nat
    requires AllHex(s)
  {
    if |s| == 0 then 0
    else HexValue(s[..|s| - 1]) * 16 + HexDigitValue(s[|s| - 1])
  }

  // ----- The scan as Go performs it -----

  /**
   * Go's digit mapping before the base check: decimal digits are 0-9 and
   * letters of either case are 10-35; anything else is not a digit.
   */
  function DigitOf(c: char): (d: Option<nat>)
    ensures d.Some? && d.value < 16 <==> IsHexDigit(c)
    ensures d.Some? && d.value < 16 ==> d.value == HexDigitValue(c)
  {
    if '0' <= c <= '9' then Some(c as nat - '0' as nat)
    else if 'a' <= c <= 'z' then Some(c as nat - 'a' as nat + 10)
    else if 'A' <= c <= 'Z' then Some(c as nat - 'A' as nat + 10)
    else None
  }

  /**
   * The loop of `ParseUint` from position `i` with accumulated value `n`.
   * It succeeds exactly when the rest is all digits and the whole value
   * fits, returning that value; an all-digit string that does not fit is a
   * range error.
   */
  function Scan(s: string, i: nat, n: nat): (r: Result<nat, NumError>)
    requires i <= |s| && n <= MaxUint64
    requires AllHex(s[..i]) && n == HexValue(s[..i])
    ensures r.Ok? <==> AllHex(s) && HexValue(s) <= MaxUint64
    ensures r.Ok? ==> r.value == HexValue(s)
    ensures AllHex(s) && HexValue(s) > MaxUint64 ==> r == Fail(ErrRange)
    decreases |s| - i
  {
    if i == |s| then
      assert s[..i] == s;
      Ok(n)
    else
      PrefixStep(s, i);
      match DigitOf(s[i])
      case None => Fail(ErrSyntax)
      case Some(d) =>
        if d >= 16 then Fail(ErrSyntax)
        else if n >= Cutoff then OverflowPersists(s, i + 1); Fail(ErrRange)
        else
          var n1 := n * 16 + d;
          if n1 > MaxUint64 then OverflowPersists(s, i + 1); Fail(ErrRange)
          else Scan(s, i + 1, n1)
  }

  /**
   * The kind of error is decided at the first position that is not a digit:
   * a syntax error if the digits before it fit in 64 bits, a range error if
   * they already overflowed.
   */
  lemma {:induction false} ScanFirstBadPosition(s: string, i: nat, n: nat, k: nat)
    requires i <= |s| && n <= MaxUint64
    requires AllHex(s[..i]) && n == HexValue(s[..i])
    requires i <= k < |s| && AllHex(s[..k]) && !IsHexDigit(s[k])
    ensures Scan(s, i, n) == if HexValue(s[..k]) <= MaxUint64 then Fail(ErrSyntax) else Fail(ErrRange)
    decreases |s| - i
  {
    PrefixStep(s, i);
    if i == k {
      assert DigitOf(s[i]).None? || DigitOf(s[i]).value >= 16;
    } else {
      assert s[..k][i] == s[i];
      var d := HexDigitValue(s[i]);
      if n >= Cutoff || n * 16 + d > MaxUint64 {
        OverflowPersists(s, i + 1);
      } else {
        ScanFirstBadPosition(s, i + 1, n * 16 + d, k);
      }
    }
  }

  /** `strconv.ParseUint(s, 16, 64)`. */
  function ParseUint16(s: string): (r: Result<uint64, NumError>)
    ensures r.Ok? <==> |s| > 0 && AllHex(s) && HexValue(s) <= MaxUint64
    ensures r.Ok? ==> r.value as int == HexValue(s)
    ensures |s| == 0 ==> r == Fail(ErrSyntax)
    ensures |s| > 0 && AllHex(s) && HexValue(s) > MaxUint64 ==> r == Fail(ErrRange)
  {
    if |s| == 0 then Fail(ErrSyntax)
    else
      assert s[..0] == [];
      match Scan(s, 0, 0)
      case Ok(v) => Ok(v as uint64)
      case Fail(e) => Fail(e)
  }

  /** Go's base-16 parse takes no prefix and no sign, and letters in either case. */
  lemma ParseUint16Examples()
    ensures ParseUint16("") == Fail(ErrSyntax)
    ensures ParseUint16("0x1f") == Fail(ErrSyntax)
    ensures ParseUint16("+1") == Fail(ErrSyntax)
    ensures ParseUint16("aF") == Ok(175)
  {
  }

  // ----- Facts about prefixes used by the scan's proof -----

  /** Extending an all-digit prefix by one digit multiplies by 16 and adds it. */
  lemma PrefixStep(s: string, i: nat)
    requires i < |s| && AllHex(s[..i])
    ensures IsHexDigit(s[i]) ==> AllHex(s[..i + 1]) && HexValue(s[..i + 1]) == HexValue(s[..i]) * 16 + HexDigitValue(s[i])
    ensures !IsHexDigit(s[i]) ==> !AllHex(s) && !AllHex(s[..i + 1])
  {
    assert s[..i + 1][..i] == s[..i];
    assert s[..i + 1][i] == s[i];
  }

  /** A prefix that already overflows stays overflowed however many digits follow. */
  lemma {:induction false} OverflowPersists(s: string, j: nat)
    requires j <= |s| && AllHex(s[..j]) && HexValue(s[..j]) > MaxUint64
    ensures AllHex(s) ==> HexValue(s) > MaxUint64
    ensures forall k :: j <= k <= |s| && AllHex(s[..k]) ==> HexValue(s[..k]) > MaxUint64
    decreases |s| - j
  {
    if j < |s| {
      PrefixStep(s, j);
      if IsHexDigit(s[j]) {
        OverflowPersists(s, j + 1);
      } else {
        forall k | j < k <= |s|
          ensures !AllHex(s[..k])
        {
          assert s[..k][j] == s[j];
        }
      }
    } else {
      assert s[..j] == s;
    }
  }
}
