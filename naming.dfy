/**
 * Output names of the dataset sweep: a snapshot's UUID in its two textual
 * forms (`str(uuid)` and `uuid.hex`), Python's decimal rendering of a
 * non-negative index with `:04d` zero padding, and the per-render base name
 * `<hex>_<index>` of `generate_dataset_from_config`.
 */
module Naming {

  predicate IsHexDigit(c: char)
  {
    '0' <= c <= '9' || 'a' <= c <= 'f'
  }

  predicate IsDecimalDigit(c: char)
  {
    '0' <= c <= '9'
  }

  /** `uuid.hex`: 32 lower-case hexadecimal digits. */
  type UuidHex = s: string | |s| == 32 && forall i :: 0 <= i < |s| ==> IsHexDigit(s[i])
    witness "00000000000000000000000000000000"

  /** A snapshot identity, by its 128 bits written as `uuid.hex`. */
  datatype Uuid = Uuid(hex: UuidHex)

  /** `str(uuid)`: the hex digits grouped 8-4-4-4-12 with hyphens. */
  function UuidStr(u: Uuid): (s: string)
    ensures |s| == 36
  {
    var h := u.hex;
    h[..8] + "-" + h[8..12] + "-" + h[12..16] + "-" + h[16..20] + "-" + h[20..]
  }

  /** `str(uuid)` determines the UUID: dropping the four hyphens gives back `uuid.hex`. */
  lemma UuidStrInjective(a: Uuid, b: Uuid)
    ensures UuidStr(a) == UuidStr(b) <==> a == b
  {
    if UuidStr(a) == UuidStr(b) {
      UuidStrGroups(a);
      UuidStrGroups(b);
    }
  }

  /**
   * `str(uuid)` has hyphens at positions 8, 13, 18 and 23, and the hex digits
   * are the characters outside them.
   */
  lemma UuidStrGroups(u: Uuid)
    ensures var s := UuidStr(u);
      s[8] == '-' && s[13] == '-' && s[18] == '-' && s[23] == '-' &&
      u.hex == s[..8] + s[9..13] + s[14..18] + s[19..23] + s[24..]
  {
    var h := u.hex;
    var s := UuidStr(u);
    assert s[..8] == h[..8];
    assert s[9..13] == h[8..12];
    assert s[14..18] == h[12..16];
    assert s[19..23] == h[16..20];
    assert s[24..] == h[20..];
    assert h == h[..8] + h[8..12] + h[12..16] + h[16..20] + h[20..];
  }

  /** The character of a decimal digit. */
  function DigitChar(d: nat): (c: char)
    requires d < 10
    ensures IsDecimalDigit(c)
    ensures c == '0' <==> d == 0
  {
    ('0' as int + d) as char
  }

  /** The value of a decimal digit character. */
  function DigitValue(c: char): (d: nat)
    requires IsDecimalDigit(c)
    ensures d < 10
  {
    (c as int - '0' as int) as nat
  }

  /** `str(n)` for `n >= 0`: its decimal digits, most significant first, no leading zero. */
  function Decimal(n: nat): (s: string)
    ensures |s| >= 1
    ensures forall i :: 0 <= i < |s| ==> IsDecimalDigit(s[i])
    ensures n == 0 ==> s == "0"
    ensures n > 0 ==> s[0] != '0'
  {
    if n < 10 then [DigitChar(n)] else Decimal(n / 10) + [DigitChar(n % 10)]
  }

  /** The number a string of decimal digits denotes (leading zeros allowed). */
  function DigitsValue(s: string): nat
    requires forall i :: 0 <= i < |s| ==> IsDecimalDigit(s[i])
  {
    if s == [] then 0 else 10 * DigitsValue(s[..|s| - 1]) + DigitValue(s[|s| - 1])
  }

  lemma DigitRoundTrip(d: nat)
    requires d < 10
    ensures DigitValue(DigitChar(d)) == d
  {
  }

  /** Reading back the decimal rendering gives the number. */
  lemma {:induction false} DecimalRoundTrip(n: nat)
    ensures DigitsValue(Decimal(n)) == n
  {
    DigitRoundTrip(n % 10);
    if n >= 10 {
      var s := Decimal(n);
      assert s[..|s| - 1] == Decimal(n / 10);
      DecimalRoundTrip(n / 10);
    }
  }

  /** `k` zero characters. */
  function Zeros(k: nat): (s: string)
    ensures |s| == k
    ensures forall i :: 0 <= i < |s| ==> s[i] == '0'
  {
    if k == 0 then [] else Zeros(k - 1) + ['0']
  }

  /** Leading zeros do not change the value of a digit string. */
  lemma {:induction false} LeadingZerosValue(k: nat, s: string)
    requires forall i :: 0 <= i < |s| ==> IsDecimalDigit(s[i])
    ensures DigitsValue(Zeros(k) + s) == DigitsValue(s)
  {
    if s == [] {
      assert Zeros(k) + s == Zeros(k);
      ZerosValue(k);
    } else {
      var t := Zeros(k) + s;
      assert t[..|t| - 1] == Zeros(k) + s[..|s| - 1];
      LeadingZerosValue(k, s[..|s| - 1]);
    }
  }

  lemma {:induction false} ZerosValue(k: nat)
    ensures DigitsValue(Zeros(k)) == 0
  {
    if k > 0 {
      assert Zeros(k)[..k - 1] == Zeros(k - 1);
      ZerosValue(k - 1);
    }
  }

  /** `f"{n:04d}"`: the decimal digits of `n`, zero-padded on the left to four. */
  function ZeroPad4(n: nat): (s: string)
    ensures var d := Decimal(n);
      |s| == (if |d| < 4 then 4 else |d|) &&
      s[|s| - |d|..] == d && (forall i :: 0 <= i < |s| - |d| ==> s[i] == '0')
  {
    var d := Decimal(n);
    (if |d| < 4 then Zeros(4 - |d|) else []) + d
  }

  /**
   * The padded index is exactly four characters, or the digits of `n` when
   * there are more; all are digits, and it reads back as the index.
   */
  lemma ZeroPad4Digits(n: nat)
    ensures var s := ZeroPad4(n);
      |s| == (if |Decimal(n)| < 4 then 4 else |Decimal(n)|) &&
      (forall i :: 0 <= i < |s| ==> IsDecimalDigit(s[i])) && DigitsValue(s) == n
  {
    var d := Decimal(n);
    LeadingZerosValue(if |d| < 4 then 4 - |d| else 0, d);
    DecimalRoundTrip(n);
  }

  /** Different indices are padded to different strings. */
  lemma ZeroPad4Injective(i: nat, j: nat)
    requires ZeroPad4(i) == ZeroPad4(j)
    ensures i == j
  {
    ZeroPad4Digits(i);
    ZeroPad4Digits(j);
  }

  /** The file extension of renders and their annotations. */
  const PngSuffix: string := ".png"

  /** The base name of one render: `f"{snapshot.id.hex}_{bg_idx:04d}"`. */
  function BaseName(id: Uuid, bgIdx: nat): (r: string)
    ensures |r| == 33 + |ZeroPad4(bgIdx)|
    ensures r[..32] == id.hex && r[32] == '_' && r[33..] == ZeroPad4(bgIdx)
  {
    id.hex + "_" + ZeroPad4(bgIdx)
  }

  /** The image and annotation file name of one render: `<base>.png`. */
  function FileName(id: Uuid, bgIdx: nat): (r: string)
  {
    BaseName(id, bgIdx) + PngSuffix
  }

  /**
   * A file name is the 32 hex digits of the id, an underscore, the padded
   * index (four digits, or the index's digits when there are more) and `.png`.
   */
  lemma FileNameParts(id: Uuid, bgIdx: nat)
    ensures var s := FileName(id, bgIdx);
      |s| == 37 + (if |Decimal(bgIdx)| < 4 then 4 else |Decimal(bgIdx)|) && s[..32] == id.hex && s[32] == '_' && s[33..|s| - 4] == ZeroPad4(bgIdx) &&
      s[|s| - 4..] == PngSuffix
  {
    ZeroPad4Digits(bgIdx);
    var s := FileName(id, bgIdx);
    assert s == id.hex + "_" + ZeroPad4(bgIdx) + PngSuffix;
  }

  /** Names are fully determined by and determine `(snapshot id, background index)`. */
  lemma FileNamesDistinct(a: Uuid, i: nat, b: Uuid, j: nat)
    ensures FileName(a, i) == FileName(b, j) <==> a == b && i == j
  {
    if FileName(a, i) == FileName(b, j) {
      FileNameParts(a, i);
      FileNameParts(b, j);
      ZeroPad4Injective(i, j);
    }
  }

  /** `f"{7:04d}"` is "0007". */
  lemma PadOneDigit()
    ensures ZeroPad4(7) == "0007"
  {
    assert Decimal(7) == "7";
    assert Zeros(3) == "000";
  }

  /** `f"{12345:04d}"` is "12345": five digits are not truncated. */
  lemma PadFiveDigits()
    ensures ZeroPad4(12345) == "12345"
  {
    assert Decimal(12) == Decimal(1) + "2";
    assert Decimal(123) == Decimal(12) + "3";
    assert Decimal(1234) == Decimal(123) + "4";
    assert Decimal(12345) == Decimal(1234) + "5";
  }
}
