/** The two conversions of text the wrapper relies on: a `String`'s bytes (`as_bytes`, which is
    what `CString::new` copies) and the decimal rendering of an integer by `{}`. */
module Text {
  import opened Ints

  /** The UTF-8 encoding of one Unicode scalar value. */
  function EncodeChar(c: char): (b: seq<u8>)
    ensures 1 <= |b| <= 4
    ensures b[0] == 0 <==> c == '\0'
    ensures c as int < 0x80 ==> b == [c as int]
    ensures forall i :: 1 <= i < |b| ==> 0x80 <= b[i] < 0xC0
  {
    var cp := c as int;
    if cp < 0x80 then [cp]
    else if cp < 0x800 then [0xC0 + cp / 0x40, 0x80 + cp % 0x40]
    else if cp < 0x1_0000 then [0xE0 + cp / 0x1000, 0x80 + (cp / 0x40) % 0x40, 0x80 + cp % 0x40]
    else [0xF0 + cp / 0x4_0000, 0x80 + (cp / 0x1000) % 0x40, 0x80 + (cp / 0x40) % 0x40, 0x80 + cp % 0x40]
  }

  /** `s.as_bytes()`: the UTF-8 encoding of a string. */
  function Utf8(s: string): (b: seq<u8>)
    ensures |s| <= |b| <= 4 * |s|
  {
    if s == [] then [] else EncodeChar(s[0]) + Utf8(s[1..])
  }

  lemma {:induction false} Utf8Append(s: string, t: string)
    ensures Utf8(s + t) == Utf8(s) + Utf8(t)
  {
    if s == [] {
      assert s + t == t;
    } else {
      assert (s + t)[1..] == s[1..] + t;
      Utf8Append(s[1..], t);
    }
  }

  /** A string is NUL-free exactly when its bytes are: `CString::new` accepts exactly these. */
  lemma {:induction false} Utf8HasNul(s: string)
    ensures 0 in Utf8(s) <==> '\0' in s
  {
    if s != [] {
      Utf8HasNul(s[1..]);
      var b := EncodeChar(s[0]);
      assert 0 in b <==> s[0] == '\0' by {
        if 0 in b {
          var i :| 0 <= i < |b| && b[i] == 0;
          assert i == 0;
        }
      }
      assert Utf8(s) == b + Utf8(s[1..]);
      assert '\0' in s <==> s[0] == '\0' || '\0' in s[1..] by {
        if '\0' in s {
          var i :| 0 <= i < |s| && s[i] == '\0';
          if i > 0 { assert s[1..][i - 1] == '\0'; }
        }
        if '\0' in s[1..] {
          var i :| 0 <= i < |s[1..]| && s[1..][i] == '\0';
          assert s[i + 1] == '\0';
        }
      }
    }
  }

  /** Text made only of 7-bit characters. */
  predicate IsAscii(s: string) {
    forall i :: 0 <= i < |s| ==> s[i] as int < 0x80
  }

  /** On ASCII text there is one byte per character, so byte counts equal character counts. */
  lemma {:induction false} Utf8Ascii(s: string)
    requires IsAscii(s)
    ensures |Utf8(s)| == |s|
    ensures forall i :: 0 <= i < |s| ==> Utf8(s)[i] == s[i] as int
  {
    if s != [] {
      assert IsAscii(s[1..]) by {
        forall i | 0 <= i < |s[1..]| ensures s[1..][i] as int < 0x80 {
          assert s[1..][i] == s[i + 1];
        }
      }
      Utf8Ascii(s[1..]);
    }
  }

  predicate IsDigit(c: char) {
    '0' <= c <= '9'
  }

  function DigitChar(d: nat): (c: char)
    requires d < 10
    ensures IsDigit(c) && c as int - '0' as int == d
  {
    (('0' as int) + d) as char
  }

  /** Rust's `{}` rendering of an unsigned integer: its decimal digits, most significant first,
      with no leading zeros. */
  function Decimal(n: nat): (s: string)
    ensures |s| > 0
    ensures forall i :: 0 <= i < |s| ==> IsDigit(s[i])
    ensures |s| > 1 ==> s[0] != '0'
  {
    if n < 10 then [DigitChar(n)] else Decimal(n / 10) + [DigitChar(n % 10)]
  }

  /** The value of a string of decimal digits. */
  function ParseDecimal(s: string): (n: nat)
    requires forall i :: 0 <= i < |s| ==> IsDigit(s[i])
  {
    if s == [] then 0
    else
      var last := s[|s| - 1];
      assert IsDigit(last);
      10 * ParseDecimal(s[..|s| - 1]) + (last as int - '0' as int)
  }

  /** The rendering can be read back: different integers never render alike. */
  lemma {:induction false} DecimalRoundTrip(n: nat)
    ensures ParseDecimal(Decimal(n)) == n
  {
    if n >= 10 {
      var s := Decimal(n);
      assert s[..|s| - 1] == Decimal(n / 10);
      DecimalRoundTrip(n / 10);
    }
  }

  /** Every digit string without a leading zero is the rendering of its value. */
  lemma {:induction false} DecimalOfParse(s: string)
    requires |s| > 0 && forall i :: 0 <= i < |s| ==> IsDigit(s[i])
    requires |s| > 1 ==> s[0] != '0'
    ensures Decimal(ParseDecimal(s)) == s
  {
    var n := ParseDecimal(s);
    if |s| == 1 {
      assert s[..0] == [];
    } else {
      var p := s[..|s| - 1];
      assert p[0] == s[0];
      DecimalOfParse(p);
      ParseDecimalPositive(p);
      assert n / 10 == ParseDecimal(p);
      assert Decimal(n) == Decimal(ParseDecimal(p)) + [DigitChar(n % 10)];
      assert s == p + [s[|s| - 1]];
    }
  }

  lemma {:induction false} ParseDecimalPositive(s: string)
    requires |s| > 0 && forall i :: 0 <= i < |s| ==> IsDigit(s[i])
    requires s[0] != '0'
    ensures ParseDecimal(s) > 0
  {
    if |s| > 1 {
      var p := s[..|s| - 1];
      assert p[0] == s[0];
      ParseDecimalPositive(p);
    }
  }
}
