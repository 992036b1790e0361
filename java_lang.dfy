/**
 * The pieces of java.lang that the server's core relies on, stated exactly:
 * nullable references, 32-bit int arithmetic, String.hashCode and
 * Integer.toString.
 */
module JavaLang {

  /** A Java reference that may be null. */
  datatype Option<+T> = None | Some(value: T)

  const TwoTo31: int := 0x8000_0000
  const TwoTo32: int := 0x1_0000_0000

  /** The values of a Java `int` / `Integer`. */
  type Int32 = x: int | -TwoTo31 <= x < TwoTo31

  /** Java's two's-complement wrap-around of an exact integer to an `int`. */
  function Wrap32(x: int): (r: Int32)
    ensures (r - x) % TwoTo32 == 0
    ensures -TwoTo31 <= x < TwoTo31 ==> r == x
  {
    (x + TwoTo31) % TwoTo32 - TwoTo31
  }

  /** Adding a multiple of 2^32 does not change the wrapped value. */
  lemma Wrap32Shift(x: int, k: int)
    ensures Wrap32(x + k * TwoTo32) == Wrap32(x)
  {
  }

  /** Wrapping an intermediate result of `31 * h + c` changes nothing. */
  lemma HornerStepWraps(x: int, c: int)
    ensures Wrap32(31 * Wrap32(x) + c) == Wrap32(31 * x + c)
  {
    var w := Wrap32(x);
    var j := (w - x) / TwoTo32;
    assert w == x + j * TwoTo32;
    assert 31 * w + c == (31 * x + c) + (31 * j) * TwoTo32;
    Wrap32Shift(31 * x + c, 31 * j);
  }

  // ---------------------------------------------------------------------------
  // Strings as UTF-16

  /** A Java `char`: one UTF-16 code unit. */
  type CodeUnit = x: int | 0 <= x < 0x1_0000

  /** The UTF-16 code units of one Unicode character. */
  function CharUnits(c: char): (u: seq<CodeUnit>)
    ensures |u| == 1 <==> (c as int) < 0x1_0000
    ensures |u| == 1 ==> u[0] == c as int
    ensures 1 <= |u| <= 2
  {
    var n := c as int;
    if n < 0x1_0000 then [n]
    else [0xD800 + (n - 0x1_0000) / 0x400, 0xDC00 + (n - 0x1_0000) % 0x400]
  }

  /** The UTF-16 code units a Java String holds for `s`. */
  function Utf16(s: string): (u: seq<CodeUnit>)
    ensures |s| <= |u| <= 2 * |s|
  {
    if s == [] then [] else CharUnits(s[0]) + Utf16(s[1..])
  }

  /** The code units of a string of characters below U+10000 are the characters themselves. */
  lemma {:induction false} Utf16Bmp(s: string)
    requires forall i :: 0 <= i < |s| ==> (s[i] as int) < 0x1_0000
    ensures |Utf16(s)| == |s|
    ensures forall i :: 0 <= i < |s| ==> Utf16(s)[i] == s[i] as int
  {
    if s != [] {
      Utf16Bmp(s[1..]);
    }
  }

  // ---------------------------------------------------------------------------
  // String.hashCode

  /** Java's hash loop `h = 31 * h + unit` over the code units, in `int` arithmetic. */
  function HashUnits(us: seq<CodeUnit>): Int32
  {
    if us == [] then 0 else Wrap32(31 * HashUnits(us[..|us| - 1]) + us[|us| - 1])
  }

  /** `s.hashCode()` for a Java String `s`. */
  function HashCode(s: string): Int32
  {
    HashUnits(Utf16(s))
  }

  function Pow31(n: nat): nat
  {
    if n == 0 then 1 else 31 * Pow31(n - 1)
  }

  /**
   * The exact (unbounded) value of the documented formula
   * s[0]*31^(n-1) + s[1]*31^(n-2) + ... + s[n-1].
   */
  function Poly(us: seq<CodeUnit>): int
  {
    if us == [] then 0 else us[0] * Pow31(|us| - 1) + Poly(us[1..])
  }

  lemma {:induction false} PolySnoc(us: seq<CodeUnit>, c: CodeUnit)
    ensures Poly(us + [c]) == 31 * Poly(us) + c
  {
    if us == [] {
      assert Poly([c]) == c * Pow31(0) + Poly([]);
    } else {
      assert (us + [c])[1..] == us[1..] + [c];
      PolySnoc(us[1..], c);
      calc {
        Poly(us + [c]);
        us[0] * Pow31(|us|) + Poly(us[1..] + [c]);
        us[0] * (31 * Pow31(|us| - 1)) + 31 * Poly(us[1..]) + c;
        { assert us[0] * (31 * Pow31(|us| - 1)) == 31 * (us[0] * Pow31(|us| - 1)); }
        31 * (us[0] * Pow31(|us| - 1) + Poly(us[1..])) + c;
      }
    }
  }

  /** The wrapped loop computes the documented polynomial, wrapped to 32 bits once at the end. */
  lemma {:induction false} HashUnitsIsWrappedPoly(us: seq<CodeUnit>)
    ensures HashUnits(us) == Wrap32(Poly(us))
  {
    if us != [] {
      var init, c := us[..|us| - 1], us[|us| - 1];
      assert us == init + [c];
      HashUnitsIsWrappedPoly(init);
      HornerStepWraps(Poly(init), c);
      PolySnoc(init, c);
    }
  }

  /** String.hashCode is the documented polynomial over the UTF-16 units, wrapped to an `int`. */
  lemma HashCodeIsWrappedPoly(s: string)
    ensures HashCode(s) == Wrap32(Poly(Utf16(s)))
  {
    HashUnitsIsWrappedPoly(Utf16(s));
  }

  /** The empty string hashes to 0. */
  lemma HashCodeEmpty()
    ensures HashCode("") == 0
  {
  }

  /** "Aa" and "BB" are distinct strings with the same hash code (both 2112). */
  lemma {:induction false} HashCodeCollision()
    ensures "Aa" != "BB"
    ensures HashCode("Aa") == HashCode("BB") == 2112
  {
    assert Utf16("Aa") == [65, 97] by {
      assert Utf16("a") == [97] by { assert "a"[1..] == []; }
      assert "Aa"[1..] == "a";
    }
    assert Utf16("BB") == [66, 66] by {
      assert Utf16("B") == [66] by { assert "B"[1..] == []; }
      assert "BB"[1..] == "B";
    }
    assert HashUnits([65]) == 65 by { assert [65][..0] == []; }
    assert HashUnits([66]) == 66 by { assert [66][..0] == []; }
    assert [65, 97][..1] == [65];
    assert [66, 66][..1] == [66];
  }

  // ---------------------------------------------------------------------------
  // Integer.toString and its inverse

  predicate IsDigit(c: char) {
    '0' <= c <= '9'
  }

  function DigitChar(d: int): (c: char)
    requires 0 <= d < 10
    ensures IsDigit(c)
  {
    (48 + d) as char
  }

  function DigitValue(c: char): (d: int)
    requires IsDigit(c)
    ensures 0 <= d < 10 && DigitChar(d) == c
  {
    (c as int) - 48
  }

  /** Decimal digits of `n`, most significant first, no leading zeros. */
  function NatToString(n: nat): (s: string)
    ensures |s| >= 1
    ensures forall i :: 0 <= i < |s| ==> IsDigit(s[i])
    ensures s[0] == '0' <==> n == 0
    ensures |s| > 1 ==> s[0] != '0'
  {
    if n < 10 then [DigitChar(n)] else NatToString(n / 10) + [DigitChar(n % 10)]
  }

  /** `Integer.toString(n)` (what `StringBuilder.append(Integer)` appends). */
  function IntToString(n: int): (s: string)
    ensures |s| >= 1
    ensures forall i :: 0 <= i < |s| ==> IsDigit(s[i]) || (i == 0 && s[i] == '-')
    ensures s[0] == '-' <==> n < 0
    ensures n >= 0 ==> (s[0] == '0' <==> n == 0)
    ensures n < 0 ==> |s| >= 2 && s[1] != '0'
  {
    if n < 0 then "-" + NatToString(-n) else NatToString(n)
  }

  /** Reads a non-empty run of decimal digits; None for anything else. */
  function ParseDigits(s: string): Option<nat>
  {
    if s == [] || !IsDigit(s[|s| - 1]) then None
    else if |s| == 1 then Some(DigitValue(s[0]))
    else match ParseDigits(s[..|s| - 1])
      case None => None
      case Some(v) => Some(10 * v + DigitValue(s[|s| - 1]))
  }

  /** Reads an optionally negative decimal integer; None for anything else. */
  function ParseInt(s: string): Option<int>
  {
    if |s| > 0 && s[0] == '-' then
      match ParseDigits(s[1..])
      case None => None
      case Some(v) => Some(-(v as int))
    else
      match ParseDigits(s)
      case None => None
      case Some(v) => Some(v)
  }

  lemma {:induction false} ParseNatToString(n: nat)
    ensures ParseDigits(NatToString(n)) == Some(n)
  {
    if n >= 10 {
      var s := NatToString(n);
      assert s[..|s| - 1] == NatToString(n / 10);
      ParseNatToString(n / 10);
    }
  }

  /** ParseInt inverts IntToString. */
  lemma ParseIntToString(n: int)
    ensures ParseInt(IntToString(n)) == Some(n)
  {
    if n < 0 {
      assert IntToString(n)[1..] == NatToString(-n);
      ParseNatToString(-n);
    } else {
      ParseNatToString(n);
    }
  }
}
