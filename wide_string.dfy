/**
 * The wide-string helpers of `src/lib.rs`: text goes to the SDK as NUL-terminated UTF-16
 * (`str_to_u16_vec`) and comes back through a `*const u16` read up to its NUL
 * (`u16_ptr_to_os_string`, `u16_to_string`). UTF-16 follows RFC 2781, section 2.1
 * (encoding) and section 2.2 (decoding). An `OsString` on Windows holds arbitrary
 * 16-bit code units, so it is modelled by those units.
 */
module WideString {
  import opened Prelude
  import opened Native

  predicate IsHighSurrogate(u: u16) { 0xD800 <= u <= 0xDBFF }
  predicate IsLowSurrogate(u: u16) { 0xDC00 <= u <= 0xDFFF }
  predicate IsSurrogate(u: u16) { 0xD800 <= u <= 0xDFFF }

  /** RFC 2781, section 2.1, for one character (a Unicode scalar value). */
  function EncodeChar(c: char): (r: seq<u16>)
    ensures |r| == 1 ==> !IsSurrogate(r[0]) && r[0] as int == c as int
    ensures |r| == 2 ==> IsHighSurrogate(r[0]) && IsLowSurrogate(r[1])
    ensures |r| == 1 || |r| == 2
  {
    var v := c as int;
    if v < 0x1_0000 then [v as u16]
    else
      var w := v - 0x1_0000;
      [(0xD800 + w / 0x400) as u16, (0xDC00 + w % 0x400) as u16]
  }

  function EncodeUtf16(s: string): seq<u16> {
    if s == [] then [] else EncodeChar(s[0]) + EncodeUtf16(s[1..])
  }

  /** The character a surrogate pair stands for (RFC 2781, section 2.2, step 3). */
  function PairValue(hi: u16, lo: u16): (c: char)
    requires IsHighSurrogate(hi) && IsLowSurrogate(lo)
    ensures c as int >= 0x1_0000
  {
    ((hi as int - 0xD800) * 0x400 + (lo as int - 0xDC00) + 0x1_0000) as char
  }

  /** RFC 2781, section 2.2: `None` when the units are not well-formed UTF-16. */
  function DecodeUtf16(u: seq<u16>): Option<string>
    decreases |u|
  {
    if u == [] then Some([])
    else if !IsSurrogate(u[0]) then
      match DecodeUtf16(u[1..])
      case Some(rest) => Some([(u[0] as int) as char] + rest)
      case None => None
    else if IsHighSurrogate(u[0]) && |u| >= 2 && IsLowSurrogate(u[1]) then
      match DecodeUtf16(u[2..])
      case Some(rest) => Some([PairValue(u[0], u[1])] + rest)
      case None => None
    else None
  }

  /**
   * Well-formed UTF-16, stated on its own: every high surrogate is followed by a low
   * surrogate, and every low surrogate follows a high one.
   */
  ghost predicate WellFormed(u: seq<u16>) {
    && (forall i :: 0 <= i < |u| && IsHighSurrogate(u[i]) ==> i + 1 < |u| && IsLowSurrogate(u[i + 1]))
    && (forall i :: 0 <= i < |u| && IsLowSurrogate(u[i]) ==> 0 < i && IsHighSurrogate(u[i - 1]))
  }

  /** `str_to_u16_vec`: the UTF-16 encoding of `s` followed by one NUL. */
  function StrToU16Vec(s: string): (r: seq<u16>)
    ensures |r| == |EncodeUtf16(s)| + 1 && r[|r| - 1] == 0
    ensures r[..|r| - 1] == EncodeUtf16(s)
  {
    EncodeUtf16(s) + [0]
  }

  /** The units before the first NUL of a NUL-terminated buffer (`take_while(!= 0).count()` of them). */
  function BeforeNul(u: seq<u16>): (r: seq<u16>)
    requires 0 in u
    ensures |r| < |u| && r == u[..|r|] && u[|r|] == 0 && 0 !in r
  {
    if u[0] == 0 then [] else [u[0]] + BeforeNul(u[1..])
  }

  /** `u16_ptr_to_os_string`: nothing for a null pointer, else the units up to the first NUL. */
  function U16PtrToOsString(p: WideStr): (r: seq<u16>)
    ensures p.NullWide? ==> r == []
    ensures p.Wide? ==> r == BeforeNul(p.units)
  {
    if p.NullWide? then [] else BeforeNul(p.units)
  }

  const InvalidEncoding := "Invalid string encoding"

  /** `u16_to_string`: the decoded text, or a fixed message when it is not well-formed. */
  function U16ToString(p: WideStr): (s: string)
    ensures WellFormed(U16PtrToOsString(p)) ==> EncodeUtf16(s) == U16PtrToOsString(p)
    ensures !WellFormed(U16PtrToOsString(p)) ==> s == InvalidEncoding
  {
    DecodeWellFormed(U16PtrToOsString(p));
    match DecodeUtf16(U16PtrToOsString(p))
    case Some(text) => EncodeDecode(U16PtrToOsString(p)); text
    case None => InvalidEncoding
  }

  /** The text before the first `'\0'` of `s`, or all of it. */
  function TextBeforeNul(s: string): (r: string)
    ensures |r| <= |s| && r == s[..|r|] && '\0' !in r
    ensures |r| < |s| ==> s[|r|] == '\0'
  {
    if s == [] || s[0] == '\0' then [] else [s[0]] + TextBeforeNul(s[1..])
  }

  // ---- Lemmas ----

  lemma EncodeUtf16Append(a: string, b: string)
    ensures EncodeUtf16(a + b) == EncodeUtf16(a) + EncodeUtf16(b)
  {
    if a != [] {
      assert (a + b)[0] == a[0] && (a + b)[1..] == a[1..] + b;
      EncodeUtf16Append(a[1..], b);
      calc {
        EncodeUtf16(a + b);
        EncodeChar(a[0]) + EncodeUtf16(a[1..] + b);
        EncodeChar(a[0]) + (EncodeUtf16(a[1..]) + EncodeUtf16(b));
        EncodeUtf16(a) + EncodeUtf16(b);
      }
    } else {
      assert a + b == b;
    }
  }

  /** Decoding inverts encoding (RFC 2781, sections 2.1 and 2.2). */
  lemma {:induction false} DecodeEncode(s: string)
    ensures DecodeUtf16(EncodeUtf16(s)) == Some(s)
  {
    if s != [] {
      DecodeEncode(s[1..]);
      var e := EncodeChar(s[0]);
      var u := EncodeUtf16(s);
      assert u == e + EncodeUtf16(s[1..]);
      if |e| == 1 {
        assert u[1..] == EncodeUtf16(s[1..]);
      } else {
        assert u[2..] == EncodeUtf16(s[1..]);
        var w := s[0] as int - 0x1_0000;
        assert (w / 0x400) * 0x400 + w % 0x400 == w;
        assert PairValue(u[0], u[1]) == s[0];
      }
      assert s == [s[0]] + s[1..];
    }
  }

  /** Encoding inverts decoding: a decoded string re-encodes to exactly the units it came from. */
  lemma {:induction false} EncodeDecode(u: seq<u16>)
    requires DecodeUtf16(u).Some?
    ensures EncodeUtf16(DecodeUtf16(u).value) == u
    decreases |u|
  {
    if u != [] {
      var s := DecodeUtf16(u).value;
      if !IsSurrogate(u[0]) {
        EncodeDecode(u[1..]);
        assert s[1..] == DecodeUtf16(u[1..]).value;
        assert u == [u[0]] + u[1..];
      } else {
        EncodeDecode(u[2..]);
        assert s[1..] == DecodeUtf16(u[2..]).value;
        var hi, lo := u[0] as int - 0xD800, u[1] as int - 0xDC00;
        assert (hi * 0x400 + lo) / 0x400 == hi && (hi * 0x400 + lo) % 0x400 == lo;
        assert EncodeChar(s[0]) == [u[0], u[1]];
        assert u == [u[0], u[1]] + u[2..];
      }
    }
  }

  /** `DecodeUtf16` succeeds exactly on well-formed input. */
  lemma {:induction false} DecodeWellFormed(u: seq<u16>)
    ensures DecodeUtf16(u).Some? <==> WellFormed(u)
    decreases |u|
  {
    if u == [] {
    } else if !IsSurrogate(u[0]) {
      DecodeWellFormed(u[1..]);
      WellFormedTail(u, 1);
    } else if IsHighSurrogate(u[0]) && |u| >= 2 && IsLowSurrogate(u[1]) {
      DecodeWellFormed(u[2..]);
      WellFormedTail(u, 2);
    } else {
      assert !WellFormed(u) by {
        if IsHighSurrogate(u[0]) {
          assert !(1 < |u| && IsLowSurrogate(u[1]));
        } else {
          assert IsLowSurrogate(u[0]);
        }
      }
    }
  }

  /**
   * After a complete leading character (one non-surrogate unit, or a surrogate pair),
   * the whole sequence is well-formed exactly when the rest is.
   */
  lemma WellFormedTail(u: seq<u16>, n: nat)
    requires n == 1 || n == 2
    requires n <= |u|
    requires n == 1 ==> !IsSurrogate(u[0])
    requires n == 2 ==> IsHighSurrogate(u[0]) && IsLowSurrogate(u[1])
    ensures WellFormed(u) <==> WellFormed(u[n..])
  {
    var t := u[n..];
    if WellFormed(t) {
      forall i | 0 <= i < |u| && IsHighSurrogate(u[i])
        ensures i + 1 < |u| && IsLowSurrogate(u[i + 1])
      {
        if i >= n { assert t[i - n] == u[i]; }
      }
      forall i | 0 <= i < |u| && IsLowSurrogate(u[i])
        ensures 0 < i && IsHighSurrogate(u[i - 1])
      {
        if i > n {
          assert t[i - n] == u[i];
        }
      }
    }
    if WellFormed(u) {
      forall i | 0 <= i < |t| && IsHighSurrogate(t[i])
        ensures i + 1 < |t| && IsLowSurrogate(t[i + 1])
      {
        assert u[i + n] == t[i];
      }
      forall i | 0 <= i < |t| && IsLowSurrogate(t[i])
        ensures 0 < i && IsHighSurrogate(t[i - 1])
      {
        assert u[i + n] == t[i];
      }
    }
  }

  /** Units without a NUL are read through unchanged. */
  lemma {:induction false} BeforeNulSkip(e: seq<u16>, r: seq<u16>)
    requires 0 !in e && 0 in r
    ensures BeforeNul(e + r) == e + BeforeNul(r)
  {
    if e != [] {
      assert (e + r)[0] == e[0] != 0;
      assert (e + r)[1..] == e[1..] + r;
      BeforeNulSkip(e[1..], r);
      calc {
        BeforeNul(e + r);
        [e[0]] + BeforeNul(e[1..] + r);
        [e[0]] + (e[1..] + BeforeNul(r));
        { assert e == [e[0]] + e[1..]; }
        e + BeforeNul(r);
      }
    } else {
      assert e + r == r;
    }
  }

  /** Only `'\0'` encodes to a NUL unit. */
  lemma EncodeCharNoNul(c: char)
    requires c != '\0'
    ensures 0 !in EncodeChar(c)
  {
    var r := EncodeChar(c);
    if |r| == 1 {
      assert r == [r[0]];
    } else {
      assert r == [r[0], r[1]];
    }
  }

  lemma EncodeCons(c: char, t: string)
    ensures EncodeUtf16([c] + t) == EncodeChar(c) + EncodeUtf16(t)
  {
    assert ([c] + t)[1..] == t;
  }

  /** Text without `'\0'` encodes without a NUL unit. */
  lemma {:induction false} EncodeNoNul(s: string)
    requires '\0' !in s
    ensures 0 !in EncodeUtf16(s)
  {
    if s != [] {
      assert s[0] != '\0' && '\0' !in s[1..];
      EncodeCharNoNul(s[0]);
      EncodeNoNul(s[1..]);
    }
  }

  /** A NUL unit appears in an encoding exactly where the first `'\0'` character was. */
  lemma {:induction false} EncodeBeforeNul(s: string, tail: seq<u16>)
    requires '\0' in s && 0 in EncodeUtf16(s) + tail
    ensures BeforeNul(EncodeUtf16(s) + tail) == EncodeUtf16(TextBeforeNul(s))
  {
    assert s != [];
    if s[0] == '\0' {
      assert TextBeforeNul(s) == [];
    } else {
      var e := EncodeChar(s[0]);
      var rest := EncodeUtf16(s[1..]) + tail;
      assert EncodeUtf16(s) + tail == e + rest;
      EncodeCharNoNul(s[0]);
      BeforeNulSkip(e, rest);
      assert '\0' in s[1..] by { assert s == [s[0]] + s[1..]; }
      EncodeBeforeNul(s[1..], tail);
      var t := TextBeforeNul(s[1..]);
      assert TextBeforeNul(s) == [s[0]] + t;
      EncodeCons(s[0], t);
    }
  }

  /**
   * Round trip through the SDK: reading back a buffer made by `str_to_u16_vec` gives the
   * text up to its first `'\0'`, which is all of it when it has none.
   */
  lemma StrToU16VecRoundTrip(s: string)
    ensures U16PtrToOsString(Wide(StrToU16Vec(s))) == EncodeUtf16(TextBeforeNul(s))
    ensures U16ToString(Wide(StrToU16Vec(s))) == TextBeforeNul(s)
    ensures '\0' !in s ==> U16ToString(Wide(StrToU16Vec(s))) == s
  {
    if '\0' in s {
      EncodeBeforeNul(s, [0]);
    } else {
      EncodeNoNul(s);
      BeforeNulSkip(EncodeUtf16(s), [0]);
      assert TextBeforeNul(s) == s;
      assert BeforeNul([0]) == [];
    }
    DecodeEncode(TextBeforeNul(s));
    DecodeWellFormed(EncodeUtf16(TextBeforeNul(s)));
  }
}
