/** `encodeURIComponent`, which the webhook handler applies to the full VIN
    before it puts it in the CARFAX link: every character outside the
    unreserved set is written as the percent-escaped bytes of its UTF-8
    encoding, with upper-case hexadecimal digits. */
module UriEncoding {
  import opened Text

  /** The characters `encodeURIComponent` leaves alone. */
  predicate Unreserved(c: char)
  {
    IsAsciiUpper(c) || IsAsciiLower(c) || IsDigit(c)
    || c == '-' || c == '_' || c == '.' || c == '!' || c == '~' || c == '*'
    || c == '\'' || c == '(' || c == ')'
  }

  predicate IsByte(b: int) { 0 <= b < 256 }

  predicate AllBytes(bs: seq<int>) { forall i :: 0 <= i < |bs| ==> IsByte(bs[i]) }

  /** The UTF-8 encoding of one Unicode scalar value. */
  function Utf8Char(c: char): (bs: seq<int>)
    ensures 1 <= |bs| <= 4 && AllBytes(bs)
    ensures |bs| == 1 <==> c as int < 0x80
    ensures |bs| == 1 ==> bs[0] == c as int
  {
    var cp := c as int;
    if cp < 0x80 then [cp]
    else if cp < 0x800 then [0xC0 + cp / 0x40, 0x80 + cp % 0x40]
    else if cp < 0x1_0000 then [0xE0 + cp / 0x1000, 0x80 + (cp / 0x40) % 0x40, 0x80 + cp % 0x40]
    else [0xF0 + cp / 0x4_0000, 0x80 + (cp / 0x1000) % 0x40, 0x80 + (cp / 0x40) % 0x40, 0x80 + cp % 0x40]
  }

  /** The UTF-8 encoding of a string. */
  function Utf8(s: string): (bs: seq<int>)
    ensures AllBytes(bs)
  {
    if s == [] then [] else Utf8Char(s[0]) + Utf8(s[1..])
  }

  function HexDigit(d: int): (c: char)
    requires 0 <= d < 16
    ensures IsHex(c) && HexValue(c) == d
  {
    if d < 10 then ('0' as int + d) as char else ('A' as int + d - 10) as char
  }

  predicate IsHex(c: char) { IsDigit(c) || 'A' <= c <= 'F' || 'a' <= c <= 'f' }

  function HexValue(c: char): (d: int)
    requires IsHex(c)
    ensures 0 <= d < 16
  {
    if IsDigit(c) then c as int - '0' as int
    else if 'A' <= c <= 'F' then c as int - 'A' as int + 10
    else c as int - 'a' as int + 10
  }

  /** `%XY` for each byte. */
  function PercentBytes(bs: seq<int>): (r: string)
    requires AllBytes(bs)
    ensures |r| == 3 * |bs|
  {
    if bs == [] then [] else Escape(bs[0]) + PercentBytes(bs[1..])
  }

  function EncodeChar(c: char): string
  {
    if Unreserved(c) then [c] else PercentBytes(Utf8Char(c))
  }

  /** `encodeURIComponent(s)` */
  function EncodeUriComponent(s: string): (r: string)
    ensures |r| >= |s|
    ensures s != [] ==> r != []
  {
    if s == [] then [] else EncodeChar(s[0]) + EncodeUriComponent(s[1..])
  }

  /** Reads percent escapes back into bytes; any other character stands for
      its own code as a byte. */
  function PercentDecode(r: string): seq<int>
    decreases |r|
  {
    if r == [] then []
    else if |r| >= 3 && r[0] == '%' && IsHex(r[1]) && IsHex(r[2]) then
      [HexValue(r[1]) * 16 + HexValue(r[2])] + PercentDecode(r[3..])
    else [r[0] as int] + PercentDecode(r[1..])
  }

  // ---------------------------------------------------------------------
  // Properties.

  /** Decoding the escapes of an encoded string gives its UTF-8 bytes back,
      so no two strings share an encoding up to their bytes. */
  lemma {:induction false} DecodeEncode(s: string)
    ensures PercentDecode(EncodeUriComponent(s)) == Utf8(s)
  {
    if s != [] {
      var c := s[0];
      var rest := EncodeUriComponent(s[1..]);
      assert EncodeUriComponent(s) == EncodeChar(c) + rest;
      DecodeEncode(s[1..]);
      if Unreserved(c) {
        assert ([c] + rest)[1..] == rest;
        assert c as int < 0x80;
      } else {
        DecodeBytes(Utf8Char(c), rest);
      }
    }
  }

  lemma {:induction false} DecodeBytes(bs: seq<int>, rest: string)
    requires AllBytes(bs)
    ensures PercentDecode(PercentBytes(bs) + rest) == bs + PercentDecode(rest)
  {
    if bs != [] {
      var b, tail := bs[0], PercentBytes(bs[1..]) + rest;
      Assoc(Escape(b), PercentBytes(bs[1..]), rest);
      DecodeEscape(b, tail);
      DecodeBytes(bs[1..], rest);
      Assoc([b], bs[1..], PercentDecode(rest));
      assert [b] + bs[1..] == bs;
    } else {
      assert PercentBytes(bs) + rest == rest;
    }
  }

  lemma Assoc<T>(a: seq<T>, b: seq<T>, c: seq<T>)
    ensures (a + b) + c == a + (b + c)
  {
  }

  /** `%XY` for one byte. */
  function Escape(b: int): string
    requires IsByte(b)
  {
    ['%', HexDigit(b / 16), HexDigit(b % 16)]
  }

  lemma DecodeEscape(b: int, tail: string)
    requires IsByte(b)
    ensures PercentDecode(Escape(b) + tail) == [b] + PercentDecode(tail)
  {
    var hi, lo := HexDigit(b / 16), HexDigit(b % 16);
    var r := Escape(b) + tail;
    assert r[0] == '%' && r[1] == hi && r[2] == lo && r[3..] == tail;
    assert HexValue(hi) * 16 + HexValue(lo) == b;
  }

  /** A character that can end neither a path segment nor the query. */
  predicate SafeChar(c: char) { Unreserved(c) || c == '%' }

  predicate Safe(r: string) { forall i :: 0 <= i < |r| ==> SafeChar(r[i]) }

  lemma SafeConcat(a: string, b: string)
    requires Safe(a) && Safe(b)
    ensures Safe(a + b)
  {
    forall i | 0 <= i < |a + b| ensures SafeChar((a + b)[i]) {
      if i >= |a| {
        assert (a + b)[i] == b[i - |a|];
      }
    }
  }

  /** The output holds only unreserved characters and `%`: nothing in it can
      end a path segment or start a query or fragment. */
  lemma {:induction false} EncodedIsSafe(s: string)
    ensures Safe(EncodeUriComponent(s))
  {
    if s != [] {
      EncodedIsSafe(s[1..]);
      var c := s[0];
      if !Unreserved(c) {
        PercentBytesSafe(Utf8Char(c));
      } else {
        assert SafeChar([c][0]);
      }
      SafeConcat(EncodeChar(c), EncodeUriComponent(s[1..]));
    }
  }

  lemma {:induction false} PercentBytesSafe(bs: seq<int>)
    requires AllBytes(bs)
    ensures Safe(PercentBytes(bs))
  {
    if bs != [] {
      PercentBytesSafe(bs[1..]);
      var head := Escape(bs[0]);
      assert SafeChar(head[0]) && SafeChar(head[1]) && SafeChar(head[2]);
      SafeConcat(head, PercentBytes(bs[1..]));
    }
  }

  /** A string of unreserved characters only, such as a VIN, is its own
      encoding. */
  lemma {:induction false} UnreservedUnchanged(s: string)
    requires forall i :: 0 <= i < |s| ==> Unreserved(s[i])
    ensures EncodeUriComponent(s) == s
  {
    if s != [] {
      UnreservedUnchanged(s[1..]);
      assert s == [s[0]] + s[1..];
    }
  }

  /** A space is escaped as `%20`. */
  lemma SpaceExample()
    ensures EncodeUriComponent(" ") == "%20"
  {
    assert Utf8Char(' ') == [32];
    assert Escape(32) == ['%', '2', '0'];
    assert PercentBytes([32]) == Escape(32) + PercentBytes([]);
  }
}
