/** `encodeURIComponent(v).replace(/%20/g, '+')`, the value encoding of
    the PayFast base string and postback body (lib/payfast.ts). Values
    are percent-encoded as in section 2.1 of RFC 3986 over their UTF-8
    bytes (section 3 of RFC 3629), keeping the section 2.3 unreserved
    characters and the sub-delimiters `! ' ( ) *` that
    `encodeURIComponent` also leaves alone. */
module Encoding {
  import opened Strings

  /** The UTF-8 bytes of one Unicode scalar value. */
  function Utf8(c: char): (r: seq<int>)
    ensures 1 <= |r| <= 4
    ensures forall i :: 0 <= i < |r| ==> 0 <= r[i] < 256
    ensures |r| == 1 <==> c as int < 0x80
    ensures |r| == 1 ==> r[0] == c as int
    ensures |r| > 1 ==> forall i :: 0 <= i < |r| ==> 0x80 <= r[i]
  {
    var n := c as int;
    if n < 0x80 then [n]
    else if n < 0x800 then [0xC0 + n / 64, 0x80 + n % 64]
    else if n < 0x10000 then [0xE0 + n / 4096, 0x80 + (n / 64) % 64, 0x80 + n % 64]
    else [0xF0 + n / 262144, 0x80 + (n / 4096) % 64, 0x80 + (n / 64) % 64, 0x80 + n % 64]
  }

  /** Upper-case hexadecimal digit, as `encodeURIComponent` writes them. */
  function HexDigit(n: int): char
    requires 0 <= n < 16
  {
    "0123456789ABCDEF"[n]
  }

  predicate IsHexDigit(c: char) {
    '0' <= c <= '9' || 'A' <= c <= 'F'
  }

  function PercentByte(b: int): (r: string)
    requires 0 <= b < 256
    ensures |r| == 3 && r[0] == '%' && IsHexDigit(r[1]) && IsHexDigit(r[2])
  {
    ['%', HexDigit(b / 16), HexDigit(b % 16)]
  }

  function PercentBytes(bs: seq<int>): (r: string)
    requires forall i :: 0 <= i < |bs| ==> 0 <= bs[i] < 256
    ensures |r| == 3 * |bs|
    decreases |bs|
  {
    if bs == [] then [] else PercentByte(bs[0]) + PercentBytes(bs[1..])
  }

  /** The characters `encodeURIComponent` copies unchanged. */
  predicate IsUnreserved(c: char) {
    || 'A' <= c <= 'Z' || 'a' <= c <= 'z' || '0' <= c <= '9'
    || c == '-' || c == '_' || c == '.' || c == '~'
    || c == '!' || c == '\'' || c == '(' || c == ')' || c == '*'
  }

  function EncodeChar(c: char): string {
    if IsUnreserved(c) then [c] else PercentBytes(Utf8(c))
  }

  /** `encodeURIComponent`. A `char` here is a Unicode scalar value, so
      the lone surrogates on which the JavaScript function throws cannot
      occur. */
  function EncodeURIComponent(s: string): string
    decreases |s|
  {
    if s == [] then [] else EncodeChar(s[0]) + EncodeURIComponent(s[1..])
  }

  /** `encodeURIComponent(s).replace(/%20/g, '+')`. */
  function FormEncode(s: string): string {
    ReplaceAll(EncodeURIComponent(s), "%20", "+")
  }

  /** A one-pass reference definition: space becomes `+`, every other
      character is encoded as `encodeURIComponent` does. */
  function PlusEncode(s: string): string
    decreases |s|
  {
    if s == [] then []
    else (if s[0] == ' ' then "+" else EncodeChar(s[0])) + PlusEncode(s[1..])
  }

  /** Encoding never shortens, and leaves a string unchanged exactly
      when all its characters are unreserved. */
  lemma {:induction false} EncodeLength(s: string)
    ensures |EncodeURIComponent(s)| >= |s|
    ensures EncodeURIComponent(s) == s <==> forall i :: 0 <= i < |s| ==> IsUnreserved(s[i])
    decreases |s|
  {
    if s != [] {
      EncodeLength(s[1..]);
      var e := EncodeChar(s[0]);
      assert |e| >= 1;
      if !IsUnreserved(s[0]) {
        assert |e| >= 3;
        assert |EncodeURIComponent(s)| > |s|;
      } else if forall i :: 0 <= i < |s| ==> IsUnreserved(s[i]) {
        assert forall i :: 0 <= i < |s[1..]| ==> IsUnreserved(s[1..][i]) by {
          forall i | 0 <= i < |s[1..]| ensures IsUnreserved(s[1..][i]) {
            assert s[1..][i] == s[i + 1];
          }
        }
        assert s == [s[0]] + s[1..];
      } else {
        var k :| 0 <= k < |s| && !IsUnreserved(s[k]);
        assert k > 0 && s[1..][k - 1] == s[k];
        assert EncodeURIComponent(s[1..]) != s[1..];
        ConsDiffers(s[0], EncodeURIComponent(s[1..]), s[1..]);
        assert s == [s[0]] + s[1..];
      }
    }
  }

  lemma ConsDiffers(c: char, a: string, b: string)
    requires a != b
    ensures [c] + a != [c] + b
  {
    assert ([c] + a)[1..] == a && ([c] + b)[1..] == b;
  }

  lemma ReplaceStep(s: string)
    requires s != [] && !IsPrefix("%20", s)
    ensures ReplaceAll(s, "%20", "+") == [s[0]] + ReplaceAll(s[1..], "%20", "+")
  {
  }

  /** The scan never matches across the hex digits of a byte other than
      0x20. */
  lemma ReplacePercentByte(b: int, rest: string)
    requires 0 <= b < 256 && b != 32
    ensures ReplaceAll(PercentByte(b) + rest, "%20", "+") == PercentByte(b) + ReplaceAll(rest, "%20", "+")
  {
    var p := PercentByte(b);
    var s := p + rest;
    assert s[..3] == p;
    assert !IsPrefix("%20", s);
    ReplaceStep(s);
    assert s[1..] == p[1..] + rest;
    assert !IsPrefix("%20", s[1..]);
    ReplaceStep(s[1..]);
    assert s[1..][1..] == [p[2]] + rest;
    assert !IsPrefix("%20", s[1..][1..]);
    ReplaceStep(s[1..][1..]);
    assert s[1..][1..][1..] == rest;
  }

  lemma {:induction false} ReplacePercentBytes(bs: seq<int>, rest: string)
    requires forall i :: 0 <= i < |bs| ==> 0 <= bs[i] < 256 && bs[i] != 32
    ensures ReplaceAll(PercentBytes(bs) + rest, "%20", "+") == PercentBytes(bs) + ReplaceAll(rest, "%20", "+")
    decreases |bs|
  {
    if bs != [] {
      var head, tail := PercentByte(bs[0]), PercentBytes(bs[1..]);
      assert forall i :: 0 <= i < |bs[1..]| ==> bs[1..][i] == bs[i + 1];
      ReplacePercentByte(bs[0], tail + rest);
      ReplacePercentBytes(bs[1..], rest);
      ReplaceChain(head, tail, rest);
    } else {
      assert PercentBytes(bs) + rest == rest;
    }
  }

  /** Two runs the scan passes over unchanged, one after the other. */
  lemma ReplaceChain(head: string, tail: string, rest: string)
    requires ReplaceAll(head + (tail + rest), "%20", "+") == head + ReplaceAll(tail + rest, "%20", "+")
    requires ReplaceAll(tail + rest, "%20", "+") == tail + ReplaceAll(rest, "%20", "+")
    ensures ReplaceAll((head + tail) + rest, "%20", "+") == (head + tail) + ReplaceAll(rest, "%20", "+")
  {
    assert (head + tail) + rest == head + (tail + rest);
  }

  lemma ReplaceEncodedChar(c: char, rest: string)
    ensures ReplaceAll(EncodeChar(c) + rest, "%20", "+")
         == (if c == ' ' then "+" else EncodeChar(c)) + ReplaceAll(rest, "%20", "+")
  {
    if IsUnreserved(c) {
      assert ([c] + rest)[0] == c && c != '%';
      assert !IsPrefix("%20", [c] + rest);
      ReplaceStep([c] + rest);
      assert ([c] + rest)[1..] == rest;
    } else if c == ' ' {
      assert EncodeChar(c) == "%20";
      assert ("%20" + rest)[3..] == rest;
    } else {
      var bs := Utf8(c);
      assert forall i :: 0 <= i < |bs| ==> bs[i] != 32 by {
        if |bs| == 1 {
          assert c as int != 32;
        }
      }
      ReplacePercentBytes(bs, rest);
    }
  }

  /** Replacing `%20` after encoding is the same as encoding a space as
      `+` directly. */
  lemma {:induction false} FormEncodeIsPlusEncode(s: string)
    ensures FormEncode(s) == PlusEncode(s)
    decreases |s|
  {
    if s != [] {
      FormEncodeIsPlusEncode(s[1..]);
      ReplaceEncodedChar(s[0], EncodeURIComponent(s[1..]));
    }
  }

  /** The characters a form-encoded value is made of. */
  predicate IsFormChar(c: char) {
    IsUnreserved(c) || c == '%' || c == '+'
  }

  lemma {:induction false} PlusEncodeAlphabet(s: string)
    ensures forall i :: 0 <= i < |PlusEncode(s)| ==> IsFormChar(PlusEncode(s)[i])
    decreases |s|
  {
    if s != [] {
      PlusEncodeAlphabet(s[1..]);
      var h := if s[0] == ' ' then "+" else EncodeChar(s[0]);
      PieceAlphabet(s[0]);
      ConcatAlphabet(h, PlusEncode(s[1..]));
    }
  }

  /** What one character becomes is made of form characters. */
  lemma PieceAlphabet(c: char)
    ensures var h := if c == ' ' then "+" else EncodeChar(c);
      forall i :: 0 <= i < |h| ==> IsFormChar(h[i])
  {
    if c != ' ' && !IsUnreserved(c) {
      PercentBytesAlphabet(Utf8(c));
    }
  }

  lemma ConcatAlphabet(a: string, b: string)
    requires forall i :: 0 <= i < |a| ==> IsFormChar(a[i])
    requires forall i :: 0 <= i < |b| ==> IsFormChar(b[i])
    ensures forall i :: 0 <= i < |a + b| ==> IsFormChar((a + b)[i])
  {
    forall i | 0 <= i < |a + b|
      ensures IsFormChar((a + b)[i])
    {
      if i >= |a| {
        assert (a + b)[i] == b[i - |a|];
      }
    }
  }

  lemma {:induction false} PercentBytesAlphabet(bs: seq<int>)
    requires forall i :: 0 <= i < |bs| ==> 0 <= bs[i] < 256
    ensures forall i :: 0 <= i < |PercentBytes(bs)| ==> IsFormChar(PercentBytes(bs)[i])
    decreases |bs|
  {
    if bs != [] {
      PercentBytesAlphabet(bs[1..]);
      var r := PercentBytes(bs);
      forall i | 0 <= i < |r| ensures IsFormChar(r[i]) {
        if i >= 3 {
          assert r[i] == PercentBytes(bs[1..])[i - 3];
        }
      }
    }
  }

  /** A form-encoded value holds only unreserved characters, `%` and
      `+`; in particular no space, `&` or `=`, so it cannot break the
      `k=v&k=v` structure of the base string. */
  lemma FormEncodeAlphabet(s: string)
    ensures forall i :: 0 <= i < |FormEncode(s)| ==> IsFormChar(FormEncode(s)[i])
    ensures ' ' !in FormEncode(s) && '&' !in FormEncode(s) && '=' !in FormEncode(s)
  {
    FormEncodeIsPlusEncode(s);
    PlusEncodeAlphabet(s);
    FormCharsOnly(FormEncode(s));
  }

  /** A string of form characters has no space, `&` or `=`. */
  lemma FormCharsOnly(t: string)
    requires forall i :: 0 <= i < |t| ==> IsFormChar(t[i])
    ensures ' ' !in t && '&' !in t && '=' !in t
  {
  }
}
