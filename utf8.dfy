/**
 * Go strings are byte sequences, conventionally holding UTF-8, and `len`
 * counts bytes. The model's strings are sequences of Unicode scalar values,
 * so where the client measures or slices a string by `len`, the model goes
 * through the UTF-8 encoding defined here (section 3 of RFC 3629); it covers
 * strings holding valid UTF-8 only.
 */
module Utf8 {

  newtype byte = x: int | 0 <= x < 256

  /** The one to four bytes encoding one scalar value. */
  function EncodeChar(c: char): (r: seq<byte>)
    ensures 1 <= |r| <= 4
    ensures |r| == 1 <==> (c as int) < 0x80
  {
    var n := c as int;
    if n < 0x80 then [n as byte]
    else if n < 0x800 then [(0xC0 + n / 64) as byte, (0x80 + n % 64) as byte]
    else if n < 0x10000 then
      [(0xE0 + n / 4096) as byte, (0x80 + (n / 64) % 64) as byte, (0x80 + n % 64) as byte]
    else
      [(0xF0 + n / 262144) as byte, (0x80 + (n / 4096) % 64) as byte,
       (0x80 + (n / 64) % 64) as byte, (0x80 + n % 64) as byte]
  }

  /** The UTF-8 bytes of a string; `|Encode(s)|` is Go's `len(s)`. */
  function Encode(s: string): seq<byte> {
    if s == [] then [] else EncodeChar(s[0]) + Encode(s[1..])
  }

  /** Encoding a concatenation concatenates the encodings. */
  lemma {:induction false} EncodeAppend(a: string, b: string)
    ensures Encode(a + b) == Encode(a) + Encode(b)
  {
    if a != [] {
      assert (a + b)[0] == a[0];
      assert (a + b)[1..] == a[1..] + b;
      EncodeAppend(a[1..], b);
    } else {
      assert a + b == b;
    }
  }

  /** A common suffix cancels. */
  lemma AppendCancel(a: seq<byte>, b: seq<byte>, c: seq<byte>)
    ensures a + c == b + c <==> a == b
  {
    if a + c == b + c {
      assert |a| == |b|;
      assert a == (a + c)[..|a|];
      assert b == (b + c)[..|b|];
    }
  }

  predicate IsAscii(s: string) {
    forall i :: 0 <= i < |s| ==> (s[i] as int) < 0x80
  }

  /** For ASCII text, and only for it, the byte length is the length in
    * characters. */
  lemma {:induction false} AsciiLength(s: string)
    ensures |Encode(s)| >= |s|
    ensures |Encode(s)| == |s| <==> IsAscii(s)
  {
    if s != [] {
      AsciiLength(s[1..]);
      if IsAscii(s[1..]) && (s[0] as int) < 0x80 {
        forall i | 0 <= i < |s| ensures (s[i] as int) < 0x80 {
          if i > 0 {
            assert s[i] == s[1..][i - 1];
          }
        }
      }
      if IsAscii(s) {
        assert (s[0] as int) < 0x80;
        forall i | 0 <= i < |s[1..]| ensures (s[1..][i] as int) < 0x80 {
          assert s[1..][i] == s[i + 1];
        }
      }
    }
  }
}
