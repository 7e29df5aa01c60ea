/**
 * `generateTelegramAccessCode`: clamp the requested length to [8, 12], draw ceil(length / 2)
 * random bytes, hex-encode them and keep the first `length` characters. The random bytes
 * are a parameter.
 */
module Helpers {
  import opened Wrappers
  import Js

  /** A byte as produced by `crypto.randomBytes`. */
  type Byte = x: nat | x < 256

  const HexDigits: string := "0123456789abcdef"

  const DefaultCodeLength: nat := 12

  predicate IsLowerHex(c: char)
  {
    '0' <= c <= '9' || 'a' <= c <= 'f'
  }

  /** The two `if`s on `length`, with the parameter default 12 when it is not given. */
  function ClampLength(length: Option<int>): (n: nat)
    ensures 8 <= n <= 12
    ensures length.Some? && 8 <= length.value <= 12 ==> n == length.value
  {
    var l := length.GetOr(DefaultCodeLength);
    if l < 8 then 8 else if l > 12 then 12 else l
  }

  /** `Math.ceil(length / 2)`. */
  function ByteLength(n: nat): (b: nat)
    ensures 2 * b >= n && 2 * b <= n + 1
  {
    (n + 1) / 2
  }

  function HexByte(b: Byte): (r: string)
    ensures |r| == 2 && IsLowerHex(r[0]) && IsLowerHex(r[1])
  {
    [HexDigits[b / 16], HexDigits[b % 16]]
  }

  /** `Buffer.toString('hex')`: two lowercase digits per byte, high nibble first. */
  function Hex(bytes: seq<Byte>): (r: string)
    ensures |r| == 2 * |bytes|
    ensures forall i :: 0 <= i < |r| ==> IsLowerHex(r[i])
  {
    if |bytes| == 0 then [] else Hex(bytes[..|bytes| - 1]) + HexByte(bytes[|bytes| - 1])
  }

  /** Value of one lowercase hexadecimal digit. */
  function HexValue(c: char): (v: nat)
    requires IsLowerHex(c)
    ensures v < 16 && HexDigits[v] == c
  {
    if c <= '9' then c as nat - '0' as nat else c as nat - 'a' as nat + 10
  }

  /** Decoding of a hexadecimal string of even length: the inverse of `Hex`. */
  function Unhex(s: string): (bytes: seq<Byte>)
    requires |s| % 2 == 0
    requires forall i :: 0 <= i < |s| ==> IsLowerHex(s[i])
    ensures |bytes| == |s| / 2
  {
    if |s| == 0 then []
    else
      Unhex(s[..|s| - 2]) + [(HexValue(s[|s| - 2]) * 16 + HexValue(s[|s| - 1]))]
  }

  /** The two digits of one byte decode back to it. */
  lemma HexByteDecodes(b: Byte)
    ensures HexValue(HexByte(b)[0]) * 16 + HexValue(HexByte(b)[1]) == b
  {
    var n: nat := b;
    assert HexValue(HexByte(b)[0]) == n / 16;
    assert HexValue(HexByte(b)[1]) == n % 16;
    assert n / 16 * 16 + n % 16 == n;
  }

  /** Decoding a string that ends in the two digits of `b` ends in `b`. */
  lemma UnhexSnoc(s: string, b: Byte)
    requires |s| % 2 == 0
    requires forall i :: 0 <= i < |s| ==> IsLowerHex(s[i])
    ensures forall i :: 0 <= i < |s + HexByte(b)| ==> IsLowerHex((s + HexByte(b))[i])
    ensures Unhex(s + HexByte(b)) == Unhex(s) + [b]
  {
    var h := HexByte(b);
    var c0, c1 := h[0], h[1];
    HexByteDecodes(b);
    var v := HexValue(c0) * 16 + HexValue(c1);
    assert v == b;
    assert s + h == s + [c0, c1];
    UnhexTwo(s, c0, c1);
    assert Unhex(s + h) == Unhex(s) + [v];
  }

  /** Two more digits decode to one more byte. */
  lemma UnhexTwo(s: string, c0: char, c1: char)
    requires |s| % 2 == 0
    requires forall i :: 0 <= i < |s| ==> IsLowerHex(s[i])
    requires IsLowerHex(c0) && IsLowerHex(c1)
    ensures forall i :: 0 <= i < |s + [c0, c1]| ==> IsLowerHex((s + [c0, c1])[i])
    ensures Unhex(s + [c0, c1]) == Unhex(s) + [HexValue(c0) * 16 + HexValue(c1)]
  {
    var t := s + [c0, c1];
    assert forall i :: 0 <= i < |t| ==> t[i] == if i < |s| then s[i] else [c0, c1][i - |s|];
    assert t[..|t| - 2] == s;
  }

  lemma {:induction false} UnhexHex(bytes: seq<Byte>)
    ensures Unhex(Hex(bytes)) == bytes
  {
    if |bytes| > 0 {
      var init := bytes[..|bytes| - 1];
      var b := bytes[|bytes| - 1];
      Js.LastSplit(bytes);
      assert Hex(bytes) == Hex(init) + HexByte(b);
      UnhexSnoc(Hex(init), b);
      UnhexHex(init);
    }
  }

  /** `generateTelegramAccessCode(length)` with `bytes` as the output of `crypto.randomBytes`. */
  function AccessCode(length: Option<int>, bytes: seq<Byte>): (r: string)
    ensures |bytes| == ByteLength(ClampLength(length)) ==> |r| == ClampLength(length)
    ensures forall i :: 0 <= i < |r| ==> IsLowerHex(r[i])
    ensures r <= Hex(bytes)
  {
    var n := ClampLength(length);
    var h := Hex(bytes);
    if n <= |h| then h[..n] else h
  }

  /** A code of the default length carries all six random bytes: it decodes back to them. */
  lemma DefaultCodeDecodes(bytes: seq<Byte>)
    requires |bytes| == ByteLength(DefaultCodeLength)
    ensures |AccessCode(None, bytes)| == DefaultCodeLength
    ensures Unhex(AccessCode(None, bytes)) == bytes
  {
    var h := Hex(bytes);
    assert AccessCode(None, bytes) == h[..12] == h;
    UnhexHex(bytes);
  }

  /** Every request outside [8, 12] is served at the nearer bound. */
  lemma ClampBounds(length: int)
    ensures length < 8 ==> ClampLength(Some(length)) == 8
    ensures length > 12 ==> ClampLength(Some(length)) == 12
    ensures ClampLength(Some(ClampLength(Some(length)))) == ClampLength(Some(length))
  {
  }
}
