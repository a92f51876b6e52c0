/** Text as Rust's `str` holds it: a sequence of Unicode scalar values stored as UTF-8 (section 3 of RFC 3629) and
    measured by the protocol in UTF-16 code units (section 2.1 of RFC 2781). */
module Text {
  import opened Wrappers
  import opened VarInt

  type scalar = c: int | 0 <= c < 0x11_0000 && !(0xd800 <= c < 0xe000)
  type text = seq<scalar>

  function EncodeScalar(c: scalar): (bytes: seq<byte>)
    ensures 1 <= |bytes| <= 4
  {
    if c < 0x80 then [c]
    else if c < 0x800 then [0xc0 + c / 64, 0x80 + c % 64]
    else if c < 0x1_0000 then [0xe0 + c / 4096, 0x80 + c / 64 % 64, 0x80 + c % 64]
    else [0xf0 + c / 262144, 0x80 + c / 4096 % 64, 0x80 + c / 64 % 64, 0x80 + c % 64]
  }

  function Utf8(t: text): seq<byte> {
    if t == [] then [] else EncodeScalar(t[0]) + Utf8(t[1..])
  }

  predicate Continuation(b: byte) {
    0x80 <= b < 0xc0
  }

  predicate IsScalar(c: int) {
    0 <= c < 0x11_0000 && !(0xd800 <= c < 0xe000)
  }

  function Join2(b0: int, b1: int): int {
    (b0 - 0xc0) * 64 + (b1 - 0x80)
  }

  function Join3(b0: int, b1: int, b2: int): int {
    (b0 - 0xe0) * 4096 + (b1 - 0x80) * 64 + (b2 - 0x80)
  }

  function Join4(b0: int, b1: int, b2: int, b3: int): int {
    (b0 - 0xf0) * 262144 + (b1 - 0x80) * 4096 + (b2 - 0x80) * 64 + (b3 - 0x80)
  }

  /** The scalar value at the start of the bytes, and how many bytes it takes. Overlong forms, surrogates and
      values beyond U+10FFFF are not UTF-8. */
  function DecodeScalar(b: seq<byte>): Option<(scalar, nat)> {
    if b == [] then None
    else if b[0] < 0x80 then Some((b[0], 1))
    else if b[0] < 0xc0 then None
    else if b[0] < 0xe0 then
      if |b| < 2 || !Continuation(b[1]) then None
      else
        var c := Join2(b[0], b[1]);
        if c < 0x80 then None else Some((c, 2))
    else if b[0] < 0xf0 then
      if |b| < 3 || !Continuation(b[1]) || !Continuation(b[2]) then None
      else
        var c := Join3(b[0], b[1], b[2]);
        if c < 0x800 || !IsScalar(c) then None else Some((c, 3))
    else if b[0] < 0xf8 then
      if |b| < 4 || !Continuation(b[1]) || !Continuation(b[2]) || !Continuation(b[3]) then None
      else
        var c := Join4(b[0], b[1], b[2], b[3]);
        if c < 0x1_0000 || !IsScalar(c) then None else Some((c, 4))
    else None
  }

  lemma Split3(c: int)
    requires 0 <= c < 0x1_0000
    ensures Join3(0xe0 + c / 4096, 0x80 + c / 64 % 64, 0x80 + c % 64) == c
  {
    assert c / 64 / 64 == c / 4096;
  }

  lemma Split4(c: int)
    requires 0 <= c < 0x20_0000
    ensures Join4(0xf0 + c / 262144, 0x80 + c / 4096 % 64, 0x80 + c / 64 % 64, 0x80 + c % 64) == c
  {
    var d := c / 64;
    assert d / 64 == c / 4096 && d / 64 / 64 == c / 262144;
  }

  lemma ScalarRoundTrip(c: scalar, rest: seq<byte>)
    ensures DecodeScalar(EncodeScalar(c) + rest) == Some((c, |EncodeScalar(c)|))
  {
    var b := EncodeScalar(c) + rest;
    if c < 0x80 {
    } else if c < 0x800 {
      assert Join2(b[0], b[1]) == c;
    } else if c < 0x1_0000 {
      Split3(c);
      assert b[0] == 0xe0 + c / 4096 && b[1] == 0x80 + c / 64 % 64 && b[2] == 0x80 + c % 64;
    } else {
      Split4(c);
      assert b[0] == 0xf0 + c / 262144 && b[1] == 0x80 + c / 4096 % 64;
      assert b[2] == 0x80 + c / 64 % 64 && b[3] == 0x80 + c % 64;
    }
  }

  lemma Parts3(c: int, x: int, y: int, z: int)
    requires c == x * 4096 + y * 64 + z && 0 <= y < 64 && 0 <= z < 64
    ensures c / 4096 == x && c / 64 % 64 == y && c % 64 == z
  {
    assert c / 64 == x * 64 + y;
  }

  lemma Parts4(c: int, w: int, x: int, y: int, z: int)
    requires c == w * 262144 + x * 4096 + y * 64 + z && 0 <= x < 64 && 0 <= y < 64 && 0 <= z < 64
    ensures c / 262144 == w && c / 4096 % 64 == x && c / 64 % 64 == y && c % 64 == z
  {
    assert c / 64 == w * 4096 + x * 64 + y;
    Parts3(c / 64, w, x, y);
    assert c / 64 / 64 == c / 4096 && c / 64 / 4096 == c / 262144;
  }

  lemma DecodedScalarsAreEncoded(b: seq<byte>)
    requires DecodeScalar(b).Some?
    ensures DecodeScalar(b).value.1 <= |b|
    ensures b[..DecodeScalar(b).value.1] == EncodeScalar(DecodeScalar(b).value.0)
  {
    var c: int, n := DecodeScalar(b).value.0, DecodeScalar(b).value.1;
    if n == 2 {
      assert b[..2] == [b[0], b[1]];
      assert c / 64 == b[0] - 0xc0 && c % 64 == b[1] - 0x80;
    } else if n == 3 {
      assert b[..3] == [b[0], b[1], b[2]];
      Parts3(c, b[0] - 0xe0, b[1] - 0x80, b[2] - 0x80);
    } else if n == 4 {
      assert b[..4] == [b[0], b[1], b[2], b[3]];
      Parts4(c, b[0] - 0xf0, b[1] - 0x80, b[2] - 0x80, b[3] - 0x80);
    }
  }

  predicate Continues(b: seq<byte>) {
    forall i :: 1 <= i < |b| ==> 0x80 <= b[i] < 0xc0
  }

  function Lead(b: seq<byte>, mark: int): int
    requires b != []
  {
    b[0] as int - mark
  }

  function Tail(b: seq<byte>, i: nat): int
    requires i < |b|
  {
    b[i] as int - 0x80
  }

  /** The bytes of a scalar value, by the number of bits that it needs. */
  lemma EncodingIsExact(c: scalar, b: seq<byte>)
    ensures EncodeScalar(c) == b <==>
      && Continues(b)
      && var value: int := c;
         || (|b| == 1 && value < 0x80 && b[0] == value)
         || (|b| == 2 && 0x80 <= value < 0x800 && value == Lead(b, 0xc0) * 0x40 + Tail(b, 1))
         || (|b| == 3 && 0x800 <= value < 0x1_0000
             && value == Lead(b, 0xe0) * 0x1000 + Tail(b, 1) * 0x40 + Tail(b, 2))
         || (|b| == 4 && 0x1_0000 <= value
             && value == Lead(b, 0xf0) * 0x4_0000 + Tail(b, 1) * 0x1000 + Tail(b, 2) * 0x40 + Tail(b, 3))
  {
    hide EncodeScalar;
    ScalarRoundTrip(c, []);
    assert EncodeScalar(c) + [] == EncodeScalar(c);
    if DecodeScalar(b) == Some((c, |b|)) {
      DecodedScalarsAreEncoded(b);
      assert b[..|b|] == b;
    }
  }

  /** `str::from_utf8`. */
  function FromUtf8(b: seq<byte>): Option<text>
    decreases |b|
  {
    if b == [] then Some([])
    else
      var first := DecodeScalar(b);
      if first.None? then None
      else
        DecodedScalarsAreEncoded(b);
        var rest := FromUtf8(b[first.value.1..]);
        if rest.None? then None else Some([first.value.0] + rest.value)
  }

  lemma {:induction false} TextRoundTrip(t: text)
    ensures FromUtf8(Utf8(t)) == Some(t)
  {
    hide DecodeScalar, EncodeScalar;
    if t != [] {
      TextRoundTrip(t[1..]);
      ScalarRoundTrip(t[0], Utf8(t[1..]));
      assert Utf8(t)[|EncodeScalar(t[0])|..] == Utf8(t[1..]);
      assert [t[0]] + t[1..] == t;
    }
  }

  lemma {:induction false} DecodedTextIsEncoded(b: seq<byte>)
    requires FromUtf8(b).Some?
    ensures Utf8(FromUtf8(b).value) == b
    decreases |b|
  {
    hide DecodeScalar, EncodeScalar;
    if b != [] {
      var n := DecodeScalar(b).value.1;
      DecodedScalarsAreEncoded(b);
      DecodedTextIsEncoded(b[n..]);
      assert FromUtf8(b).value[1..] == FromUtf8(b[n..]).value;
      assert b == b[..n] + b[n..];
    }
  }

  /** Bytes are text exactly if they are the encoding of some text, which is then unique. */
  lemma ValidUtf8Meaning(b: seq<byte>, t: text)
    ensures FromUtf8(b) == Some(t) <==> Utf8(t) == b
  {
    TextRoundTrip(t);
    if FromUtf8(b).Some? {
      DecodedTextIsEncoded(b);
    }
  }

  /** `encode_utf16().count()`. */
  function Utf16Units(t: text): nat {
    if t == [] then 0 else (if t[0] < 0x1_0000 then 1 else 2) + Utf16Units(t[1..])
  }

  /** The UTF-16 code units of a text: a scalar value beyond the basic plane takes a pair of surrogates. */
  function Utf16(t: text): seq<nat> {
    if t == [] then []
    else
      var c: int := t[0];
      (if c < 0x1_0000 then [c] else [0xd800 + (c - 0x1_0000) / 0x400, 0xdc00 + (c - 0x1_0000) % 0x400]) + Utf16(t[1..])
  }

  lemma {:induction false} Utf16UnitsAreCounted(t: text)
    ensures Utf16Units(t) == |Utf16(t)|
  {
    if t != [] {
      Utf16UnitsAreCounted(t[1..]);
    }
  }

  /** No two texts have the same code units. */
  lemma {:induction false} Utf16IsFaithful(t: text, u: text)
    requires Utf16(t) == Utf16(u)
    ensures t == u
  {
    if t != [] {
      assert u != [];
      var units := if t[0] < 0x1_0000 then 1 else 2;
      assert Utf16(t)[0] == Utf16(u)[0] && (units == 2 ==> Utf16(t)[1] == Utf16(u)[1]);
      assert (t[0] < 0x1_0000 <==> u[0] < 0x1_0000) && t[0] == u[0];
      assert Utf16(t)[units..] == Utf16(t[1..]) && Utf16(u)[units..] == Utf16(u[1..]);
      Utf16IsFaithful(t[1..], u[1..]);
      assert t == [t[0]] + t[1..] && u == [u[0]] + u[1..];
    } else {
      assert u == [];
    }
  }

  /** The bound behind every byte limit of the protocol: at most three bytes for each UTF-16 unit. */
  lemma {:induction false} Utf8IsAtMostThreeTimesUtf16(t: text)
    ensures |Utf8(t)| <= 3 * Utf16Units(t)
  {
    if t != [] {
      Utf8IsAtMostThreeTimesUtf16(t[1..]);
    }
  }
}
