/** The VarInt of the Minecraft protocol (src/minecraft.rs): seven bits a byte, least significant first, the top
    bit set on every byte but the last. Bytes are modelled by their values, so the source's masks and shifts are
    remainders, quotients and sums; the `Bits` lemmas justify each of those readings. */
module VarInt {
  import opened Wrappers

  type byte = b: int | 0 <= b < 256
  type i32 = n: int | -0x8000_0000 <= n < 0x8000_0000
  const TWO_32: int := 0x1_0000_0000

  function Unsigned(n: i32): (u: nat)
    ensures u < TWO_32 && Signed(u) == n
  {
    if n < 0 then n + TWO_32 else n
  }

  function Signed(u: nat): i32
    requires u < TWO_32
  {
    if u >= 0x8000_0000 then u - TWO_32 else u
  }

  function Pow128(n: nat): (p: nat)
    ensures p > 0
  {
    if n == 0 then 1 else 128 * Pow128(n - 1)
  }

  /** The number that VarInt bytes stand for, whatever their continuation bits. */
  function Value(bytes: seq<byte>): nat {
    if bytes == [] then 0 else bytes[0] % 128 + 128 * Value(bytes[1..])
  }

  function Groups(u: nat): (bytes: seq<byte>)
    ensures bytes != []
  {
    if u < 128 then [u] else [u % 128 + 128] + Groups(u / 128)
  }

  /** What `write_varint` appends. */
  function Encoded(n: i32): seq<byte> {
    Groups(Unsigned(n))
  }

  /** The length of the VarInt that starts `input`: it ends at the first byte without the continuation bit, which
      must be among the first five, and as a fifth byte may hold only the top four bits of the number. */
  function VarintLength(input: seq<byte>, position: nat): Option<nat>
    requires position <= 5
    decreases 5 - position
  {
    if position >= 5 || position >= |input| then None
    else if position == 4 && input[4] >= 16 then None
    else if input[position] < 128 then Some(position + 1)
    else VarintLength(input, position + 1)
  }

  predicate IsVarint(bytes: seq<byte>) {
    && 1 <= |bytes| <= 5
    && bytes[|bytes| - 1] < 128
    && (forall i :: 0 <= i < |bytes| - 1 ==> bytes[i] >= 128)
    && (|bytes| == 5 ==> bytes[4] < 16)
  }

  lemma {:induction false} ValueBound(bytes: seq<byte>)
    ensures Value(bytes) < Pow128(|bytes|)
  {
    if bytes != [] {
      ValueBound(bytes[1..]);
    }
  }

  lemma VarintsFit(bytes: seq<byte>)
    requires IsVarint(bytes)
    ensures Value(bytes) < TWO_32
  {
    ValueBound(bytes);
    Powers();
    if |bytes| == 5 {
      ValueAppend(bytes[..4], bytes[4]);
      ValueBound(bytes[..4]);
      assert bytes == bytes[..4] + [bytes[4]];
    }
  }

  lemma Powers()
    ensures Pow128(0) == 1 && Pow128(1) == 128 && Pow128(2) == 16384 && Pow128(3) == 2097152
    ensures Pow128(4) == 268435456
  {
    assert Pow128(2) == 128 * Pow128(1);
    assert Pow128(3) == 128 * Pow128(2);
    assert Pow128(4) == 128 * Pow128(3);
  }

  lemma {:induction false} ValueAppend(bytes: seq<byte>, last: byte)
    ensures Value(bytes + [last]) == Value(bytes) + (last % 128) * Pow128(|bytes|)
  {
    if bytes == [] {
      assert Value([last]) == last % 128 + 128 * Value([last][1..]);
    } else {
      ValueAppend(bytes[1..], last);
      assert (bytes + [last])[1..] == bytes[1..] + [last];
      assert 128 * ((last % 128) * Pow128(|bytes| - 1)) == (last % 128) * Pow128(|bytes|);
    }
  }

  lemma {:induction false} LengthMeaning(input: seq<byte>, position: nat)
    requires position <= 5 && position <= |input|
    requires forall i :: 0 <= i < position ==> input[i] >= 128
    ensures
      var r := VarintLength(input, position);
      && (r.Some? ==> position < r.value <= |input| && r.value <= 5 && IsVarint(input[..r.value]))
      && (r.None? ==> forall n :: position < n <= |input| ==> !IsVarint(input[..n]))
    decreases 5 - position
  {
    if position < 5 && position < |input| {
      if input[position] >= 128 {
        LengthMeaning(input, position + 1);
        assert !IsVarint(input[..position + 1]);
      } else {
        forall n | position + 1 < n <= |input|
          ensures !IsVarint(input[..n])
        {
          assert input[..n][position] < 128;
        }
        assert position == 4 ==> input[..5][4] == input[4];
      }
    }
  }

  function DecodeVarint(input: seq<byte>): Result<(i32, nat)> {
    var length := VarintLength(input, 0);
    if length.None? then Err
    else
      LengthMeaning(input, 0);
      VarintsFit(input[..length.value]);
      Ok((Signed(Value(input[..length.value])), length.value))
  }

  lemma VarintEndsOnce(input: seq<byte>, n: nat, m: nat)
    requires n <= |input| && m <= |input| && IsVarint(input[..n]) && IsVarint(input[..m])
    ensures n == m
  {
    assert input[n - 1] < 128 && input[m - 1] < 128;
    assert forall i :: 0 <= i < n - 1 ==> input[..n][i] == input[i];
    assert forall i :: 0 <= i < m - 1 ==> input[..m][i] == input[i];
  }

  /** Decoding succeeds exactly on inputs that start with a VarInt, minimal or not, and consumes exactly it. */
  lemma DecodesExactlyVarints(input: seq<byte>, n: nat)
    requires n <= |input|
    ensures IsVarint(input[..n]) <==> DecodeVarint(input).Ok? && DecodeVarint(input).value.1 == n
    ensures DecodeVarint(input).Ok? ==>
      var length := DecodeVarint(input).value.1;
      length <= |input| && IsVarint(input[..length]) && Unsigned(DecodeVarint(input).value.0) == Value(input[..length])
  {
    LengthMeaning(input, 0);
    if IsVarint(input[..n]) && DecodeVarint(input).Ok? {
      VarintEndsOnce(input, n, DecodeVarint(input).value.1);
    }
    if DecodeVarint(input).Ok? {
      VarintsFit(input[..DecodeVarint(input).value.1]);
    }
  }

  /** The bytes after a VarInt do not matter to its decoding. */
  lemma DecodesPrefix(varint: seq<byte>, rest: seq<byte>)
    requires IsVarint(varint)
    ensures DecodeVarint(varint + rest).Ok?
    ensures DecodeVarint(varint + rest) == DecodeVarint(varint)
    ensures DecodeVarint(varint).value.1 == |varint| && Unsigned(DecodeVarint(varint).value.0) == Value(varint)
  {
    assert (varint + rest)[..|varint|] == varint;
    assert varint[..|varint|] == varint;
    DecodesExactlyVarints(varint + rest, |varint|);
    DecodesExactlyVarints(varint, |varint|);
  }

  function VarintSize(n: i32): nat {
    var bits := Unsigned(n);
    if bits <= 0x7f then 1
    else if bits <= 0x3fff then 2
    else if bits <= 0x1f_ffff then 3
    else if bits <= 0x0fff_ffff then 4
    else 5
  }

  lemma {:induction false} GroupsValue(u: nat)
    ensures Value(Groups(u)) == u
  {
    if u < 128 {
      assert Value([u]) == u % 128 + 128 * Value([]);
    } else {
      GroupsValue(u / 128);
      assert Groups(u)[1..] == Groups(u / 128);
    }
  }

  lemma {:induction false} GroupsContinue(u: nat)
    ensures Groups(u)[|Groups(u)| - 1] < 128
    ensures forall i :: 0 <= i < |Groups(u)| - 1 ==> Groups(u)[i] >= 128
  {
    if u >= 128 {
      GroupsContinue(u / 128);
    }
  }

  lemma GroupCount(u: nat)
    requires u < TWO_32
    ensures |Groups(u)| == VarintSize(Signed(u))
    ensures |Groups(u)| == 5 ==> Groups(u)[4] < 16
  {
    var a := u / 128;
    var b := a / 128;
    var c := b / 128;
    var d := c / 128;
    assert Unsigned(Signed(u)) == u;
    if u >= 128 {
      assert Groups(u) == [u % 128 + 128] + Groups(a);
      if a >= 128 {
        assert Groups(a) == [a % 128 + 128] + Groups(b);
        if b >= 128 {
          assert Groups(b) == [b % 128 + 128] + Groups(c);
          if c >= 128 {
            assert Groups(c) == [c % 128 + 128] + Groups(d);
            assert Groups(d) == [d];
          }
        }
      }
    }
  }

  /** For every 32-bit number, decoding what is written, whatever follows it, gives the number back and consumes
      exactly `varint_size` bytes. */
  lemma VarintRoundTrip(n: i32, rest: seq<byte>)
    ensures |Encoded(n)| == VarintSize(n) && IsVarint(Encoded(n))
    ensures DecodeVarint(Encoded(n) + rest) == Ok((n, VarintSize(n)))
  {
    GroupsValue(Unsigned(n));
    GroupsContinue(Unsigned(n));
    GroupCount(Unsigned(n));
    DecodesPrefix(Encoded(n), rest);
  }

  /** No VarInt of the same number is shorter than the one written. */
  lemma EncodingIsMinimal(n: i32, bytes: seq<byte>)
    requires IsVarint(bytes) && Value(bytes) == Unsigned(n)
    ensures VarintSize(n) <= |bytes|
  {
    ValueBound(bytes);
    Powers();
  }

  // ---- The loops

  method WriteVarint(n: i32, output: seq<byte>) returns (written: seq<byte>)
    ensures written == output + Encoded(n)
  {
    written := output;
    var remaining := Unsigned(n);
    while true
      invariant written + Groups(remaining) == output + Encoded(n)
      decreases remaining
    {
      var b := remaining % 128;
      var rest := remaining / 128;
      if rest != 0 {
        b := b + 128;
      }
      assert rest != 0 ==> written + Groups(remaining) == written + [b] + Groups(rest);
      written := written + [b];
      if rest == 0 {
        return;
      }
      remaining := rest;
    }
  }

  method ReadVarint(input: seq<byte>) returns (r: Result<(i32, nat)>)
    ensures r == DecodeVarint(input)
  {
    Powers();
    var result: nat := 0;
    var weight: nat := 1;
    var position := 0;
    while position < 5
      invariant 0 <= position <= 5 && position <= |input|
      invariant result == Value(input[..position]) && weight == Pow128(position)
      invariant VarintLength(input, 0) == VarintLength(input, position)
    {
      if position >= |input| {
        return Err;
      }
      var b := input[position];
      if position == 4 && b >= 16 {
        return Err;
      }
      ValueAppend(input[..position], b);
      assert input[..position] + [b] == input[..position + 1];
      result := result + (b % 128) * weight;
      if b < 128 {
        LengthMeaning(input, 0);
        VarintsFit(input[..position + 1]);
        return Ok((Signed(result), position + 1));
      }
      weight := 128 * weight;
      position := position + 1;
    }
    r := Err;
  }

  // ---- The arithmetic readings of the source's bit operations

  lemma BitsOfByte(b: bv8)
    ensures (b & 0x7f) as int == b as int % 128
    ensures b & 0x80 == 0 <==> b as int < 128
    ensures b & 0xf0 == 0 <==> b as int < 16
    ensures b < 128 ==> (b | 0x80) as int == b as int + 128
  {
  }

  /** Shifting a 32-bit word right by seven divides it by 128, and the mask keeps the remainder. */
  lemma BitsShiftOut(remaining: bv32)
    ensures remaining >> 7 == remaining / 128
    ensures remaining & 0x7f == remaining % 128
  {
  }

  /** Shifting a group up by seven bits for each byte before it multiplies it by the weight of its place; the fifth
      byte's group must have four bits, or the shift would lose some. */
  lemma BitsShiftIn(group: bv32)
    requires group < 128
    ensures (group << 0) as int == group as int * Pow128(0)
    ensures (group << 7) as int == group as int * Pow128(1)
    ensures (group << 14) as int == group as int * Pow128(2)
    ensures (group << 21) as int == group as int * Pow128(3)
    ensures group < 16 ==> (group << 28) as int == group as int * Pow128(4)
  {
    Powers();
  }

  /** Or-ing seven new bits above the bits read so far adds them. */
  lemma BitsAccumulate(result: bv32, group: bv32, shift: bv32)
    requires shift in {0, 7, 14, 21, 28} && group < 128 && (shift == 28 ==> group < 16)
    requires result < (1 as bv32) << shift
    ensures result | (group << shift) == result + (group << shift)
  {
  }
}
