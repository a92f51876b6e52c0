/** Frames, string packets and the handshake envelope of the Minecraft protocol (src/minecraft.rs). A socket is
    the stream of bytes its peer sends before closing; timeouts are left out. */
module Minecraft {
  import opened Wrappers
  import opened VarInt
  import opened Text

  const MAX_PACKET_LENGTH: nat := 0x1f_ffff
  const MAX_HANDSHAKE_PACKET_LENGTH: nat := 1024
  const MAX_STRING_UNITS: nat := 32767

  class ByteStream {
    const bytes: seq<byte>
    var position: nat

    ghost predicate Valid()
      reads this
    {
      position <= |bytes|
    }

    /** The bytes not yet consumed. */
    function Rest(): seq<byte>
      requires Valid()
      reads this
    {
      bytes[position..]
    }

    constructor (bytes: seq<byte>)
      ensures Valid() && Rest() == bytes
    {
      this.bytes := bytes;
      position := 0;
    }

    method ReadByte() returns (r: Result<byte>)
      requires Valid()
      modifies this
      ensures Valid()
      ensures if old(Rest()) == [] then r.Err? else r == Ok(old(Rest())[0]) && Rest() == old(Rest())[1..]
    {
      if position == |bytes| {
        return Err;
      }
      r := Ok(bytes[position]);
      position := position + 1;
    }

    method ReadExact(n: nat) returns (r: Result<seq<byte>>)
      requires Valid()
      modifies this
      ensures Valid()
      ensures if |old(Rest())| < n then r.Err? else r == Ok(old(Rest())[..n]) && Rest() == old(Rest())[n..]
    {
      if |bytes| - position < n {
        position := |bytes|;
        return Err;
      }
      assert Rest()[..n] == bytes[position..position + n] && Rest()[n..] == bytes[position + n..];
      r := Ok(bytes[position..position + n]);
      position := position + n;
    }
  }

  // ---- Frames

  function Framed(body: seq<byte>): seq<byte>
    requires |body| < 0x8000_0000
  {
    Encoded(|body|) + body
  }

  /** The frame at the start of the input: its body, and how many bytes body and length take. */
  function FrameAt(input: seq<byte>, limit: nat): Result<(seq<byte>, nat)> {
    var (length, used) :- DecodeVarint(input);
    if used > 3 || length < 0 || length > limit || used + length > |input| then Err
    else
      DecodesExactlyVarints(input, used);
      Ok((input[used..used + length], used + length))
  }

  /** A packet of any body the protocol allows is read back, whatever follows it. */
  lemma FramesReadBack(body: seq<byte>, rest: seq<byte>, limit: nat)
    requires |body| <= 2_097_151 && |body| <= limit
    ensures FrameAt(Framed(body) + rest, limit) == Ok((body, |Framed(body)|))
  {
    VarintRoundTrip(|body|, body + rest);
    var input := Framed(body) + rest;
    assert input == Encoded(|body|) + (body + rest);
    assert input[|Encoded(|body|)|..|Framed(body)|] == body;
  }

  /** A frame is a VarInt of at most three bytes, minimal or not, and as many bytes as it says, within the limit. */
  lemma FramesAreExact(input: seq<byte>, limit: nat, body: seq<byte>, used: nat)
    requires limit <= 2_097_151
    ensures FrameAt(input, limit) == Ok((body, used)) <==>
      exists length :: IsVarint(length) && |length| <= 3 && Value(length) == |body| <= limit
                       && length + body <= input && used == |length + body|
  {
    hide DecodeVarint, IsVarint, Value;
    if FrameAt(input, limit) == Ok((body, used)) {
      var end := DecodeVarint(input).value.1;
      DecodesExactlyVarints(input, end);
      var length := input[..end];
      assert length + body == input[..used];
    }
    forall length | IsVarint(length) && |length| <= 3 && Value(length) == |body| <= limit
                    && length + body <= input && used == |length + body|
      ensures FrameAt(input, limit) == Ok((body, used))
    {
      VarintLengths(length);
      assert input[..|length|] == (length + body)[..|length|] == length;
      ShortVarints(input, |length|);
      assert input[|length|..used] == (length + body)[|length|..];
    }
  }

  lemma VarintLengths(bytes: seq<byte>)
    requires IsVarint(bytes)
    ensures |bytes| > 0
  {
  }

  /** The length that three bytes give is the one `decode_varint` would give. */
  lemma ShortVarints(input: seq<byte>, used: nat)
    requires 1 <= used <= 3 && used <= |input| && IsVarint(input[..used])
    ensures DecodeVarint(input) == Ok((Value(input[..used]), used)) && Value(input[..used]) <= 2_097_151
  {
    DecodesExactlyVarints(input, used);
    ValueBound(input[..used]);
    Powers();
  }

  /** A length that is not finished after three bytes is one that `decode_varint` finishes later or rejects. */
  lemma LongVarints(input: seq<byte>, limit: nat)
    requires |input| < 3 || input[2] >= 128
    requires |input| < 2 || input[1] >= 128
    requires |input| < 1 || input[0] >= 128
    ensures FrameAt(input, limit).Err?
  {
    if DecodeVarint(input).Ok? {
      var used := DecodeVarint(input).value.1;
      DecodesExactlyVarints(input, used);
      assert input[..used][used - 1] == input[used - 1];
    }
  }

  /** What the streaming readers know after `position` bytes that all announced another one. */
  ghost predicate LengthBegun(input: seq<byte>, position: nat, length: nat, weight: nat) {
    && position <= |input| && (forall i :: 0 <= i < position ==> input[i] >= 128)
    && length == Value(input[..position]) && weight == Pow128(position)
  }

  lemma LengthNotBegun(input: seq<byte>)
    ensures LengthBegun(input, 0, 0, 1)
  {
  }

  /** One more byte of a length ends it, as `decode_varint` would, or announces another. */
  lemma LengthGrows(input: seq<byte>, position: nat, length: nat, weight: nat)
    requires position < 3 && position < |input| && LengthBegun(input, position, length, weight)
    ensures
      var grown := length + (input[position] % 128) * weight;
      if input[position] >= 128 then LengthBegun(input, position + 1, grown, 128 * weight)
      else grown <= MAX_PACKET_LENGTH && DecodeVarint(input) == Ok((grown, position + 1))
  {
    hide DecodeVarint;
    ValueAppend(input[..position], input[position]);
    assert input[..position] + [input[position]] == input[..position + 1];
    if input[position] < 128 {
      ShortVarints(input, position + 1);
    }
  }

  /** A length that goes on for three bytes, or is cut off, is not a frame's. */
  lemma LengthGoesOn(input: seq<byte>, position: nat, length: nat, weight: nat, limit: nat)
    requires LengthBegun(input, position, length, weight) && (position >= 3 || position == |input|)
    ensures FrameAt(input, limit).Err?
  {
    LongVarints(input, limit);
  }

  method ReadPacket(stream: ByteStream, limit: nat) returns (r: Result<seq<byte>>)
    requires stream.Valid()
    modifies stream
    ensures stream.Valid()
    ensures var frame := FrameAt(old(stream.Rest()), limit);
      if frame.Err? then r.Err?
      else r == Ok(frame.value.0) && stream.Rest() == old(stream.Rest())[frame.value.1..]
  {
    ghost var input := stream.Rest();
    var first := stream.ReadByte();
    if first.Err? {
      LongVarints(input, limit);
      return Err;
    }
    assert input == [first.value] + stream.Rest();
    r := ReadPacketAfterFirstByte(stream, first.value, limit);
  }

  /** The rest of a frame whose length has been read from the first `used` bytes of `input`. */
  method ReadBody(stream: ByteStream, length: nat, limit: nat, ghost input: seq<byte>, ghost used: nat)
    returns (r: Result<seq<byte>>)
    requires stream.Valid() && used <= |input| && input[used..] == stream.Rest()
    requires used <= 3 && length < 0x8000_0000 && DecodeVarint(input) == Ok((length, used))
    requires length <= MAX_PACKET_LENGTH
    modifies stream
    ensures stream.Valid()
    ensures var frame := FrameAt(input, limit);
      if frame.Err? then r.Err?
      else r == Ok(frame.value.0) && stream.Rest() == input[frame.value.1..]
  {
    hide DecodeVarint;
    if length > MAX_PACKET_LENGTH || length > limit {
      return Err;
    }
    assert used + length <= |input| ==>
      input[used..][..length] == input[used..used + length] && input[used..][length..] == input[used + length..];
    r := stream.ReadExact(length);
  }

  method ReadPacketAfterFirstByte(stream: ByteStream, first: byte, limit: nat) returns (r: Result<seq<byte>>)
    requires stream.Valid()
    modifies stream
    ensures stream.Valid()
    ensures var input := [first] + old(stream.Rest());
      var frame := FrameAt(input, limit);
      if frame.Err? then r.Err?
      else r == Ok(frame.value.0) && stream.Rest() == input[frame.value.1..]
  {
    hide FrameAt, DecodeVarint, LengthBegun;
    ghost var input := [first] + stream.Rest();
    var b := first;
    var length: nat := 0;
    var weight: nat := 1;
    LengthNotBegun(input);
    for position := 0 to 3
      invariant stream.Valid() && LengthBegun(input, position, length, weight)
      invariant position < 3 ==> position < |input| && b == input[position] && stream.Rest() == input[position + 1..]
    {
      LengthGrows(input, position, length, weight);
      length := length + (b % 128) * weight;
      weight := 128 * weight;
      if b < 128 {
        r := ReadBody(stream, length, limit, input, position + 1);
        return;
      }
      if position < 2 {
        var next := stream.ReadByte();
        if next.Err? {
          LengthGoesOn(input, position + 1, length, weight, limit);
          return Err;
        }
        b := next.value;
      }
    }
    LengthGoesOn(input, 3, length, weight, limit);
    r := Err;
  }

  /** `encode_packet`: fails exactly when the body would exceed the protocol's frame limit. */
  method EncodePacket(id: i32, payload: seq<byte>) returns (r: Result<seq<byte>>)
    ensures r.Ok? <==> |Encoded(id) + payload| <= 2_097_151
    ensures r.Ok? ==> r.value == Framed(Encoded(id) + payload)
  {
    VarintRoundTrip(id, []);
    var bodyLength := VarintSize(id) + |payload|;
    if bodyLength > MAX_PACKET_LENGTH {
      return Err;
    }
    var packet := WriteVarint(bodyLength, []);
    packet := WriteVarint(id, packet);
    packet := packet + payload;
    r := Ok(packet);
  }

  // ---- Strings

  function StringBody(t: text): seq<byte>
    requires |Utf8(t)| < 0x8000_0000
  {
    Encoded(|Utf8(t)|) + Utf8(t)
  }

  /** A text of at most 32767 units fits in a frame with any packet id. */
  lemma StringsFit(id: i32, t: text)
    requires Utf16Units(t) <= 32767
    ensures |Utf8(t)| <= 98301
    ensures |Encoded(id) + StringBody(t)| <= 2_097_151
  {
    Utf8IsAtMostThreeTimesUtf16(t);
    VarintRoundTrip(id, []);
    VarintRoundTrip(|Utf8(t)|, []);
  }

  /** `encode_string_packet`: only the UTF-16 limit can reject a text. */
  method EncodeStringPacket(id: i32, t: text) returns (r: Result<seq<byte>>)
    ensures r.Ok? <==> Utf16Units(t) <= 32767
    ensures r.Ok? ==>
      && |Utf8(t)| <= 98301 && |Encoded(id) + StringBody(t)| <= 2_097_151
      && r.value == Framed(Encoded(id) + StringBody(t))
  {
    if Utf16Units(t) > MAX_STRING_UNITS {
      return Err;
    }
    StringsFit(id, t);
    var bytes := Utf8(t);
    if |bytes| >= 0x8000_0000 {
      return Err;
    }
    var payload := WriteVarint(|bytes|, []);
    payload := payload + bytes;
    assert payload == StringBody(t);
    r := EncodePacket(id, payload);
  }

  /** The string at `offset`, and the offset after it. */
  function StringAt(packet: seq<byte>, offset: nat, maxUnits: nat): Result<(text, nat)>
    requires offset <= |packet|
  {
    var (length, used) :- DecodeVarint(packet[offset..]);
    var start := offset + used;
    if length < 0 || length > maxUnits * 3 || start + length > |packet| then Err
    else
      var value := FromUtf8(packet[start..start + length]);
      if value.None? || Utf16Units(value.value) > maxUnits then Err else Ok((value.value, start + length))
  }

  /** A string reads back, whatever follows it, exactly if it is not too long. */
  lemma StringReadsBack(before: seq<byte>, t: text, after: seq<byte>, maxUnits: nat)
    requires |Utf8(t)| < 0x8000_0000
    ensures
      StringAt(before + StringBody(t) + after, |before|, maxUnits)
      == if Utf16Units(t) <= maxUnits then Ok((t, |before + StringBody(t)|)) else Err
  {
    hide DecodeVarint, VarintLength, Value, FromUtf8, Utf8, Utf16Units, Encoded, VarintSize;
    var packet := before + StringBody(t) + after;
    Utf8IsAtMostThreeTimesUtf16(t);
    VarintRoundTrip(|Utf8(t)|, Utf8(t) + after);
    TextRoundTrip(t);
    assert packet[|before|..] == Encoded(|Utf8(t)|) + (Utf8(t) + after);
    var start := |before| + VarintSize(|Utf8(t)|);
    assert packet[start..start + |Utf8(t)|] == Utf8(t);
  }

  /** An encoded string packet reads back as the same id and text, with nothing left over. */
  lemma StringPacketRoundTrip(id: i32, t: text, rest: seq<byte>)
    requires Utf16Units(t) <= 32767
    ensures |Utf8(t)| <= 98301
    ensures
      var body := Encoded(id) + StringBody(t);
      && |body| <= 2_097_151
      && FrameAt(Framed(body) + rest, 2_097_151) == Ok((body, |Framed(body)|))
      && DecodeVarint(body) == Ok((id, VarintSize(id)))
      && VarintSize(id) <= |body|
      && StringAt(body, VarintSize(id), 32767) == Ok((t, |body|))
  {
    hide FrameAt, StringAt, Encoded, StringBody, Framed;
    StringsFit(id, t);
    FramesReadBack(Encoded(id) + StringBody(t), rest, MAX_PACKET_LENGTH);
    VarintRoundTrip(id, StringBody(t));
    StringReadsBack(Encoded(id), t, [], MAX_STRING_UNITS);
    assert Encoded(id) + StringBody(t) + [] == Encoded(id) + StringBody(t);
  }

  // ---- The packet cursor

  class PacketCursor {
    const packet: seq<byte>
    var offset: nat

    ghost predicate Valid()
      reads this
    {
      offset <= |packet|
    }

    constructor (packet: seq<byte>)
      ensures Valid() && this.packet == packet && offset == 0
    {
      this.packet := packet;
      offset := 0;
    }

    method ReadVarint() returns (r: Result<i32>)
      requires Valid()
      modifies this
      ensures Valid()
      ensures var decoded := DecodeVarint(packet[old(offset)..]);
        if decoded.Err? then r.Err? else r == Ok(decoded.value.0) && offset == old(offset) + decoded.value.1
    {
      var decoded := VarInt.ReadVarint(packet[offset..]);
      if decoded.Err? {
        return Err;
      }
      DecodesExactlyVarints(packet[offset..], decoded.value.1);
      offset := offset + decoded.value.1;
      r := Ok(decoded.value.0);
    }

    method ReadBytes(length: nat) returns (r: Result<seq<byte>>)
      requires Valid()
      modifies this
      ensures Valid()
      ensures if old(offset) + length > |packet| then r.Err?
              else r == Ok(packet[old(offset)..old(offset) + length]) && offset == old(offset) + length
    {
      var end := offset + length;
      if end > |packet| {
        return Err;
      }
      r := Ok(packet[offset..end]);
      offset := end;
    }

    method ReadString(maxUnits: nat) returns (r: Result<text>)
      requires Valid()
      modifies this
      ensures Valid()
      ensures var s := StringAt(packet, old(offset), maxUnits);
        if s.Err? then r.Err? else r == Ok(s.value.0) && offset == s.value.1
    {
      var length := ReadVarint();
      if length.Err? || length.value < 0 || length.value > maxUnits * 3 {
        return Err;
      }
      var bytes := ReadBytes(length.value);
      if bytes.Err? {
        return Err;
      }
      var value := FromUtf8(bytes.value);
      if value.None? || Utf16Units(value.value) > maxUnits {
        return Err;
      }
      r := Ok(value.value);
    }

    /** A string of any length; only its place in the packet is returned. */
    method ReadUtf8StringRange() returns (r: Result<(nat, nat)>)
      requires Valid()
      modifies this
      ensures Valid()
      ensures var range := AddressAt(packet, old(offset));
        r == range && (r.Ok? ==> offset == r.value.1)
    {
      var length := ReadVarint();
      if length.Err? || length.value < 0 {
        return Err;
      }
      var start := offset;
      var bytes := ReadBytes(length.value);
      if bytes.Err? || FromUtf8(bytes.value).None? {
        return Err;
      }
      r := Ok((start, offset));
    }

    method ReadU16() returns (r: Result<nat>)
      requires Valid()
      modifies this
      ensures Valid()
      ensures if old(offset) + 2 > |packet| then r.Err?
              else r.Ok? && r.value / 256 == packet[old(offset)] && r.value % 256 == packet[old(offset) + 1]
                   && offset == old(offset) + 2
    {
      var bytes := ReadBytes(2);
      if bytes.Err? {
        return Err;
      }
      r := Ok(BigEndian16(bytes.value[0], bytes.value[1]));
    }

    method ReadBool() returns (r: Result<bool>)
      requires Valid()
      modifies this
      ensures Valid()
      ensures if old(offset) + 1 > |packet| || packet[old(offset)] > 1 then r.Err?
              else r == Ok(packet[old(offset)] == 1) && offset == old(offset) + 1
    {
      var bytes := ReadBytes(1);
      if bytes.Err? {
        return Err;
      }
      if bytes.value[0] == 0 {
        return Ok(false);
      }
      if bytes.value[0] == 1 {
        return Ok(true);
      }
      r := Err;
    }

    method EnsureFinished() returns (finished: bool)
      requires Valid()
      ensures finished <==> offset == |packet|
    {
      finished := |packet| - offset == 0;
    }
  }

  // ---- The handshake

  datatype HandshakeIntent = Status | Login | Transfer | Unknown(value: i32)

  datatype Handshake = Handshake(
    protocolVersion: i32,
    addressStart: nat,
    addressEnd: nat,
    requestedPort: nat,
    intent: HandshakeIntent)

  function BigEndian16(high: byte, low: byte): nat {
    var h: int := high;
    256 * h + low
  }

  function Intent(value: i32): HandshakeIntent {
    match value
    case 1 => Status
    case 2 => Login
    case 3 => Transfer
    case _ => Unknown(value)
  }

  /** The numbers of the intents, as 32-bit words on the wire. */
  predicate IntentMeans(intent: HandshakeIntent, word: nat) {
    && (intent == Status <==> word == 1) && (intent == Login <==> word == 2) && (intent == Transfer <==> word == 3)
    && (intent.Unknown? ==> Unsigned(intent.value) == word)
  }

  lemma IntentIsExact(value: i32, intent: HandshakeIntent)
    ensures intent == Intent(value) <==> IntentMeans(intent, Unsigned(value))
  {
  }

  lemma PortIsExact(high: byte, low: byte, port: nat)
    ensures port == BigEndian16(high, low) <==> port / 256 == high && port % 256 == low
  {
  }

  function AddressAt(packet: seq<byte>, offset: nat): Result<(nat, nat)>
    requires offset <= |packet|
  {
    var (length, used) :- DecodeVarint(packet[offset..]);
    var start := offset + used;
    if length < 0 || start + length > |packet| || FromUtf8(packet[start..start + length]).None? then Err
    else Ok((start, start + length))
  }

  /** The bytes of a handshake body, field by field. */
  datatype HandshakeBytes = HandshakeBytes(
    id: seq<byte>,
    version: seq<byte>,
    length: seq<byte>,
    address: seq<byte>,
    port: seq<byte>,
    intent: seq<byte>)
  {
    function Joined(): seq<byte> {
      id + (version + (length + (address + (port + intent))))
    }

    /** Every VarInt may be non-minimal. */
    ghost predicate Means(h: Handshake) {
      && IsVarint(id) && IsVarint(version) && IsVarint(length) && IsVarint(intent) && |port| == 2
      && Value(id) == 0
      && Value(version) == Unsigned(h.protocolVersion)
      && Value(length) == |address| < 0x8000_0000
      && FromUtf8(address).Some?
      && h.addressStart == |id| + |version| + |length| && h.addressEnd == h.addressStart + |address|
      && h.requestedPort / 256 == port[0] && h.requestedPort % 256 == port[1]
      && IntentMeans(h.intent, Value(intent))
    }
  }

  /** The fields before the port, of which only the version and the address range are kept. */
  function HandshakeHead(packet: seq<byte>): Result<(i32, nat, nat)> {
    var (id, afterId) :- DecodeVarint(packet);
    DecodesExactlyVarints(packet, afterId);
    var (version, usedByVersion) :- DecodeVarint(packet[afterId..]);
    DecodesExactlyVarints(packet[afterId..], usedByVersion);
    var (start, end) :- AddressAt(packet, afterId + usedByVersion);
    if id != 0 then Err else Ok((version, start, end))
  }

  function ParsedHandshake(packet: seq<byte>): Result<Handshake> {
    var (version, start, end) :- HandshakeHead(packet);
    if end + 2 > |packet| then Err
    else
      var (intent, used) :- DecodeVarint(packet[end + 2..]);
      if end + 2 + used != |packet| then Err
      else Ok(Handshake(version, start, end, BigEndian16(packet[end], packet[end + 1]), Intent(intent)))
  }

  method ParseHandshake(packet: seq<byte>) returns (r: Result<Handshake>)
    ensures r == ParsedHandshake(packet)
  {
    hide DecodeVarint, VarintLength, FromUtf8, AddressAt;
    assert packet[0..] == packet;
    var cursor := new PacketCursor(packet);
    var id := cursor.ReadVarint();
    if id.Err? || id.value != 0 {
      return Err;
    }
    var version := cursor.ReadVarint();
    if version.Err? {
      return Err;
    }
    var range := cursor.ReadUtf8StringRange();
    if range.Err? {
      return Err;
    }
    var port := cursor.ReadU16();
    if port.Err? {
      return Err;
    }
    var intent := cursor.ReadVarint();
    if intent.Err? {
      return Err;
    }
    var finished := cursor.EnsureFinished();
    if !finished {
      return Err;
    }
    var end := range.value.1;
    PortIsExact(packet[end], packet[end + 1], port.value);
    r := Ok(Handshake(version.value, range.value.0, end, port.value, Intent(intent.value)));
  }

  predicate At(packet: seq<byte>, offset: nat, field: seq<byte>) {
    offset + |field| <= |packet| && packet[offset..offset + |field|] == field
  }

  /** A VarInt field decodes at the place it has in a packet. */
  lemma FieldDecodes(packet: seq<byte>, offset: nat, field: seq<byte>)
    requires At(packet, offset, field) && IsVarint(field)
    ensures DecodeVarint(packet[offset..]).Ok?
    ensures DecodeVarint(packet[offset..]).value.1 == |field|
    ensures Unsigned(DecodeVarint(packet[offset..]).value.0) == Value(field)
  {
    DecodesPrefix(field, packet[offset + |field|..]);
    assert packet[offset..] == field + packet[offset + |field|..];
  }

  lemma FieldIsVarint(packet: seq<byte>, offset: nat) returns (field: seq<byte>)
    requires offset <= |packet| && DecodeVarint(packet[offset..]).Ok?
    ensures
      var (value, used) := DecodeVarint(packet[offset..]).value;
      && |field| == used && offset + used <= |packet| && field == packet[offset..offset + used]
      && IsVarint(field) && Value(field) == Unsigned(value)
  {
    var used := DecodeVarint(packet[offset..]).value.1;
    DecodesExactlyVarints(packet[offset..], used);
    field := packet[offset..offset + used];
    assert packet[offset..][..used] == field;
  }

  lemma AddressFieldDecodes(packet: seq<byte>, offset: nat, length: seq<byte>, address: seq<byte>)
    requires At(packet, offset, length) && At(packet, offset + |length|, address)
    requires IsVarint(length) && Value(length) == |address| < 0x8000_0000 && FromUtf8(address).Some?
    ensures AddressAt(packet, offset) == Ok((offset + |length|, offset + |length| + |address|))
  {
    hide DecodeVarint, FromUtf8, Value, IsVarint;
    FieldDecodes(packet, offset, length);
  }

  /** Where a field and what follows it lie in a packet. */
  lemma FieldLies(packet: seq<byte>, offset: nat, field: seq<byte>, rest: seq<byte>)
    requires offset <= |packet| && packet[offset..] == field + rest
    ensures At(packet, offset, field) && packet[offset + |field|..] == rest
  {
    assert packet[offset..offset + |field|] == packet[offset..][..|field|];
    assert packet[offset + |field|..] == packet[offset..][|field|..];
  }

  lemma ThreeFieldsLie(packet: seq<byte>, offset: nat, a: seq<byte>, b: seq<byte>, c: seq<byte>, rest: seq<byte>)
    requires offset <= |packet| && packet[offset..] == a + (b + (c + rest))
    ensures At(packet, offset, a) && At(packet, offset + |a|, b) && At(packet, offset + |a| + |b|, c)
    ensures offset + |a| + |b| + |c| <= |packet| && packet[offset + |a| + |b| + |c|..] == rest
  {
    hide At;
    FieldLies(packet, offset, a, b + (c + rest));
    FieldLies(packet, offset + |a|, b, c + rest);
    FieldLies(packet, offset + |a| + |b|, c, rest);
    assert |c + rest| == |c| + |rest| && |b + (c + rest)| == |b| + |c + rest|;
  }

  lemma JoinedFieldsLie(bytes: HandshakeBytes)
    ensures
      var packet := bytes.Joined();
      var start := |bytes.id| + |bytes.version| + |bytes.length|;
      var end := start + |bytes.address|;
      && At(packet, 0, bytes.id) && At(packet, |bytes.id|, bytes.version)
      && At(packet, |bytes.id| + |bytes.version|, bytes.length) && At(packet, start, bytes.address)
      && At(packet, end, bytes.port) && At(packet, end + |bytes.port|, bytes.intent)
      && |packet| == end + |bytes.port| + |bytes.intent|
  {
    hide At;
    var packet := bytes.Joined();
    var port := bytes.port + bytes.intent;
    var start := |bytes.id| + |bytes.version| + |bytes.length|;
    assert packet[0..] == packet;
    ThreeFieldsLie(packet, 0, bytes.id, bytes.version, bytes.length, bytes.address + port);
    assert bytes.intent + [] == bytes.intent;
    ThreeFieldsLie(packet, start, bytes.address, bytes.port, bytes.intent, []);
  }

  lemma JoinedFieldsParse(bytes: HandshakeBytes, h: Handshake)
    requires bytes.Means(h)
    ensures ParsedHandshake(bytes.Joined()) == Ok(h)
  {
    hide DecodeVarint, FromUtf8, Value, IsVarint, AddressAt, At, HandshakeBytes.Joined;
    var packet := bytes.Joined();
    JoinedFieldsLie(bytes);
    assert packet[0..] == packet;
    FieldDecodes(packet, 0, bytes.id);
    FieldDecodes(packet, |bytes.id|, bytes.version);
    AddressFieldDecodes(packet, |bytes.id| + |bytes.version|, bytes.length, bytes.address);
    PortLies(packet, h.addressEnd, bytes.port);
    FieldDecodes(packet, h.addressEnd + 2, bytes.intent);
    PortIsExact(bytes.port[0], bytes.port[1], h.requestedPort);
    IntentIsExact(DecodeVarint(packet[h.addressEnd + 2..]).value.0, h.intent);
  }

  lemma PortLies(packet: seq<byte>, offset: nat, port: seq<byte>)
    requires At(packet, offset, port) && |port| == 2
    ensures offset + 2 <= |packet| && packet[offset] == port[0] && packet[offset + 1] == port[1]
  {
    assert packet[offset..offset + 2][0] == packet[offset];
  }

  lemma AddressParses(packet: seq<byte>, offset: nat) returns (length: seq<byte>)
    requires offset <= |packet| && AddressAt(packet, offset).Ok?
    ensures
      var (start, end) := AddressAt(packet, offset).value;
      && offset + |length| == start <= end <= |packet| && end - start < 0x8000_0000
      && At(packet, offset, length) && IsVarint(length) && Value(length) == end - start
      && FromUtf8(packet[start..end]).Some?
  {
    hide DecodeVarint, FromUtf8, IsVarint, Value;
    length := FieldIsVarint(packet, offset);
  }

  lemma HeadParses(packet: seq<byte>) returns (id: seq<byte>, version: seq<byte>, length: seq<byte>)
    requires HandshakeHead(packet).Ok?
    ensures
      var (protocolVersion, start, end) := HandshakeHead(packet).value;
      && |id| + |version| + |length| == start <= end <= |packet| && end - start < 0x8000_0000
      && At(packet, 0, id) && At(packet, |id|, version) && At(packet, |id| + |version|, length)
      && IsVarint(id) && IsVarint(version) && IsVarint(length)
      && Value(id) == 0 && Value(version) == Unsigned(protocolVersion) && Value(length) == end - start
      && FromUtf8(packet[start..end]).Some?
  {
    hide DecodeVarint, FromUtf8, IsVarint, Value, AddressAt;
    assert packet[0..] == packet;
    id := FieldIsVarint(packet, 0);
    version := FieldIsVarint(packet, |id|);
    length := AddressParses(packet, |id| + |version|);
  }

  /** The fields that a parsed packet is made of. */
  lemma ParsedFieldsMean(packet: seq<byte>, h: Handshake) returns (bytes: HandshakeBytes)
    requires ParsedHandshake(packet) == Ok(h)
    ensures bytes.Means(h)
    ensures |bytes.id| + |bytes.version| + |bytes.length| == h.addressStart
    ensures h.addressStart <= h.addressEnd <= h.addressEnd + 2 <= |packet|
    ensures At(packet, 0, bytes.id) && At(packet, |bytes.id|, bytes.version)
    ensures At(packet, |bytes.id| + |bytes.version|, bytes.length)
    ensures At(packet, h.addressStart, bytes.address) && h.addressStart + |bytes.address| == h.addressEnd
    ensures At(packet, h.addressEnd, bytes.port) && |bytes.port| == 2 && bytes.intent == packet[h.addressEnd + 2..]
  {
    hide DecodeVarint, FromUtf8, IsVarint, Value, HandshakeHead;
    var id, version, length := HeadParses(packet);
    var end := h.addressEnd;
    var intent := FieldIsVarint(packet, end + 2);
    PortIsExact(packet[end], packet[end + 1], h.requestedPort);
    IntentIsExact(DecodeVarint(packet[end + 2..]).value.0, h.intent);
    bytes := HandshakeBytes(id, version, length, packet[h.addressStart..end], packet[end..end + 2], intent);
  }

  lemma FieldTaken(packet: seq<byte>, offset: nat, field: seq<byte>)
    requires At(packet, offset, field)
    ensures offset + |field| <= |packet| && packet[offset..] == field + packet[offset + |field|..]
  {
  }

  lemma ParsedFieldsJoin(packet: seq<byte>, h: Handshake) returns (bytes: HandshakeBytes)
    requires ParsedHandshake(packet) == Ok(h)
    ensures bytes.Means(h) && packet == bytes.Joined()
  {
    hide ParsedHandshake, HandshakeBytes.Means, At;
    bytes := ParsedFieldsMean(packet, h);
    FieldTaken(packet, h.addressEnd, bytes.port);
    FieldTaken(packet, h.addressStart, bytes.address);
    assert packet[h.addressStart..] == bytes.address + (bytes.port + bytes.intent);
    HeadTaken(packet, bytes.id, bytes.version, bytes.length);
  }

  lemma HeadTaken(packet: seq<byte>, id: seq<byte>, version: seq<byte>, length: seq<byte>)
    requires At(packet, 0, id) && At(packet, |id|, version) && At(packet, |id| + |version|, length)
    ensures |id| + |version| + |length| <= |packet|
    ensures packet == id + (version + (length + packet[|id| + |version| + |length|..]))
  {
    hide At;
    FieldTaken(packet, |id| + |version|, length);
    FieldTaken(packet, |id|, version);
    FieldTaken(packet, 0, id);
    assert packet[0..] == packet;
  }

  /** `parse_handshake` accepts exactly the concatenations of its fields, non-minimal VarInts included. */
  lemma HandshakesAreTheirFields(packet: seq<byte>, h: Handshake)
    ensures ParsedHandshake(packet) == Ok(h) <==> exists bytes: HandshakeBytes :: bytes.Means(h) && packet == bytes.Joined()
  {
    if ParsedHandshake(packet) == Ok(h) {
      var bytes := ParsedFieldsJoin(packet, h);
    }
    forall bytes: HandshakeBytes | bytes.Means(h) && packet == bytes.Joined()
      ensures ParsedHandshake(packet) == Ok(h)
    {
      JoinedFieldsParse(bytes, h);
    }
  }

  // ---- The login start

  datatype InitialProtocol = NoUuid | OptionalUuid | RequiredUuid | RequiredUuidAndTransfer

  const MAX_USERNAME_UNITS: nat := 16

  /** What may follow the username. */
  predicate IsIdentity(tail: seq<byte>, protocol: InitialProtocol) {
    match protocol
    case NoUuid => tail == []
    case OptionalUuid => |tail| >= 1 && ((tail[0] == 0 && |tail| == 1) || (tail[0] == 1 && |tail| == 17))
    case RequiredUuid => |tail| == 16
    case RequiredUuidAndTransfer => |tail| == 16
  }

  predicate LoginStart(packet: seq<byte>, protocol: InitialProtocol) {
    var id := DecodeVarint(packet);
    if id.Err? || id.value.0 != 0 then false
    else
      DecodesExactlyVarints(packet, id.value.1);
      var username := StringAt(packet, id.value.1, MAX_USERNAME_UNITS);
      username.Ok? && username.value.0 != [] && IsIdentity(packet[username.value.1..], protocol)
  }

  method ParseLoginStart(packet: seq<byte>, protocol: InitialProtocol) returns (accepted: bool)
    ensures accepted == LoginStart(packet, protocol)
  {
    hide DecodeVarint, VarintLength, FromUtf8, Utf16Units, StringAt;
    assert packet[0..] == packet;
    var cursor := new PacketCursor(packet);
    var id := cursor.ReadVarint();
    if id.Err? || id.value != 0 {
      return false;
    }
    var username := cursor.ReadString(MAX_USERNAME_UNITS);
    if username.Err? || username.value == [] {
      return false;
    }
    accepted := ParseIdentity(cursor, protocol);
  }

  method ParseIdentity(cursor: PacketCursor, protocol: InitialProtocol) returns (accepted: bool)
    requires cursor.Valid()
    modifies cursor
    ensures accepted == IsIdentity(cursor.packet[old(cursor.offset)..], protocol)
  {
    match protocol
    case OptionalUuid =>
      var present := cursor.ReadBool();
      if present.Err? {
        return false;
      }
      if present.value {
        var uuid := cursor.ReadBytes(16);
        if uuid.Err? {
          return false;
        }
      }
      accepted := cursor.EnsureFinished();
    case RequiredUuid | RequiredUuidAndTransfer =>
      var uuid := cursor.ReadBytes(16);
      if uuid.Err? {
        return false;
      }
      accepted := cursor.EnsureFinished();
    case NoUuid =>
      accepted := cursor.EnsureFinished();
  }

  /** The bytes of a login start, field by field. */
  datatype LoginBytes = LoginBytes(id: seq<byte>, length: seq<byte>, username: seq<byte>, identity: seq<byte>)
  {
    function Joined(): seq<byte> {
      id + (length + (username + identity))
    }

    /** Both VarInts may be non-minimal; the username is text of 1 to 16 UTF-16 units. */
    ghost predicate Means(protocol: InitialProtocol) {
      && IsVarint(id) && Value(id) == 0
      && IsVarint(length) && Value(length) == |username|
      && FromUtf8(username).Some? && 1 <= Utf16Units(FromUtf8(username).value) <= 16
      && IsIdentity(identity, protocol)
    }
  }

  lemma StringFieldDecodes(packet: seq<byte>, offset: nat, length: seq<byte>, bytes: seq<byte>, maxUnits: nat)
    requires At(packet, offset, length) && At(packet, offset + |length|, bytes)
    requires IsVarint(length) && Value(length) == |bytes| < 0x8000_0000
    requires FromUtf8(bytes).Some? && Utf16Units(FromUtf8(bytes).value) <= maxUnits
    ensures StringAt(packet, offset, maxUnits) == Ok((FromUtf8(bytes).value, offset + |length| + |bytes|))
  {
    hide DecodeVarint, FromUtf8, Value, IsVarint, Utf16Units, StringAt, At;
    FieldDecodes(packet, offset, length);
    TextFits(bytes, maxUnits);
    FieldTaken(packet, offset + |length|, bytes);
    assert packet[offset + |length|..offset + |length| + |bytes|] == bytes;
    StringIsThere(packet, offset, |bytes|, |length|, maxUnits);
  }

  lemma TextFits(bytes: seq<byte>, maxUnits: nat)
    requires FromUtf8(bytes).Some? && Utf16Units(FromUtf8(bytes).value) <= maxUnits
    ensures |bytes| <= 3 * maxUnits
  {
    hide FromUtf8, Utf8, Utf16Units;
    DecodedTextIsEncoded(bytes);
    Utf8IsAtMostThreeTimesUtf16(FromUtf8(bytes).value);
  }

  lemma StringIsThere(packet: seq<byte>, offset: nat, length: nat, used: nat, maxUnits: nat)
    requires offset + used + length <= |packet| && length <= maxUnits * 3
    requires DecodeVarint(packet[offset..]).Ok?
    requires DecodeVarint(packet[offset..]).value.0 == length && DecodeVarint(packet[offset..]).value.1 == used
    requires FromUtf8(packet[offset + used..offset + used + length]).Some?
    requires Utf16Units(FromUtf8(packet[offset + used..offset + used + length]).value) <= maxUnits
    ensures StringAt(packet, offset, maxUnits)
         == Ok((FromUtf8(packet[offset + used..offset + used + length]).value, offset + used + length))
  {
    hide DecodeVarint, FromUtf8, Utf16Units;
  }

  lemma StringFieldParses(packet: seq<byte>, offset: nat, maxUnits: nat) returns (length: seq<byte>, bytes: seq<byte>)
    requires offset <= |packet| && StringAt(packet, offset, maxUnits).Ok?
    ensures
      var (value, end) := StringAt(packet, offset, maxUnits).value;
      && At(packet, offset, length) && At(packet, offset + |length|, bytes) && end == offset + |length| + |bytes|
      && IsVarint(length) && Value(length) == |bytes| && FromUtf8(bytes) == Some(value)
      && Utf16Units(value) <= maxUnits
  {
    hide DecodeVarint, FromUtf8, IsVarint, Value, Utf16Units;
    length := FieldIsVarint(packet, offset);
    bytes := packet[offset + |length|..StringAt(packet, offset, maxUnits).value.1];
  }

  lemma SomeUnits(t: text)
    ensures Utf16Units(t) >= 1 <==> t != []
  {
  }

  /** A username within its limit is short enough for any VarInt. */
  lemma UsernamesAreShort(username: seq<byte>)
    requires FromUtf8(username).Some? && Utf16Units(FromUtf8(username).value) <= 16
    ensures |username| <= 3 * MAX_USERNAME_UNITS
  {
    DecodedTextIsEncoded(username);
    Utf8IsAtMostThreeTimesUtf16(FromUtf8(username).value);
  }

  lemma JoinedLoginParses(bytes: LoginBytes, protocol: InitialProtocol)
    requires bytes.Means(protocol)
    ensures LoginStart(bytes.Joined(), protocol)
  {
    hide DecodeVarint, FromUtf8, Value, IsVarint, StringAt, At, Utf16Units, IsIdentity;
    var packet := bytes.Joined();
    assert packet[0..] == packet;
    ThreeFieldsLie(packet, 0, bytes.id, bytes.length, bytes.username, bytes.identity);
    FieldDecodes(packet, 0, bytes.id);
    UsernamesAreShort(bytes.username);
    StringFieldDecodes(packet, |bytes.id|, bytes.length, bytes.username, MAX_USERNAME_UNITS);
    SomeUnits(FromUtf8(bytes.username).value);
  }

  lemma ParsedLoginJoins(packet: seq<byte>, protocol: InitialProtocol) returns (bytes: LoginBytes)
    requires LoginStart(packet, protocol)
    ensures bytes.Means(protocol) && packet == bytes.Joined()
  {
    hide DecodeVarint, FromUtf8, Value, IsVarint, StringAt, At, Utf16Units, IsIdentity;
    assert packet[0..] == packet;
    var id := FieldIsVarint(packet, 0);
    FieldIsAt(packet, 0, id);
    var length, username := StringFieldParses(packet, |id|, MAX_USERNAME_UNITS);
    var end := |id| + |length| + |username|;
    SomeUnits(FromUtf8(username).value);
    FieldTaken(packet, 0, id);
    FieldTaken(packet, |id|, length);
    FieldTaken(packet, |id| + |length|, username);
    bytes := LoginBytes(id, length, username, packet[end..]);
  }

  lemma FieldIsAt(packet: seq<byte>, offset: nat, field: seq<byte>)
    requires offset + |field| <= |packet| && field == packet[offset..offset + |field|]
    ensures At(packet, offset, field)
  {
  }

  /** `parse_login_start` accepts exactly the concatenations of its fields, non-minimal VarInts included. */
  lemma LoginStartsAreTheirFields(packet: seq<byte>, protocol: InitialProtocol)
    ensures LoginStart(packet, protocol) <==>
      exists bytes: LoginBytes :: bytes.Means(protocol) && packet == bytes.Joined()
  {
    hide LoginStart;
    if LoginStart(packet, protocol) {
      var bytes := ParsedLoginJoins(packet, protocol);
    }
    forall bytes: LoginBytes | bytes.Means(protocol) && packet == bytes.Joined()
      ensures LoginStart(packet, protocol)
    {
      JoinedLoginParses(bytes, protocol);
    }
  }

  /** The packet a client of the protocol writes is accepted exactly for usernames of 1 to 16 UTF-16 units followed
      by the identity that the client's version sends. */
  lemma LoginStartsAreAccepted(username: text, tail: seq<byte>, protocol: InitialProtocol)
    requires |Utf8(username)| < 0x8000_0000
    ensures LoginStart(Encoded(0) + StringBody(username) + tail, protocol) <==>
      1 <= Utf16Units(username) <= 16 && IsIdentity(tail, protocol)
  {
    hide DecodeVarint, StringAt, Encoded, StringBody, Utf8, IsIdentity;
    var packet := Encoded(0) + StringBody(username) + tail;
    assert packet == Encoded(0) + (StringBody(username) + tail);
    VarintRoundTrip(0, StringBody(username) + tail);
    StringReadsBack(Encoded(0), username, tail, MAX_USERNAME_UNITS);
    assert packet[|Encoded(0) + StringBody(username)|..] == tail;
  }

  // ---- The connection envelope

  datatype ConnectionEnvelope = ConnectionEnvelope(
    framedHandshake: seq<byte>,
    protocolVersion: i32,
    addressStart: nat,
    addressEnd: nat,
    requestedPort: nat,
    intent: HandshakeIntent)
  {
    predicate Valid() {
      addressStart <= addressEnd <= |framedHandshake| && FromUtf8(framedHandshake[addressStart..addressEnd]).Some?
    }

    /** The address was validated while the envelope was made, so this cannot fail. */
    function RequestedAddress(): text
      requires Valid()
      ensures Utf8(RequestedAddress()) == framedHandshake[addressStart..addressEnd]
    {
      DecodedTextIsEncoded(framedHandshake[addressStart..addressEnd]);
      FromUtf8(framedHandshake[addressStart..addressEnd]).value
    }
  }

  lemma ParsedAddressIsText(packet: seq<byte>)
    requires ParsedHandshake(packet).Ok?
    ensures
      var h := ParsedHandshake(packet).value;
      h.addressStart <= h.addressEnd <= |packet| && FromUtf8(packet[h.addressStart..h.addressEnd]).Some?
  {
    hide DecodeVarint, FromUtf8, IsVarint, Value, At, HandshakeHead;
    var id, version, length := HeadParses(packet);
  }

  /** `read_inner`: accepts exactly a frame within the handshake limit that holds a handshake. The framed bytes it
      keeps are exactly those it consumed, so that replaying them before the rest of the stream gives the client's
      own byte stream. */
  method ReadEnvelope(socket: ByteStream) returns (r: Result<ConnectionEnvelope>)
    requires socket.Valid()
    modifies socket
    ensures socket.Valid()
    ensures
      var frame := FrameAt(old(socket.Rest()), 1024);
      r.Ok? <==> frame.Ok? && ParsedHandshake(frame.value.0).Ok?
    ensures r.Ok? ==> r.value.Valid() && r.value.framedHandshake + socket.Rest() == old(socket.Rest())
    ensures r.Ok? ==>
      var (body, used) := FrameAt(old(socket.Rest()), 1024).value;
      var h := ParsedHandshake(body).value;
      && |r.value.framedHandshake| == used
      && r.value.protocolVersion == h.protocolVersion && r.value.requestedPort == h.requestedPort
      && r.value.intent == h.intent
      && r.value.framedHandshake[r.value.addressStart..r.value.addressEnd] == body[h.addressStart..h.addressEnd]
  {
    hide FrameAt, DecodeVarint, ParsedHandshake, LengthBegun;
    ghost var input := socket.Rest();
    var framed: seq<byte> := [];
    var declared: nat := 0;
    var weight: nat := 1;
    LengthNotBegun(input);
    for position := 0 to 3
      invariant socket.Valid() && LengthBegun(input, position, declared, weight)
      invariant position <= |input| && framed == input[..position] && socket.Rest() == input[position..]
    {
      var next := socket.ReadByte();
      if next.Err? {
        LengthGoesOn(input, position, declared, weight, MAX_HANDSHAKE_PACKET_LENGTH);
        return Err;
      }
      var b := next.value;
      framed := framed + [b];
      assert b == input[position] && framed == input[..position + 1];
      LengthGrows(input, position, declared, weight);
      declared := declared + (b % 128) * weight;
      weight := 128 * weight;
      if b < 128 {
        r := ReadHandshakeBody(socket, framed, declared, input);
        return;
      }
    }
    LengthGoesOn(input, 3, declared, weight, MAX_HANDSHAKE_PACKET_LENGTH);
    r := Err;
  }

  method ReadHandshakeBody(socket: ByteStream, prefix: seq<byte>, declared: nat, ghost input: seq<byte>)
    returns (r: Result<ConnectionEnvelope>)
    requires socket.Valid() && input == prefix + socket.Rest() && |prefix| <= 3
    requires declared < 0x8000_0000 && DecodeVarint(input) == Ok((declared, |prefix|)) && declared <= MAX_PACKET_LENGTH
    modifies socket
    ensures socket.Valid()
    ensures
      var frame := FrameAt(input, 1024);
      r.Ok? <==> frame.Ok? && ParsedHandshake(frame.value.0).Ok?
    ensures r.Ok? ==> r.value.Valid() && r.value.framedHandshake + socket.Rest() == input
    ensures r.Ok? ==>
      var (body, used) := FrameAt(input, 1024).value;
      var h := ParsedHandshake(body).value;
      && |r.value.framedHandshake| == used
      && r.value.protocolVersion == h.protocolVersion && r.value.requestedPort == h.requestedPort
      && r.value.intent == h.intent
      && r.value.framedHandshake[r.value.addressStart..r.value.addressEnd] == body[h.addressStart..h.addressEnd]
  {
    hide DecodeVarint, ParsedHandshake, FromUtf8;
    if declared > MAX_PACKET_LENGTH || declared > MAX_HANDSHAKE_PACKET_LENGTH {
      return Err;
    }
    var offset := |prefix|;
    ghost var rest := socket.Rest();
    assert declared <= |rest| ==> input[offset..offset + declared] == rest[..declared];
    var body := socket.ReadExact(declared);
    if body.Err? {
      return Err;
    }
    var framed := prefix + body.value;
    var handshake := ParseHandshake(framed[offset..]);
    assert framed[offset..] == body.value;
    if handshake.Err? {
      return Err;
    }
    var h := handshake.value;
    ParsedAddressIsText(body.value);
    assert framed[offset + h.addressStart..offset + h.addressEnd] == body.value[h.addressStart..h.addressEnd];
    r := Ok(ConnectionEnvelope(framed, h.protocolVersion, offset + h.addressStart, offset + h.addressEnd,
                               h.requestedPort, h.intent));
  }
}
