/** Source RCON, as Minecraft speaks it (src/rcon.rs). The peer is the byte stream it sends; what the client sends
    is kept in `sent`. A write can fail, which the source reports as an error. */
module Rcon {
  import opened Wrappers
  import opened VarInt
  import opened Text
  import Minecraft

  const AUTH: i32 := 3
  const AUTH_RESPONSE: i32 := 2
  const EXEC_COMMAND: i32 := 2
  const RESPONSE_VALUE: i32 := 0
  const MAX_COMMAND_BYTES: nat := 1413
  const MAX_PACKET_BYTES: nat := 4 * 1024 * 1024
  const MAX_RESPONSE_BYTES: nat := 1024 * 1024
  const I32_MAX: i32 := 0x7fff_ffff

  // ---- Packets

  datatype Packet = Packet(id: i32, kind: i32, body: seq<byte>)

  function LittleEndian32(n: i32): (bytes: seq<byte>)
    ensures |bytes| == 4
  {
    var u := Unsigned(n);
    [u % 256, u / 256 % 256, u / 65536 % 256, u / 16777216]
  }

  function ReadLittleEndian32(bytes: seq<byte>): i32
    requires |bytes| == 4
  {
    var b0: int, b1: int, b2: int, b3: int := bytes[0], bytes[1], bytes[2], bytes[3];
    Signed(b0 + 256 * b1 + 65536 * b2 + 16777216 * b3)
  }

  lemma WordRoundTrip(n: i32)
    ensures ReadLittleEndian32(LittleEndian32(n)) == n
  {
    var u := Unsigned(n);
    assert u / 256 / 256 == u / 65536 && u / 65536 / 256 == u / 16777216;
  }

  /** The least significant byte comes first, and negative numbers are their two's complement. */
  lemma WordMeaning(bytes: seq<byte>, n: i32)
    requires |bytes| == 4
    ensures
      var b0: int, b1: int, b2: int, b3: int := bytes[0], bytes[1], bytes[2], bytes[3];
      var word := b0 + 0x100 * b1 + 0x1_0000 * b2 + 0x100_0000 * b3;
      && (ReadLittleEndian32(bytes) == n <==> word == if n < 0 then n + 0x1_0000_0000 else n)
      && (LittleEndian32(n) == bytes <==> word == if n < 0 then n + 0x1_0000_0000 else n)
  {
    WordRoundTrip(n);
    WordIsItsBytes(bytes);
  }

  lemma BytesOfWord(u: nat, b0: byte, b1: byte, b2: byte, b3: byte)
    requires u == b0 + 256 * b1 + 65536 * b2 + 16777216 * b3
    ensures u < TWO_32 && u % 256 == b0 && u / 256 % 256 == b1 && u / 65536 % 256 == b2 && u / 16777216 == b3
  {
    assert u / 256 == b1 + 256 * b2 + 65536 * b3;
    assert u / 65536 == b2 + 256 * b3;
  }

  lemma WordIsItsBytes(bytes: seq<byte>)
    requires |bytes| == 4
    ensures LittleEndian32(ReadLittleEndian32(bytes)) == bytes
  {
    var b0: int, b1: int, b2: int, b3: int := bytes[0], bytes[1], bytes[2], bytes[3];
    var u := b0 + 256 * b1 + 65536 * b2 + 16777216 * b3;
    BytesOfWord(u, b0, b1, b2, b3);
    assert Unsigned(Signed(u)) == u;
  }

  predicate ValidBody(bytes: seq<byte>) {
    |bytes| <= MAX_COMMAND_BYTES && 0 !in bytes
  }

  /** What may be sent as a password or a command. */
  ghost predicate Sendable(bytes: seq<byte>) {
    |bytes| <= 1413 && forall i :: 0 <= i < |bytes| ==> bytes[i] != 0
  }

  function Payload(p: Packet): seq<byte> {
    LittleEndian32(p.id) + LittleEndian32(p.kind) + p.body + [0, 0]
  }

  /** What is sent for a packet. */
  function Wire(p: Packet): seq<byte>
    requires |p.body| + 10 <= I32_MAX
  {
    LittleEndian32(|p.body| + 10) + Payload(p)
  }

  /** `encode_packet`. */
  method EncodePacket(id: i32, kind: i32, body: seq<byte>) returns (r: Result<seq<byte>>)
    ensures r.Ok? <==> |body| + 10 <= 0x7fff_ffff
    ensures r.Ok? ==> r.value == Wire(Packet(id, kind, body))
  {
    var payloadLength := |body| + 10;
    if payloadLength > I32_MAX {
      return Err;
    }
    var packet := LittleEndian32(payloadLength);
    packet := packet + LittleEndian32(id);
    packet := packet + LittleEndian32(kind);
    packet := packet + body;
    packet := packet + [0, 0];
    r := Ok(packet);
  }

  function DecodePayload(payload: seq<byte>): Result<Packet> {
    var n := |payload|;
    if n < 10 then Err
    else if payload[n - 2..] != [0, 0] then Err
    else Ok(Packet(ReadLittleEndian32(payload[..4]), ReadLittleEndian32(payload[4..8]), payload[8..n - 2]))
  }

  /** A payload is accepted exactly if it is the payload of some packet, for every id, kind and body. */
  lemma PayloadRoundTrip(payload: seq<byte>, p: Packet)
    ensures DecodePayload(payload) == Ok(p) <==> payload == Payload(p)
  {
    hide LittleEndian32, ReadLittleEndian32;
    WordRoundTrip(p.id);
    WordRoundTrip(p.kind);
    var n := |payload|;
    if payload == Payload(p) {
      assert payload[..4] == LittleEndian32(p.id);
      assert payload[4..8] == LittleEndian32(p.kind);
      assert payload[8..n - 2] == p.body;
      assert payload[n - 2..] == [0, 0];
    }
    if DecodePayload(payload) == Ok(p) {
      WordIsItsBytes(payload[..4]);
      WordIsItsBytes(payload[4..8]);
      assert payload == payload[..4] + payload[4..8] + payload[8..n - 2] + payload[n - 2..];
    }
  }

  /** The packet at the start of the input, and how many bytes it takes. */
  function PacketAt(input: seq<byte>): Result<(Packet, nat)> {
    if |input| < 4 then Err
    else
      var length := ReadLittleEndian32(input[..4]);
      if length < 10 || length > MAX_PACKET_BYTES || 4 + length > |input| then Err
      else
        var packet :- DecodePayload(input[4..4 + length]);
        Ok((packet, 4 + length))
  }

  /** What one side sends, the other reads, whatever follows it, if it is within the receiver's limit; and nothing
      else is read. */
  lemma PacketsReadBack(input: seq<byte>, p: Packet)
    ensures PacketAt(input).Ok? && PacketAt(input).value.0 == p <==>
      |p.body| + 10 <= 4_194_304 && Wire(p) <= input
    ensures PacketAt(input).Ok? && PacketAt(input).value.0 == p ==> PacketAt(input).value.1 == |Wire(p)|
  {
    hide LittleEndian32, ReadLittleEndian32, DecodePayload, Payload;
    PayloadLength(p);
    if |p.body| + 10 <= MAX_PACKET_BYTES && Wire(p) <= input {
      var length := |p.body| + 10;
      WordRoundTrip(length);
      assert input[..4] == Wire(p)[..4] == LittleEndian32(length);
      assert input[4..4 + length] == Wire(p)[4..] == Payload(p);
      PayloadRoundTrip(input[4..4 + length], p);
    }
    if PacketAt(input).Ok? && PacketAt(input).value.0 == p {
      var length := ReadLittleEndian32(input[..4]);
      WordIsItsBytes(input[..4]);
      PayloadRoundTrip(input[4..4 + length], p);
      assert input[..4 + length] == input[..4] + input[4..4 + length];
    }
  }

  lemma PayloadLength(p: Packet)
    ensures |Payload(p)| == |p.body| + 10
  {
  }

  // ---- Request ids

  function NextId(id: i32): i32 {
    if id == I32_MAX then 1 else id + 1
  }

  /** The id `n` requests after `id`. */
  function IdAfter(id: i32, n: nat): i32
    requires 1 <= id
    ensures 1 <= IdAfter(id, n)
  {
    if n == 0 then id else NextId(IdAfter(id, n - 1))
  }

  /** The ids of a connection count through 1..i32::MAX for ever. */
  lemma {:induction false} IdsCycle(n: nat)
    ensures IdAfter(1, n) == n % 0x7fff_ffff + 1
  {
    if n > 0 {
      IdsCycle(n - 1);
    }
  }

  /** No id is -1, the id of a refused authentication; two ids are equal exactly when a multiple of i32::MAX requests
      lies between them, so that a command and its end marker never share one. */
  lemma IdsCollideAfterFullCycle(i: nat, j: nat)
    ensures IdAfter(1, i) == IdAfter(1, j) <==> i % 0x7fff_ffff == j % 0x7fff_ffff
    ensures IdAfter(1, i) != -1 && IdAfter(1, i) != IdAfter(1, i + 1)
  {
    IdsCycle(i);
    IdsCycle(j);
    IdsCycle(i + 1);
  }

  predicate Readable(p: Packet) {
    |p.body| + 10 <= 4_194_304
  }

  /** A run of packets on the wire. */
  function Wires(ps: seq<Packet>): seq<byte>
    requires forall p <- ps :: Readable(p)
  {
    if ps == [] then []
    else
      assert Readable(ps[0]);
      Wire(ps[0]) + Wires(ps[1..])
  }

  function Bodies(ps: seq<Packet>): seq<byte> {
    if ps == [] then [] else ps[0].body + Bodies(ps[1..])
  }

  // ---- Authentication

  /** What a server may send before `rest` for an authentication to be accepted: packets that are not authentication
      responses, then one with the id of the request. */
  ghost predicate Grants(ps: seq<Packet>, grant: Packet, id: i32) {
    && (forall p <- ps :: Readable(p) && p.kind != 2)
    && Readable(grant) && grant.kind == 2 && grant.id == id
  }

  function Granted(input: seq<byte>, id: i32): (r: Result<nat>)
    ensures r.Ok? ==> r.value <= |input|
    decreases |input|
  {
    var (packet, used) :- PacketAt(input);
    if packet.kind != AUTH_RESPONSE then
      var more :- Granted(input[used..], id);
      Ok(used + more)
    else if packet.id == -1 || packet.id != id then Err
    else Ok(used)
  }

  /** One packet of a stream that starts with it. */
  lemma PacketFirst(input: seq<byte>, p: Packet, rest: seq<byte>)
    requires Readable(p) && Wire(p) + rest <= input
    ensures PacketAt(input) == Ok((p, |Wire(p)|)) && rest <= input[|Wire(p)|..]
  {
    hide Wire;
    PacketsReadBack(input, p);
    assert Wire(p) <= input;
    assert input[..|Wire(p) + rest|] == Wire(p) + rest;
  }

  lemma PacketTaken(input: seq<byte>) returns (p: Packet, used: nat)
    requires PacketAt(input).Ok?
    ensures PacketAt(input).value == (p, used) && Readable(p) && 0 < used == |Wire(p)| <= |input|
    ensures input == Wire(p) + input[used..]
  {
    hide PacketAt, Payload;
    p := PacketAt(input).value.0;
    used := PacketAt(input).value.1;
    PacketsReadBack(input, p);
  }

  lemma {:induction false} GrantsAreGranted(input: seq<byte>, id: i32, ps: seq<Packet>, grant: Packet)
    requires id != -1 && Grants(ps, grant, id) && Wires(ps) + Wire(grant) <= input
    ensures Granted(input, id) == Ok(|Wires(ps) + Wire(grant)|)
    decreases |ps|
  {
    hide Wire, PacketAt;
    if ps == [] {
      PacketFirst(input, grant, []);
    } else {
      assert Wires(ps) + Wire(grant) == Wire(ps[0]) + (Wires(ps[1..]) + Wire(grant));
      PacketFirst(input, ps[0], Wires(ps[1..]) + Wire(grant));
      GrantsAreGranted(input[|Wire(ps[0])|..], id, ps[1..], grant);
    }
  }

  lemma {:induction false} GrantedIsGrants(input: seq<byte>, id: i32) returns (ps: seq<Packet>, grant: Packet)
    requires Granted(input, id).Ok?
    ensures Grants(ps, grant, id) && Wires(ps) + Wire(grant) <= input
    decreases |input|
  {
    hide Wire, PacketAt;
    var p, used := PacketTaken(input);
    if p.kind == AUTH_RESPONSE {
      ps, grant := [], p;
    } else {
      var more;
      more, grant := GrantedIsGrants(input[used..], id);
      ps := [p] + more;
      assert Wires(ps) + Wire(grant) == Wire(p) + (Wires(more) + Wire(grant));
    }
  }

  /** Authentication succeeds exactly on the streams that start with a grant. */
  lemma GrantsAreExact(input: seq<byte>, id: i32, used: nat)
    requires id != -1
    ensures Granted(input, id) == Ok(used) <==>
      exists ps: seq<Packet>, grant: Packet ::
        Grants(ps, grant, id) && Wires(ps) + Wire(grant) <= input && used == |Wires(ps) + Wire(grant)|
  {
    hide Wire, Wires, Granted;
    if Granted(input, id) == Ok(used) {
      var ps, grant := GrantedIsGrants(input, id);
      GrantsAreGranted(input, id, ps, grant);
    }
    forall ps: seq<Packet>, grant: Packet | Grants(ps, grant, id) && Wires(ps) + Wire(grant) <= input
      ensures Granted(input, id) == Ok(|Wires(ps) + Wire(grant)|)
    {
      GrantsAreGranted(input, id, ps, grant);
    }
  }

  // ---- Commands

  /** What a server may send as the whole answer to a command: value packets with the command's id, no longer
      together than the limit, then any packet with the end marker's id. */
  ghost predicate Answers(ps: seq<Packet>, marker: Packet, commandId: i32, markerId: i32, limit: int) {
    && (forall p <- ps :: Readable(p) && p.id == commandId && p.kind == 0)
    && Readable(marker) && marker.id == markerId
    && |Bodies(ps)| <= limit
  }

  /** The bytes of the answer at the start of the input, and how many bytes it takes, with `limit` to go. */
  function Answer(input: seq<byte>, commandId: i32, markerId: i32, limit: nat): (r: Result<(seq<byte>, nat)>)
    ensures r.Ok? ==> r.value.1 <= |input|
    decreases |input|
  {
    var (packet, used) :- PacketAt(input);
    if packet.id == markerId then Ok(([], used))
    else if packet.id != commandId || packet.kind != RESPONSE_VALUE || |packet.body| > limit then Err
    else
      var (body, more) :- Answer(input[used..], commandId, markerId, limit - |packet.body|);
      Ok((packet.body + body, used + more))
  }

  lemma {:induction false} AnswersAreRead(
    input: seq<byte>, commandId: i32, markerId: i32, limit: nat, ps: seq<Packet>, marker: Packet)
    requires commandId != markerId && Answers(ps, marker, commandId, markerId, limit)
    requires Wires(ps) + Wire(marker) <= input
    ensures Answer(input, commandId, markerId, limit) == Ok((Bodies(ps), |Wires(ps) + Wire(marker)|))
    decreases |ps|
  {
    hide Wire, PacketAt;
    if ps == [] {
      PacketFirst(input, marker, []);
    } else {
      assert Wires(ps) + Wire(marker) == Wire(ps[0]) + (Wires(ps[1..]) + Wire(marker));
      PacketFirst(input, ps[0], Wires(ps[1..]) + Wire(marker));
      AnswersAreRead(input[|Wire(ps[0])|..], commandId, markerId, limit - |ps[0].body|, ps[1..], marker);
    }
  }

  lemma {:induction false} ReadAnswersAreAnswers(input: seq<byte>, commandId: i32, markerId: i32, limit: nat)
    returns (ps: seq<Packet>, marker: Packet)
    requires Answer(input, commandId, markerId, limit).Ok?
    ensures Answers(ps, marker, commandId, markerId, limit) && Wires(ps) + Wire(marker) <= input
    ensures Answer(input, commandId, markerId, limit).value == (Bodies(ps), |Wires(ps) + Wire(marker)|)
    decreases |input|
  {
    hide Wire, PacketAt;
    var p, used := PacketTaken(input);
    if p.id == markerId {
      ps, marker := [], p;
    } else {
      var more;
      more, marker := ReadAnswersAreAnswers(input[used..], commandId, markerId, limit - |p.body|);
      ps := [p] + more;
      assert Wires(ps) + Wire(marker) == Wire(p) + (Wires(more) + Wire(marker));
    }
  }

  /** `command` returns exactly the concatenated bodies before the marker, when there is such an answer. */
  lemma AnswersAreExact(input: seq<byte>, commandId: i32, markerId: i32, body: seq<byte>, used: nat)
    requires commandId != markerId
    ensures Answer(input, commandId, markerId, 1_048_576) == Ok((body, used)) <==>
      exists ps: seq<Packet>, marker: Packet ::
        && Answers(ps, marker, commandId, markerId, 1_048_576)
        && Wires(ps) + Wire(marker) <= input
        && body == Bodies(ps) && used == |Wires(ps) + Wire(marker)|
  {
    if Answer(input, commandId, markerId, MAX_RESPONSE_BYTES) == Ok((body, used)) {
      var ps, marker := ReadAnswersAreAnswers(input, commandId, markerId, MAX_RESPONSE_BYTES);
    }
    forall ps: seq<Packet>, marker: Packet |
      && Answers(ps, marker, commandId, markerId, MAX_RESPONSE_BYTES)
      && Wires(ps) + Wire(marker) <= input
      ensures Answer(input, commandId, markerId, MAX_RESPONSE_BYTES) == Ok((Bodies(ps), |Wires(ps) + Wire(marker)|))
    {
      AnswersAreRead(input, commandId, markerId, MAX_RESPONSE_BYTES, ps, marker);
    }
  }

  /** The whole answer when `taken` bytes of the input have given `response`. */
  ghost function AnswerAfter(input: seq<byte>, commandId: i32, markerId: i32, response: seq<byte>, taken: nat)
    : Result<(seq<byte>, nat)>
    requires taken <= |input| && |response| <= MAX_RESPONSE_BYTES
  {
    var (body, more) :- Answer(input[taken..], commandId, markerId, MAX_RESPONSE_BYTES - |response|);
    Ok((response + body, taken + more))
  }

  lemma NothingTaken(input: seq<byte>, commandId: i32, markerId: i32)
    ensures AnswerAfter(input, commandId, markerId, [], 0) == Answer(input, commandId, markerId, MAX_RESPONSE_BYTES)
  {
    hide Answer;
    assert input[0..] == input;
    if Answer(input, commandId, markerId, MAX_RESPONSE_BYTES).Ok? {
      var body := Answer(input, commandId, markerId, MAX_RESPONSE_BYTES).value.0;
      assert [] + body == body;
    }
  }

  lemma AnswerBreaksOff(input: seq<byte>, commandId: i32, markerId: i32, response: seq<byte>, taken: nat)
    requires taken <= |input| && |response| <= MAX_RESPONSE_BYTES && PacketAt(input[taken..]).Err?
    ensures AnswerAfter(input, commandId, markerId, response, taken).Err?
  {
  }

  /** What one more packet does to the whole answer. */
  lemma AnswerStep(input: seq<byte>, commandId: i32, markerId: i32, response: seq<byte>, taken: nat)
    requires taken <= |input| && |response| <= MAX_RESPONSE_BYTES && PacketAt(input[taken..]).Ok?
    ensures
      var whole := AnswerAfter(input, commandId, markerId, response, taken);
      var (p, used) := PacketAt(input[taken..]).value;
      && taken + used <= |input| && input[taken..][used..] == input[taken + used..]
      && if p.id == markerId then whole == Ok((response, taken + used))
         else if p.id != commandId || p.kind != RESPONSE_VALUE || |response| + |p.body| > MAX_RESPONSE_BYTES then whole.Err?
         else whole == AnswerAfter(input, commandId, markerId, response + p.body, taken + used)
  {
    hide PacketAt, Wire;
    var p, used := PacketTaken(input[taken..]);
    assert input[taken..][used..] == input[taken + used..];
    assert response + [] == response;
    if |response| + |p.body| <= MAX_RESPONSE_BYTES {
      var rest := Answer(input[taken + used..], commandId, markerId, MAX_RESPONSE_BYTES - |response| - |p.body|);
      if rest.Ok? {
        assert response + (p.body + rest.value.0) == response + p.body + rest.value.0;
      }
    }
  }

  // ---- The client

  class RconClient {
    const stream: Minecraft.ByteStream
    var sent: seq<byte>
    var nextRequestId: i32
    ghost var requests: nat

    ghost predicate Valid()
      reads this, stream
    {
      stream.Valid() && nextRequestId == IdAfter(1, requests)
    }

    constructor (stream: Minecraft.ByteStream)
      requires stream.Valid()
      ensures Valid() && this.stream == stream && sent == [] && nextRequestId == 1 && requests == 0
    {
      this.stream := stream;
      sent := [];
      nextRequestId := 1;
      requests := 0;
    }

    /** An id is used up even when its packet cannot be written. */
    method SendPacket(kind: i32, body: seq<byte>) returns (r: Result<i32>)
      requires Valid()
      modifies this
      ensures Valid() && nextRequestId == NextId(old(nextRequestId)) && requests == old(requests) + 1
      ensures old(sent) <= sent
      ensures |body| + 10 > I32_MAX ==> r.Err?
      ensures r.Ok? ==>
        && r.value == old(nextRequestId)
        && |body| + 10 <= I32_MAX && sent == old(sent) + Wire(Packet(r.value, kind, body))
      ensures r.Err? && |body| + 10 <= I32_MAX ==>
        sent < old(sent) + Wire(Packet(old(nextRequestId), kind, body))
    {
      var id := nextRequestId;
      nextRequestId := if id == I32_MAX then 1 else id + 1;
      requests := requests + 1;
      var packet := EncodePacket(id, kind, body);
      if packet.Err? {
        return Err;
      }
      var written: int := *;
      if 0 <= written < |packet.value| {
        sent := sent + packet.value[..written];
        return Err;
      }
      sent := sent + packet.value;
      r := Ok(id);
    }

    method ReadPacket() returns (r: Result<Packet>)
      requires Valid()
      modifies stream
      ensures Valid()
      ensures var p := PacketAt(old(stream.Rest()));
        if p.Err? then r.Err? else r == Ok(p.value.0) && stream.Rest() == old(stream.Rest())[p.value.1..]
    {
      ghost var input := stream.Rest();
      var length := stream.ReadExact(4);
      if length.Err? {
        return Err;
      }
      var n := ReadLittleEndian32(length.value);
      if n < 10 || n > MAX_PACKET_BYTES {
        return Err;
      }
      assert 4 + n <= |input| ==> input[4..][..n] == input[4..4 + n] && input[4..][n..] == input[4 + n..];
      var payload := stream.ReadExact(n);
      if payload.Err? {
        return Err;
      }
      r := DecodePayload(payload.value);
    }

    /** `connect` after the TCP connection is there: succeeds exactly when the request could be written and the
        server grants it, and then leaves the stream after the grant. */
    static method Authenticate(stream: Minecraft.ByteStream, password: text)
      returns (r: Result<RconClient>, ghost written: seq<byte>)
      requires stream.Valid()
      modifies stream
      ensures stream.Valid()
      ensures !Sendable(Utf8(password)) ==> r.Err? && written == [] && stream.Rest() == old(stream.Rest())
      ensures Sendable(Utf8(password)) ==> written <= Wire(Packet(1, 3, Utf8(password)))
      ensures r.Ok? <==>
        && Sendable(Utf8(password)) && written == Wire(Packet(1, 3, Utf8(password)))
        && Granted(old(stream.Rest()), 1).Ok?
      ensures r.Ok? ==>
        && fresh(r.value) && r.value.stream == stream && r.value.Valid() && r.value.requests == 1
        && r.value.sent == written
        && stream.Rest() == old(stream.Rest())[Granted(old(stream.Rest()), 1).value..]
    {
      hide PacketAt, Wire, Utf8, Granted;
      written := [];
      if !ValidBody(Utf8(password)) {
        r := Err;
        return;
      }
      var client := new RconClient(stream);
      var id := client.SendPacket(AUTH, Utf8(password));
      written := client.sent;
      if id.Err? {
        r := Err;
        return;
      }
      var granted := client.AwaitGrant(id.value);
      r := if granted then Ok(client) else Err;
    }

    /** Reads packets until the response to the authentication request. */
    method AwaitGrant(id: i32) returns (granted: bool)
      requires Valid() && id != -1
      modifies stream
      ensures Valid()
      ensures granted <==> Granted(old(stream.Rest()), id).Ok?
      ensures granted ==> stream.Rest() == old(stream.Rest())[Granted(old(stream.Rest()), id).value..]
    {
      hide PacketAt, Wire;
      ghost var input := stream.Rest();
      ghost var taken: nat := 0;
      while true
        invariant Valid() && taken <= |input| && stream.Rest() == input[taken..]
        invariant Granted(input, id).Ok? <==> Granted(input[taken..], id).Ok?
        invariant Granted(input, id).Ok? ==> Granted(input, id).value == taken + Granted(input[taken..], id).value
        decreases |stream.Rest()|
      {
        ghost var rest := stream.Rest();
        var packet := ReadPacket();
        if packet.Err? {
          return false;
        }
        ghost var p, used := PacketTaken(rest);
        assert input[taken..][used..] == input[taken + used..];
        taken := taken + used;
        if packet.value.kind == AUTH_RESPONSE {
          if packet.value.id == -1 {
            return false;
          }
          return packet.value.id == id;
        }
      }
    }

    /** Runs a command. Its packet and the end marker's use two ids, different from each other. */
    method Command(command: text) returns (r: Result<text>)
      requires Valid()
      modifies this, stream
      ensures Valid() && old(sent) <= sent
      ensures !Sendable(Utf8(command)) ==>
        r.Err? && sent == old(sent) && nextRequestId == old(nextRequestId) && stream.Rest() == old(stream.Rest())
      ensures Sendable(Utf8(command)) ==>
        var id := old(nextRequestId);
        var request := Wire(Packet(id, 2, Utf8(command))) + Wire(Packet(NextId(id), 2, []));
        var answer := Answer(old(stream.Rest()), id, NextId(id), 1_048_576);
        && (r.Ok? <==> sent == old(sent) + request && answer.Ok? && FromUtf8(answer.value.0).Some?)
        && (r.Ok? ==>
              && FromUtf8(answer.value.0) == Some(r.value)
              && stream.Rest() == old(stream.Rest())[answer.value.1..]
              && requests == old(requests) + 2)
    {
      hide PacketAt, Wire, Utf8, FromUtf8, Answer;
      if !ValidBody(Utf8(command)) {
        return Err;
      }
      var commandId := SendPacket(EXEC_COMMAND, Utf8(command));
      if commandId.Err? {
        return Err;
      }
      var markerId := SendPacket(EXEC_COMMAND, []);
      if markerId.Err? {
        return Err;
      }
      ghost var input := stream.Rest();
      var response := CollectAnswer(commandId.value, markerId.value);
      if response.Err? {
        return Err;
      }
      var value := FromUtf8(response.value);
      if value.None? {
        return Err;
      }
      r := Ok(value.value);
    }

    method CollectAnswer(commandId: i32, markerId: i32) returns (r: Result<seq<byte>>)
      requires Valid()
      modifies stream
      ensures Valid()
      ensures
        var answer := Answer(old(stream.Rest()), commandId, markerId, 1_048_576);
        if answer.Err? then r.Err?
        else r == Ok(answer.value.0) && stream.Rest() == old(stream.Rest())[answer.value.1..]
    {
      hide PacketAt, Wire, AnswerAfter, Answer;
      ghost var input := stream.Rest();
      ghost var whole := Answer(input, commandId, markerId, MAX_RESPONSE_BYTES);
      ghost var taken: nat := 0;
      NothingTaken(input, commandId, markerId);
      var response: seq<byte> := [];
      while true
        invariant Valid() && |response| <= MAX_RESPONSE_BYTES
        invariant taken <= |input| && stream.Rest() == input[taken..]
        invariant whole == AnswerAfter(input, commandId, markerId, response, taken)
        decreases |stream.Rest()|
      {
        ghost var rest := stream.Rest();
        assert rest == input[taken..];
        var packet := ReadPacket();
        if packet.Err? {
          AnswerBreaksOff(input, commandId, markerId, response, taken);
          return Err;
        }
        ghost var p, used := PacketTaken(rest);
        AnswerStep(input, commandId, markerId, response, taken);
        if packet.value.id == markerId {
          return Ok(response);
        }
        if packet.value.id != commandId || packet.value.kind != RESPONSE_VALUE {
          return Err;
        }
        if |response| + |packet.value.body| > MAX_RESPONSE_BYTES {
          return Err;
        }
        taken := taken + used;
        response := response + packet.value.body;
      }
    }
  }
}
