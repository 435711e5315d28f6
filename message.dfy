/** The message layer: node-id parsing, packet-id packing, the three-layer
    Meshtastic envelope (ServiceEnvelope > MeshPacket > Data) and the MQTT topic. */
module Message {
  import opened Wrappers
  import opened Text
  import Utf8

  /** The node number that addresses every node. */
  const BROADCAST: nat := 0xFFFF_FFFF
  /** The application port of plain text messages. */
  const TEXT_MESSAGE_APP: nat := 1

  // ---------------------------------------------------------------------------
  // Node ids

  /** Why a node-id string was rejected; each case raises ValueError in the source. */
  datatype NodeIdError =
    | EmptyNodeId
    | EmptyHex
    | InvalidHex(nodeId: string)
    | InvalidFormat(nodeId: string)
  {
    function Text(): string {
      match this
      case EmptyNodeId => "Node ID cannot be empty"
      case EmptyHex => "Node ID hex string cannot be empty after '!'"
      case InvalidHex(id) => "Invalid hex format in node ID: " + id
      case InvalidFormat(id) => "Invalid node ID format: " + id + ". Expected '!<hex>', '^all', or integer"
    }
  }

  /** A spelling of the broadcast address `^all`, in any mix of cases. */
  predicate IsBroadcastSpelling(s: string) {
    Lower(s) == "^all"
  }

  /** `parse_node_id`: `^all` in any case is the broadcast address, `!<hex>` is
      a hexadecimal node number and anything else must be a decimal one. No
      32-bit bound is applied. */
  function ParseNodeId(nodeId: string): Result<nat, NodeIdError> {
    if nodeId == "" then Failure(EmptyNodeId)
    else if IsBroadcastSpelling(nodeId) then Success(BROADCAST)
    else if nodeId[0] == '!' then
      var hex := nodeId[1..];
      if hex == "" then Failure(EmptyHex)
      else match ParseDigits(hex, 16)
        case Some(v) => Success(v)
        case None => Failure(InvalidHex(nodeId))
    else match ParseDigits(nodeId, 10)
      case Some(v) => Success(v)
      case None => Failure(InvalidFormat(nodeId))
  }

  /** Exactly three shapes of node id are accepted: a broadcast spelling, `!`
      followed by hex digits, or decimal digits. */
  lemma ParseNodeIdAccepts(s: string)
    ensures ParseNodeId(s).Success? <==>
      || IsBroadcastSpelling(s)
      || (|s| >= 2 && s[0] == '!' && AllDigits(s[1..], 16))
      || (s != [] && AllDigits(s, 10))
  {
    if s != [] && AllDigits(s, 10) {
      assert DigitValue(s[0], 10).Some?;
    }
  }

  /** The empty string is the only input rejected before any other check. */
  lemma ParseEmptyNodeId(s: string)
    ensures ParseNodeId(s) == Failure(EmptyNodeId) <==> s == ""
  {
  }

  /** Every case variant of `^all` is the broadcast address. */
  lemma ParseBroadcast(s: string)
    requires |s| == 4 && s[0] == '^'
    requires s[1] in "aA" && s[2] in "lL" && s[3] in "lL"
    ensures ParseNodeId(s) == Success(BROADCAST)
  {
    assert Lower(s) == "^all";
  }

  /** `!` followed by the hex digits of `n` parses back to `n`. */
  lemma ParseHexNodeId(n: nat)
    ensures ParseNodeId("!" + FormatNat(n, 16)) == Success(n)
  {
    var s := "!" + FormatNat(n, 16);
    assert s[1..] == FormatNat(n, 16);
    assert Lower(s)[0] == '!';
    ParseFormat(n, 16);
  }

  /** The hex example of the source's tests. */
  lemma ParseHexExample()
    ensures ParseNodeId("!12345678") == Success(0x12345678)
  {
    assert FormatNat(0x1234, 16) == "1234" by {
      assert FormatNat(0x12, 16) == "12";
      assert FormatNat(0x123, 16) == "123";
    }
    assert FormatNat(0x123456, 16) == "123456" by {
      assert FormatNat(0x12345, 16) == "12345";
    }
    assert FormatNat(0x1234567, 16) == "1234567";
    assert FormatNat(0x12345678, 16) == "12345678";
    ParseHexNodeId(0x12345678);
  }

  /** Hex digits are read in either case: `!` followed by any case variant of
      a hex string gives the same result. */
  lemma ParseHexIgnoresCase(h: string)
    requires h != []
    ensures ParseNodeId("!" + Lower(h)).Success? <==> ParseNodeId("!" + h).Success?
    ensures ParseNodeId("!" + h).Success? ==> ParseNodeId("!" + Lower(h)) == ParseNodeId("!" + h)
  {
    var s, t := "!" + h, "!" + Lower(h);
    assert Lower(s)[0] == '!' && Lower(t)[0] == '!';
    assert s[1..] == h && t[1..] == Lower(h);
    DigitsIgnoreCase(h, 16);
  }

  /** A `!` with nothing after it, and a `!` followed by a non-hex character,
      are rejected with their own errors. */
  lemma ParseBadHex(s: string)
    requires |s| >= 1 && s[0] == '!'
    ensures |s| == 1 ==> ParseNodeId(s) == Failure(EmptyHex)
    ensures |s| > 1 && !AllDigits(s[1..], 16) ==> ParseNodeId(s) == Failure(InvalidHex(s))
  {
    assert Lower(s)[0] == '!';
  }

  /** The decimal digits of `n` parse back to `n`. */
  lemma ParseDecimalNodeId(n: nat)
    ensures ParseNodeId(FormatNat(n, 10)) == Success(n)
  {
    var s := FormatNat(n, 10);
    ParseFormat(n, 10);
    assert DigitValue(s[0], 10).Some?;
    assert Lower(s)[0] == s[0];
  }

  /** Anything that is not one of the three shapes fails the decimal parse; in
      particular a whitespace-only id falls through to it and fails there. */
  lemma ParseInvalidFormat(s: string)
    requires s != [] && s[0] != '!' && !IsBroadcastSpelling(s) && !AllDigits(s, 10)
    ensures ParseNodeId(s) == Failure(InvalidFormat(s))
  {
  }

  lemma ParseBlankNodeId(s: string)
    requires s != [] && IsBlank(s)
    ensures ParseNodeId(s) == Failure(InvalidFormat(s))
  {
    assert IsPythonSpace(s[0]);
    assert DigitValue(s[0], 10).None?;
    assert Lower(s)[0] != '^';
  }

  lemma ParseNodeIdExamples()
    ensures ParseNodeId("12345") == Success(12345)
    ensures ParseNodeId("!xyz") == Failure(InvalidHex("!xyz"))
    ensures ParseNodeId("^ALL") == Success(BROADCAST)
  {
    assert Lower("12345")[0] == '1';
    assert DigitsValue("1234", 10) == 1234 by {
      assert "1234"[..3] == "123";
      assert "123"[..2] == "12";
      assert "12"[..1] == "1";
      assert "1"[..0] == "";
    }
    assert "12345"[..4] == "1234";
    assert !AllDigits("!xyz"[1..], 16) by {
      assert "!xyz"[1..][0] == 'x';
    }
    ParseBadHex("!xyz");
    ParseBroadcast("^ALL");
  }

  // ---------------------------------------------------------------------------
  // Packet ids

  /** `generate_packet_id` with the clock reading (milliseconds) and the random
      16-bit value passed in: the low 16 bits of the clock in the high half,
      the random value in the low half. `t & 0xFFFF` is `t % 2^16` (also for a
      negative `t`, as Python's `&` works on two's complement), `<< 16` is a
      multiplication by 2^16, and `|` with a value below 2^16 adds it, since
      the bits do not overlap; the final `& 0xFFFFFFFF` then changes nothing. */
  function PacketId(timestampMs: int, random: int): (id: nat)
    requires 0 <= random <= 0xFFFF
    ensures id < 0x1_0000_0000
    ensures id / 0x10000 == timestampMs % 0x10000
    ensures id % 0x10000 == random
  {
    var high := timestampMs % 0x10000;
    var packet := high * 0x10000 + random;
    packet % 0x1_0000_0000
  }

  /** Two ids collide exactly when the clocks agree modulo 2^16 and the random
      halves are equal. */
  lemma PacketIdCollision(t1: int, r1: int, t2: int, r2: int)
    requires 0 <= r1 <= 0xFFFF && 0 <= r2 <= 0xFFFF
    ensures PacketId(t1, r1) == PacketId(t2, r2) <==> t1 % 0x10000 == t2 % 0x10000 && r1 == r2
  {
    var a, b := PacketId(t1, r1), PacketId(t2, r2);
    assert a == a / 0x10000 * 0x10000 + a % 0x10000;
    assert b == b / 0x10000 * 0x10000 + b % 0x10000;
  }

  // ---------------------------------------------------------------------------
  // The envelope

  /** The innermost layer: the application port and the payload bytes. */
  datatype Data = Data(portnum: nat, payload: seq<Utf8.byte>)

  /** The routing layer; `from` is the gateway, `to` the recipient. */
  datatype MeshPacket = MeshPacket(
    from: nat,
    to: nat,
    id: nat,
    channel: nat,
    hopLimit: int,
    wantAck: bool,
    decoded: Data)

  /** The outer MQTT layer: the packet plus the channel name and the gateway
      id string used for routing on the broker. */
  datatype ServiceEnvelope = ServiceEnvelope(packet: MeshPacket, channelId: string, gatewayId: string)

  /** Protobuf's 32-bit unsigned fields (`fixed32` from and to, `uint32`
      hop_limit) accept exactly these values; any other integer raises
      ValueError on assignment. */
  predicate InUint32(n: int) {
    0 <= n < 0x1_0000_0000
  }

  datatype BuildError = EmptyText | InvalidNodeId(cause: NodeIdError) | OutOfRange(value: int)
  {
    function Text(): string {
      match this
      case EmptyText => "Message text cannot be empty"
      case InvalidNodeId(cause) => cause.Text()
      case OutOfRange(v) => "Value out of range: " + IntToDecimal(v)
    }
  }

  /** `build_protobuf_message` up to serialisation: checks the text, parses the
      gateway id and then the recipient id, and fills the three layers, failing
      on the first problem. Protobuf checks each number as it is assigned, in
      the order from, to, hop_limit. */
  function Build(text: string, toId: string, gatewayId: string, channel: string,
                 wantAck: bool, hopLimit: int, timestampMs: int, random: int)
    : (r: Result<ServiceEnvelope, BuildError>)
    requires 0 <= random <= 0xFFFF
    ensures text == "" ==> r == Failure(EmptyText)
    ensures text != "" && ParseNodeId(gatewayId).Failure? ==>
      r == Failure(InvalidNodeId(ParseNodeId(gatewayId).error))
    ensures text != "" && ParseNodeId(gatewayId).Success? && ParseNodeId(toId).Failure? ==>
      r == Failure(InvalidNodeId(ParseNodeId(toId).error))
    ensures text != "" && ParseNodeId(gatewayId).Success? && ParseNodeId(toId).Success? ==>
      var from, to := ParseNodeId(gatewayId).value, ParseNodeId(toId).value;
      && (!InUint32(from) ==> r == Failure(OutOfRange(from)))
      && (InUint32(from) && !InUint32(to) ==> r == Failure(OutOfRange(to)))
      && (InUint32(from) && InUint32(to) && !InUint32(hopLimit) ==> r == Failure(OutOfRange(hopLimit)))
    ensures r.Success? <==>
      && text != "" && ParseNodeId(gatewayId).Success? && ParseNodeId(toId).Success?
      && InUint32(ParseNodeId(gatewayId).value) && InUint32(ParseNodeId(toId).value) && InUint32(hopLimit)
    ensures r.Success? ==>
      var p := r.value.packet;
      && p.from == ParseNodeId(gatewayId).value
      && p.to == ParseNodeId(toId).value
      && p.id == PacketId(timestampMs, random)
      && p.channel == 0
      && p.hopLimit == hopLimit
      && p.wantAck == wantAck
      && p.decoded.portnum == TEXT_MESSAGE_APP
      && p.decoded.payload != []
      && Utf8.Decode(p.decoded.payload) == Some(text)
      && r.value.channelId == channel
      && r.value.gatewayId == gatewayId
  {
    if text == "" then Failure(EmptyText)
    else
      match ParseNodeId(gatewayId)
      case Failure(e) => Failure(InvalidNodeId(e))
      case Success(fromNode) =>
        match ParseNodeId(toId)
        case Failure(e) => Failure(InvalidNodeId(e))
        case Success(toNode) =>
          if !InUint32(fromNode) then Failure(OutOfRange(fromNode))
          else if !InUint32(toNode) then Failure(OutOfRange(toNode))
          else if !InUint32(hopLimit) then Failure(OutOfRange(hopLimit))
          else
            var payload := Utf8.Encode(text);
            Utf8.DecodeEncode(text);
            Utf8.EncodeEmpty(text);
            var data := Data(TEXT_MESSAGE_APP, payload);
            var packet := MeshPacket(fromNode, toNode, PacketId(timestampMs, random), 0, hopLimit, wantAck, data);
            Success(ServiceEnvelope(packet, channel, gatewayId))
  }

  /** The addresses a test message is sent to are in range: the broadcast
      address is the largest 32-bit value, and a hop limit of 0 to 7 fits. */
  lemma BuildBroadcast(text: string, gatewayHex: nat, hopLimit: int, random: int)
    requires text != "" && gatewayHex < 0x1_0000_0000
    requires 0 <= hopLimit <= 7 && 0 <= random <= 0xFFFF
    ensures var r := Build(text, "^all", "!" + FormatNat(gatewayHex, 16), "LongFast", false, hopLimit, 0, random);
      && r.Success?
      && r.value.packet.from == gatewayHex
      && r.value.packet.to == BROADCAST
  {
    ParseHexNodeId(gatewayHex);
    ParseBroadcast("^all");
  }

  // ---------------------------------------------------------------------------
  // The topic

  /** `build_topic`: `msh/<region>/2/e/<channel>/<gateway_id>`. */
  function BuildTopic(region: string, channel: string, gatewayId: string): string {
    "msh/" + region + "/2/e/" + channel + "/" + gatewayId
  }

  /** The topic is the six segments joined by `/`, so when no argument contains
      a `/` splitting the topic recovers region, channel and gateway id. */
  lemma TopicSegments(region: string, channel: string, gatewayId: string)
    requires '/' !in region && '/' !in channel && '/' !in gatewayId
    ensures Split(BuildTopic(region, channel, gatewayId), '/') == ["msh", region, "2", "e", channel, gatewayId]
  {
    var sep := "/";
    var p5 := [gatewayId];
    var p4 := [channel] + p5;
    var p3 := ["e"] + p4;
    var p2 := ["2"] + p3;
    var p1 := [region] + p2;
    var parts := ["msh"] + p1;
    JoinCons(channel, p5, sep);
    JoinCons("e", p4, sep);
    JoinCons("2", p3, sep);
    JoinCons(region, p2, sep);
    JoinCons("msh", p1, sep);
    assert Join(parts, sep) == BuildTopic(region, channel, gatewayId);
    assert parts == ["msh", region, "2", "e", channel, gatewayId];
    assert forall i :: 0 <= i < |parts| ==> '/' !in parts[i];
    SplitJoin(parts, '/');
  }

  /** Different slash-free arguments give different topics. */
  lemma TopicInjective(r1: string, c1: string, g1: string, r2: string, c2: string, g2: string)
    requires '/' !in r1 && '/' !in c1 && '/' !in g1
    requires '/' !in r2 && '/' !in c2 && '/' !in g2
    requires BuildTopic(r1, c1, g1) == BuildTopic(r2, c2, g2)
    ensures r1 == r2 && c1 == c2 && g1 == g2
  {
    TopicSegments(r1, c1, g1);
    TopicSegments(r2, c2, g2);
  }

  lemma TopicExample()
    ensures BuildTopic("US", "LongFast", "!12345678") == "msh/US/2/e/LongFast/!12345678"
    ensures BuildTopic("EU", "LongFast", "!abcdef12") == "msh/EU/2/e/LongFast/!abcdef12"
  {
  }
}
