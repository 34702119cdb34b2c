/**
 * Network checks used before talking to a node: whether a host is on the local network
 * (loopback, the private IPv4 ranges of section 3 of RFC 1918, the IPv4 link-local range of
 * section 2.1 of RFC 3927, IPv6 link-local addresses of section 2.5.6 of RFC 4291 and unique
 * local addresses of section 3.1 of RFC 4193), and whether a URL answers a `get_info` probe
 * like a node. Parsing a host literal, name resolution and the HTTP round trip are inputs.
 */
module NetworkChecker {
  import opened JsonRpc

  /** The sixteen bytes of an IPv6 address, most significant first (`Q_IPV6ADDR`). */
  type IPv6Bytes = s: seq<bv8> | |s| == 16 witness seq(16, i => 0)

  /** A host address as `QHostAddress` classifies it. */
  datatype HostAddress =
    | IPv4(bits: bv32)
    | IPv6(bytes: IPv6Bytes)
    | OtherProtocol

  /** The outcome of `QHostInfo::fromName`. */
  datatype HostLookup = LookupError | Addresses(addrs: seq<HostAddress>)

  /** The IPv6 loopback address `::1`. */
  predicate IsIPv6Loopback(bytes: IPv6Bytes) {
    (forall i :: 0 <= i < 15 ==> bytes[i] == 0) && bytes[15] == 1
  }

  /** `QHostAddress::isLoopback`: 127.0.0.0/8 or `::1`. */
  predicate IsLoopback(a: HostAddress) {
    match a
    case IPv4(bits) => bits & 0xFF00_0000 == 0x7F00_0000
    case IPv6(bytes) => IsIPv6Loopback(bytes)
    case OtherProtocol => false
  }

  /** 10/8, 172.16/12, 192.168/16 and 169.254/16, tested with masks on the 32-bit address. */
  predicate IsPrivateIPv4(ipv4: bv32) {
    ipv4 & 0xFF00_0000 == 0x0A00_0000
    || ipv4 & 0xFFF0_0000 == 0xAC10_0000
    || ipv4 & 0xFFFF_0000 == 0xC0A8_0000
    || ipv4 & 0xFFFF_0000 == 0xA9FE_0000
  }

  /** fe80::/10 (first byte 0xFE, top two bits of the second 10) or fc00::/7 (first byte 0xFC or 0xFD). */
  predicate IsLocalIPv6(bytes: IPv6Bytes) {
    (bytes[0] == 0xFE && bytes[1] & 0xC0 == 0x80) || (bytes[0] == 0xFD || bytes[0] == 0xFC)
  }

  /** `isIpLocal`: loopback first, then the per-protocol ranges; any other protocol is not local. */
  predicate IsIpLocal(a: HostAddress) {
    if IsLoopback(a) then true
    else match a
      case IPv4(bits) => IsPrivateIPv4(bits)
      case IPv6(bytes) => IsLocalIPv6(bytes)
      case OtherProtocol => false
  }

  // ---------------------------------------------------------------------------
  // The same ranges in dotted-quad terms

  /** The address `a.b.c.d`. */
  function FromOctets(a: bv8, b: bv8, c: bv8, d: bv8): (r: bv32)
    ensures r >> 24 == a as bv32 && (r >> 16) & 0xFF == b as bv32
  {
    (a as bv32 << 24) | (b as bv32 << 16) | (c as bv32 << 8) | d as bv32
  }

  /** The mask tests pick exactly the private and link-local blocks, read on the first two octets. */
  lemma PrivateIPv4ByOctets(a: bv8, b: bv8, c: bv8, d: bv8)
    ensures IsPrivateIPv4(FromOctets(a, b, c, d)) <==>
              a == 10 || (a == 172 && 16 <= b <= 31) || (a == 192 && b == 168) || (a == 169 && b == 254)
    ensures IsLoopback(IPv4(FromOctets(a, b, c, d))) <==> a == 127
  {
  }

  lemma LocalIPv4Examples()
    ensures IsIpLocal(IPv4(FromOctets(127, 0, 0, 1))) && IsIpLocal(IPv4(FromOctets(192, 168, 1, 20)))
    ensures IsIpLocal(IPv4(FromOctets(172, 31, 255, 255))) && !IsIpLocal(IPv4(FromOctets(172, 32, 0, 1)))
    ensures !IsIpLocal(IPv4(FromOctets(8, 8, 8, 8))) && IsIpLocal(IPv4(FromOctets(169, 254, 0, 7)))
  {
    PrivateIPv4ByOctets(127, 0, 0, 1);
    PrivateIPv4ByOctets(192, 168, 1, 20);
    PrivateIPv4ByOctets(172, 31, 255, 255);
    PrivateIPv4ByOctets(172, 32, 0, 1);
    PrivateIPv4ByOctets(8, 8, 8, 8);
    PrivateIPv4ByOctets(169, 254, 0, 7);
  }

  /**
   * The IPv6 tests are the prefixes fe80::/10 and fc00::/7: the first 10 (resp. 7) bits of the
   * address, read as a number, are those of fe80 (resp. fc00).
   */
  lemma LocalIPv6ByPrefix(bytes: IPv6Bytes)
    ensures IsLocalIPv6(bytes) <==>
              (bytes[0] as int * 256 + bytes[1] as int) / 64 == 0xFE80 / 64
              || bytes[0] as int / 2 == 0xFC / 2
  {
    var b1 := bytes[1];
    assert b1 & 0xC0 == 0x80 <==> 0x80 <= b1 as int < 0xC0;
  }

  /** Loopback is local for both protocols, whatever the range tests say. */
  lemma LoopbackIsLocal(a: HostAddress)
    requires IsLoopback(a)
    ensures IsIpLocal(a)
  {
  }

  // ---------------------------------------------------------------------------
  // Hosts

  /** Some address in the list is local. */
  predicate SomeLocal(addrs: seq<HostAddress>) {
    exists i :: 0 <= i < |addrs| && IsIpLocal(addrs[i])
  }

  /**
   * A host literal that parses as an address is classified directly. Otherwise the name is
   * resolved: a failed lookup is not local, and a resolved name is local exactly when one of its
   * addresses is. `literal` is what parsing the host as an address gives; `lookup` is consulted
   * only when that fails.
   */
  method IsDomainOrIpLocal(literal: Option<HostAddress>, lookup: HostLookup) returns (local: bool)
    ensures literal.Some? ==> local == IsIpLocal(literal.value)
    ensures literal.None? && lookup.LookupError? ==> !local
    ensures literal.None? && lookup.Addresses? ==> local == SomeLocal(lookup.addrs)
  {
    if literal.Some? {
      return IsIpLocal(literal.value);
    }
    if lookup.LookupError? {
      return false;
    }
    var addrs := lookup.addrs;
    for i := 0 to |addrs|
      invariant forall k :: 0 <= k < i ==> !IsIpLocal(addrs[k])
    {
      if IsIpLocal(addrs[i]) {
        return true;
      }
    }
    return false;
  }

  // ---------------------------------------------------------------------------
  // Node probe

  /** A reply is a node's when it parsed, has a `result`, and that result has `status` and `version`. */
  predicate IsValidProbeReply(reply: Reply) {
    reply.Received?
    && "result" in ReplyObject(reply)
    && "status" in ToObject(ReplyObject(reply)["result"])
    && "version" in ToObject(ReplyObject(reply)["result"])
  }

  /** Calls back with the validity of the reply. */
  method OnRpcReplyFinished(reply: Reply) returns (isValid: bool)
    ensures isValid <==> IsValidProbeReply(reply)
    ensures reply.NetworkError? ==> !isValid
  {
    isValid := false;
    if reply.Received? {
      var jsonObject := ToObject(reply.document);
      isValid := "result" in jsonObject
                 && "status" in ToObject(jsonObject["result"])
                 && "version" in ToObject(jsonObject["result"]);
    }
  }

  /** A node error reply, with no `result`, or a result lacking `version`, fails the probe. */
  lemma ProbeRejects(errorBody: map<string, Json>, status: Json)
    requires "result" !in errorBody
    ensures !IsValidProbeReply(Received(JObj(errorBody)))
    ensures !IsValidProbeReply(Received(JObj(map["result" := JObj(map["status" := status])])))
    ensures !IsValidProbeReply(Received(JObj(map["result" := JStr("OK")])))
  {
    var j := JObj(map["result" := JObj(map["status" := status])]);
    assert ReplyObject(Received(j)) == j.fields;
  }

  lemma ProbeAccepts(status: Json, version: Json, rest: map<string, Json>)
    ensures IsValidProbeReply(Received(JObj(rest["result" := JObj(map["status" := status, "version" := version])])))
  {
  }

  /** The probe asks `get_info` and, unlike the RPC envelopes, carries no `params` member. */
  predicate IsProbeBody(j: Json) {
    j.JObj? && j.fields == map["jsonrpc" := JStr("2.0"), "id" := JStr("0"), "method" := JStr("get_info")]
  }

  /** The probe body is not a full envelope: an envelope reader does not accept it. */
  lemma ProbeIsNotEnvelope(j: Json)
    requires IsProbeBody(j)
    ensures ParseEnvelope(j) == None
    ensures "params" !in j.fields
  {
    assert "params" !in j.fields.Keys;
  }

  /**
   * An invalid URL calls back `false` at once and sends nothing; otherwise the probe is posted
   * to the URL and the callback gets the reply's validity. Either way the callback runs once.
   */
  method CheckMonerodRpc(address: string, urlValid: bool, reply: Reply)
    returns (sent: Option<Post>, callbacks: seq<bool>)
    ensures |callbacks| == 1
    ensures !urlValid ==> sent == None && callbacks == [false]
    ensures urlValid ==> sent.Some? && sent.value.url == address && sent.value.contentType == JsonContentType
                         && IsProbeBody(sent.value.body) && callbacks == [IsValidProbeReply(reply)]
  {
    if !urlValid {
      return None, [false];
    }
    var jsonObj := map[];
    jsonObj := jsonObj["jsonrpc" := JStr("2.0")];
    jsonObj := jsonObj["id" := JStr("0")];
    jsonObj := jsonObj["method" := JStr("get_info")];
    sent := Some(Post(address, JsonContentType, JObj(jsonObj)));
    var isValid := OnRpcReplyFinished(reply);
    callbacks := [isValid];
  }
}
