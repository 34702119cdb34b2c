/**
 * Shared vocabulary of the three JSON-RPC clients (daemon adapter, wallet adapter and the
 * wallet-rpc sidecar manager): JSON values with Qt's defaulting accessors, 32-bit integer
 * conversions, decimal rendering and parsing, the JSON-RPC 2.0 request envelope, the
 * transport reply (an abstract input standing for the HTTP round trip) and the packed
 * version number.
 */
module JsonRpc {

  datatype Option<T> = None | Some(value: T)

  /** A JSON value. Numbers are integers only; floating point is not modelled. */
  datatype Json =
    | JNull
    | JInt(n: int)
    | JBool(b: bool)
    | JStr(s: string)
    | JArr(items: seq<Json>)
    | JObj(fields: map<string, Json>)

  // ---------------------------------------------------------------------------
  // 32-bit integers

  const Int32Min: int := -0x8000_0000
  const Int32Max: int := 0x7FFF_FFFF

  predicate InInt32(x: int) {
    Int32Min <= x <= Int32Max
  }

  /** C++ `unsigned int`. */
  type UInt32 = x: int | 0 <= x < 0x1_0000_0000

  /** `static_cast<int>(u)` on a 32-bit two's complement machine: values of 2^31 and above wrap. */
  function CastToInt(u: UInt32): (r: int)
    ensures InInt32(r)
    ensures (r - u) % 0x1_0000_0000 == 0
    ensures u <= Int32Max ==> r == u
  {
    if u <= Int32Max then u else u - 0x1_0000_0000
  }

  /** `static_cast<unsigned int>(i)`: the inverse of CastToInt. */
  function CastToUnsigned(i: int): (u: UInt32)
    requires InInt32(i)
    ensures (u - i) % 0x1_0000_0000 == 0
  {
    if i >= 0 then i else i + 0x1_0000_0000
  }

  /** Sending an unsigned value through `static_cast<int>` loses nothing: it can be cast back. */
  lemma CastRoundTrip(u: UInt32)
    ensures CastToUnsigned(CastToInt(u)) == u
    ensures CastToInt(u) < 0 <==> u > Int32Max
  {
  }

  /** C++ integer division, which truncates toward zero (Dafny's `/` is Euclidean). */
  function TruncDiv(a: int, b: int): (q: int)
    requires b != 0
    ensures 0 <= a && 0 < b ==> q == a / b
    ensures a < 0 && 0 < b ==> q == -((-a) / b)
    ensures (0 <= a && 0 < b) || (a <= 0 && b < 0) ==> q >= 0
  {
    var na: nat := Abs(a);
    var nb: nat := Abs(b);
    var q0: int := na / nb;
    assert na == 0 ==> q0 == 0;
    if (a < 0) == (b < 0) then q0 else -q0
  }

  /**
   * The remainder left by `TruncDiv` has the sign of the dividend (or is zero) and is smaller
   * than the divisor in magnitude: division rounds toward zero.
   */
  lemma TruncDivRemainder(a: int, b: int)
    requires b != 0
    ensures var rem := a - TruncDiv(a, b) * b;
            (rem == 0 || (rem < 0 <==> a < 0)) && Abs(rem) < Abs(b)
  {
    RemainderOfMagnitudes(a, b, TruncDiv(a, b));
  }

  /** The remainder of `TruncDiv` is the remainder of the magnitudes, with the dividend's sign. */
  lemma RemainderOfMagnitudes(a: int, b: int, q: int)
    requires b != 0 && q == TruncDiv(a, b)
    ensures a - q * b == (if a < 0 then -(Abs(a) % Abs(b)) else Abs(a) % Abs(b))
  {
    var na: nat := Abs(a);
    var nb: nat := Abs(b);
    var q0: int := na / nb;
    var r0: int := na % nb;
    assert na == q0 * nb + r0;
    if b > 0 {
      assert nb == b;
      if a >= 0 {
        assert q == q0;
      } else {
        assert q == -q0 && q * b == -(q0 * nb);
      }
    } else {
      assert nb == -b;
      if a >= 0 {
        assert q == -q0 && q * b == q0 * nb;
      } else {
        assert q == q0 && q * b == -(q0 * nb);
      }
    }
  }

  function Abs(x: int): nat {
    if x < 0 then -x else x
  }

  lemma TruncDivExamples()
    ensures TruncDiv(-7, 2) == -3 && TruncDiv(7, -2) == -3 && TruncDiv(-7, -2) == 3
    ensures TruncDiv(950 * 100, 1000) == 95
  {
  }

  // ---------------------------------------------------------------------------
  // Qt's defaulting accessors

  /** `QJsonObject::operator[]` on a missing key yields an undefined value, which behaves like null. */
  function Field(obj: map<string, Json>, key: string): (v: Json)
    ensures key !in obj ==> v == JNull
  {
    if key in obj then obj[key] else JNull
  }

  /** `QJsonValue::toInt()`: an integer within the range of `int`, otherwise the default 0. */
  function ToInt(v: Json): (r: int)
    ensures InInt32(r)
  {
    if v.JInt? && InInt32(v.n) then v.n else 0
  }

  /** `QJsonValue::toObject()`: the members of an object, otherwise the empty object. */
  function ToObject(v: Json): (r: map<string, Json>)
    ensures !v.JObj? ==> r == map[]
  {
    if v.JObj? then v.fields else map[]
  }

  // ---------------------------------------------------------------------------
  // Decimal text (`QString::number`, `QString::arg(int)`, `QString::toInt()`)

  predicate IsDigit(c: char) {
    '0' <= c <= '9'
  }

  predicate AllDigits(s: string) {
    forall i :: 0 <= i < |s| ==> IsDigit(s[i])
  }

  function DigitChar(d: nat): (c: char)
    requires d < 10
    ensures IsDigit(c)
  {
    ('0' as int + d) as char
  }

  function DigitValue(c: char): (d: nat)
    requires IsDigit(c)
    ensures d < 10
  {
    (c as int) - ('0' as int)
  }

  /** Decimal rendering of a natural number, without leading zeros. */
  function NatToString(n: nat): (s: string)
    ensures |s| > 0 && AllDigits(s)
    ensures s[0] == '0' ==> n == 0
    decreases n
  {
    if n < 10 then [DigitChar(n)] else NatToString(n / 10) + [DigitChar(n % 10)]
  }

  /** Decimal rendering of an integer with a leading '-' for negatives, as `QString::number` does. */
  function IntToString(i: int): (s: string)
    ensures |s| > 0
    ensures s[0] == '-' <==> i < 0
    ensures '.' !in s
  {
    if i < 0 then "-" + NatToString(-i) else NatToString(i)
  }

  function ParseNat(s: string): nat
    requires AllDigits(s)
    decreases |s|
  {
    if s == [] then 0 else ParseNat(s[..|s| - 1]) * 10 + DigitValue(s[|s| - 1])
  }

  /** Base-10 integer syntax: an optional sign followed by at least one digit. */
  function ParseInt(s: string): (r: Option<int>)
  {
    if |s| > 1 && s[0] == '-' && AllDigits(s[1..]) then Some(0 - ParseNat(s[1..]))
    else if |s| > 1 && s[0] == '+' && AllDigits(s[1..]) then Some(ParseNat(s[1..]))
    else if |s| > 0 && AllDigits(s) then Some(ParseNat(s))
    else None
  }

  lemma {:induction false} ParseNatToString(n: nat)
    ensures ParseNat(NatToString(n)) == n
    decreases n
  {
    var s := NatToString(n);
    if n >= 10 {
      ParseNatToString(n / 10);
      assert s[..|s| - 1] == NatToString(n / 10);
    }
  }

  /** Decimal rendering is undone by parsing. */
  lemma ParseIntToString(i: int)
    ensures ParseInt(IntToString(i)) == Some(i)
  {
    var s := IntToString(i);
    if i < 0 {
      assert s[1..] == NatToString(-i);
      ParseNatToString(-i);
    } else {
      ParseNatToString(i);
    }
  }

  /** Distinct integers render differently. */
  lemma IntToStringInjective(a: int, b: int)
    requires IntToString(a) == IntToString(b)
    ensures a == b
  {
    ParseIntToString(a);
    ParseIntToString(b);
  }

  predicate IsSpace(c: char) {
    c == ' ' || c == '\t' || c == '\n' || c == '\r' || c == '\U{0B}' || c == '\U{0C}'
  }

  function TrimStart(s: string): (r: string)
    ensures |r| <= |s| && r == s[|s| - |r|..]
    ensures r != [] ==> !IsSpace(r[0])
    ensures forall k :: 0 <= k < |s| - |r| ==> IsSpace(s[k])
    decreases |s|
  {
    if s != [] && IsSpace(s[0]) then TrimStart(s[1..]) else s
  }

  function TrimEnd(s: string): (r: string)
    ensures |r| <= |s| && r == s[..|r|]
    ensures r != [] ==> !IsSpace(r[|r| - 1])
    ensures forall k :: |r| <= k < |s| ==> IsSpace(s[k])
    decreases |s|
  {
    if s != [] && IsSpace(s[|s| - 1]) then TrimEnd(s[..|s| - 1]) else s
  }

  /** `QString::trimmed()` over the ASCII white-space characters. */
  function Trim(s: string): (r: string)
    ensures r != [] ==> !IsSpace(r[0]) && !IsSpace(r[|r| - 1])
  {
    TrimEnd(TrimStart(s))
  }

  /**
   * `Trim` keeps a contiguous slice of its input and drops only white space on either side
   * of it.
   */
  lemma TrimIsSlice(s: string)
    ensures exists i :: 0 <= i <= |s| && Trim(s) <= s[i..]
                        && (forall k :: 0 <= k < i ==> IsSpace(s[k]))
                        && (forall k :: i + |Trim(s)| <= k < |s| ==> IsSpace(s[k]))
  {
    var t := TrimStart(s);
    var r := TrimEnd(t);
    var i := |s| - |t|;
    assert t == s[i..];
    assert r == t[..|r|];
    assert r <= s[i..];
    assert forall k :: 0 <= k < i ==> IsSpace(s[k]);
    forall k | i + |r| <= k < |s| ensures IsSpace(s[k]) {
      assert s[k] == t[k - i];
    }
    assert Trim(s) == r;
  }

  /** `QString::toInt()`: base 10, surrounding white space ignored, 0 on malformed text or overflow. */
  function QtToInt(s: string): (r: int)
    ensures InInt32(r)
  {
    match ParseInt(Trim(s))
    case Some(v) => if InInt32(v) then v else 0
    case None => 0
  }

  lemma TrimDigits(s: string)
    requires |s| > 0 && s[0] != ' ' && s[|s| - 1] != ' '
    requires forall i :: 0 <= i < |s| ==> !IsSpace(s[i])
    ensures Trim(s) == s
  {
  }

  /** `QString::toInt()` reads back what `QString::number` wrote. */
  lemma QtToIntOfNumber(i: int)
    requires InInt32(i)
    ensures QtToInt(IntToString(i)) == i
  {
    var s := IntToString(i);
    forall k | 0 <= k < |s| ensures !IsSpace(s[k]) {
      if i >= 0 {
        assert IsDigit(s[k]);
      } else if k > 0 {
        assert s[k] == NatToString(-i)[k - 1];
        assert IsDigit(s[k]);
      }
    }
    assert Trim(s) == s by {
      assert TrimStart(s) == s;
      assert TrimEnd(s) == s;
    }
    ParseIntToString(i);
  }

  // ---------------------------------------------------------------------------
  // The JSON-RPC 2.0 envelope and the transport

  /** The request every client posts: `{jsonrpc: "2.0", id: "0", method, params}`. */
  function Envelope(methodName: string, params: map<string, Json>): (j: Json)
    ensures j.JObj? && |j.fields| == 4
  {
    var fields := map["jsonrpc" := JStr("2.0"), "id" := JStr("0"),
                      "method" := JStr(methodName), "params" := JObj(params)];
    assert fields.Keys == {"jsonrpc", "id", "method", "params"};
    JObj(fields)
  }

  /** Reads a request back: its method name and parameters, when it is a well-formed envelope. */
  function ParseEnvelope(j: Json): Option<(string, map<string, Json>)>
  {
    if j.JObj? && j.fields.Keys == {"jsonrpc", "id", "method", "params"}
       && j.fields["jsonrpc"] == JStr("2.0") && j.fields["id"] == JStr("0")
       && j.fields["method"].JStr? && j.fields["params"].JObj?
    then Some((j.fields["method"].s, j.fields["params"].fields))
    else None
  }

  /** The envelope carries exactly its method and parameters: it can be read back ... */
  lemma EnvelopeRoundTrip(methodName: string, params: map<string, Json>)
    ensures ParseEnvelope(Envelope(methodName, params)) == Some((methodName, params))
  {
    var j := Envelope(methodName, params);
    assert j.fields.Keys == {"jsonrpc", "id", "method", "params"};
  }

  /** ... and nothing but an envelope reads back as one. */
  lemma {:induction false} EnvelopeOnly(j: Json, methodName: string, params: map<string, Json>)
    requires ParseEnvelope(j) == Some((methodName, params))
    ensures j == Envelope(methodName, params)
  {
    var e := Envelope(methodName, params);
    assert e.fields.Keys == j.fields.Keys;
    forall k | k in j.fields ensures j.fields[k] == e.fields[k] {
    }
    assert j.fields == e.fields;
  }

  function MethodOf(j: Json): string
  {
    match ParseEnvelope(j)
    case Some(mp) => mp.0
    case None => ""
  }

  function ParamsOf(j: Json): map<string, Json>
  {
    match ParseEnvelope(j)
    case Some(mp) => mp.1
    case None => map[]
  }

  /** `Content-Type` header of every request. */
  const JsonContentType: string := "application/json"

  /** An HTTP POST as it leaves the client. */
  datatype Post = Post(url: string, contentType: string, body: Json)

  /**
   * What the transport delivers for one request: a network error with Qt's error string, or a
   * body, already parsed by `QJsonDocument::fromJson` (a body that does not parse is `JNull`).
   */
  datatype Reply = NetworkError(errorString: string) | Received(document: Json)

  /** `QJsonDocument::fromJson(reply->readAll()).object()`, or the empty object on a network error. */
  function ReplyObject(reply: Reply): (r: map<string, Json>)
    ensures reply.NetworkError? ==> r == map[]
    ensures reply.Received? && reply.document.JObj? ==> r == reply.document.fields
  {
    if reply.NetworkError? then map[] else ToObject(reply.document)
  }

  /** HTTP basic-authentication credentials handed to `QAuthenticator`. */
  datatype Credentials = Credentials(user: string, password: string)

  /** `http%1://%2:%3/json_rpc`, with "s" inserted iff TLS is on. */
  function RpcUrl(tls: bool, host: string, port: int): (u: string)
  {
    "http" + (if tls then "s" else "") + "://" + host + ":" + IntToString(port) + "/json_rpc"
  }

  /** The scheme is https exactly when TLS is on, http exactly when it is off. */
  lemma RpcUrlScheme(tls: bool, host: string, port: int)
    ensures |RpcUrl(tls, host, port)| >= 8
    ensures RpcUrl(tls, host, port)[..8] == "https://" <==> tls
    ensures RpcUrl(tls, host, port)[..7] == "http://" <==> !tls
  {
    var u := RpcUrl(tls, host, port);
    if tls {
      assert u[..8] == "https://";
      assert u[4] == 's';
    } else {
      assert u[..7] == "http://";
      assert u[4] == ':';
    }
  }

  // ---------------------------------------------------------------------------
  // Packed version numbers

  function Pow2(k: nat): (p: nat)
    ensures p >= 1
  {
    if k == 0 then 1 else 2 * Pow2(k - 1)
  }

  /**
   * `x & (2^k - 1)` on a two's complement integer: the low k bits, which is the non-negative
   * remainder modulo 2^k (Dafny's `%` is Euclidean, so this holds for negative x as well).
   */
  function LowBits(x: int, k: nat): (r: int)
    ensures 0 <= r < Pow2(k)
  {
    x % Pow2(k)
  }

  /** `x >> k` on a signed integer: an arithmetic shift, which is floor division by 2^k. */
  function ShiftRight(x: int, k: nat): int
  {
    x / Pow2(k)
  }

  /** `(version >> 16) & 0xFF`. */
  function VersionMajor(version: int): (r: int)
    ensures 0 <= r <= 255
  {
    LowBits(ShiftRight(version, 16), 8)
  }

  /** `version & 0xFF`. */
  function VersionMinor(version: int): (r: int)
    ensures 0 <= r <= 255
  {
    LowBits(version, 8)
  }

  /** Packing major and minor as `major << 16 | minor` and decoding gives them back. */
  lemma VersionUnpacksPacked(major: int, minor: int)
    requires 0 <= major <= 255 && 0 <= minor <= 255
    ensures VersionMajor(major * 0x1_0000 + minor) == major
    ensures VersionMinor(major * 0x1_0000 + minor) == minor
  {
    assert Pow2(8) == 0x100 && Pow2(16) == 0x1_0000 by {
      assert Pow2(4) == 16;
      assert Pow2(8) == 256;
    }
  }

  /** `QString("%1.%2").arg(major).arg(minor)`. */
  function VersionString(version: int): string
  {
    IntToString(VersionMajor(version)) + "." + IntToString(VersionMinor(version))
  }

  /** The position of the first `c` in `s`, or `|s|` when there is none. */
  function IndexOf(s: string, c: char): (r: nat)
    ensures r <= |s|
    ensures r < |s| ==> s[r] == c
    ensures forall k :: 0 <= k < r ==> s[k] != c
    decreases |s|
  {
    if s == [] then 0
    else if s[0] == c then 0
    else 1 + IndexOf(s[1..], c)
  }

  /** Splits "major.minor" at its first dot and reads both sides as integers. */
  function ParseVersionString(s: string): Option<(int, int)>
  {
    var i := IndexOf(s, '.');
    if i == |s| then None
    else
      var major := ParseInt(s[..i]);
      var minor := ParseInt(s[i + 1..]);
      if major.Some? && minor.Some? then Some((major.value, minor.value)) else None
  }

  /** Any two integers rendered as "%1.%2" read back as that pair. */
  lemma ParseVersionParts(major: int, minor: int)
    ensures ParseVersionString(IntToString(major) + "." + IntToString(minor)) == Some((major, minor))
  {
    var a := IntToString(major);
    var b := IntToString(minor);
    var s := a + "." + b;
    assert s[|a|] == '.';
    forall i | 0 <= i < |s| && s[i] == '.' ensures i == |a| {
    }
    assert s[..|a|] == a;
    assert s[|a| + 1..] == b;
    ParseIntToString(major);
    ParseIntToString(minor);
  }

  /** The rendered version string determines both components. */
  lemma VersionStringRoundTrip(version: int)
    ensures ParseVersionString(VersionString(version)) == Some((VersionMajor(version), VersionMinor(version)))
  {
    ParseVersionParts(VersionMajor(version), VersionMinor(version));
  }

  lemma VersionExamples()
    ensures VersionString(0x0001_0002) == "1.2"
    ensures VersionString(0) == "0.0"
  {
    VersionUnpacksPacked(1, 2);
    VersionUnpacksPacked(0, 0);
    assert IntToString(1) == "1" && IntToString(2) == "2" && IntToString(0) == "0";
  }
}
