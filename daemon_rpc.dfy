/**
 * The daemon adapter: a JSON-RPC client of a remote full node. Every call posts one envelope
 * and decodes the parsed reply with Qt's defaulting accessors, so a missing `result` or field
 * reads as 0. The HTTP round trip is the `reply` parameter of each call.
 */
module DaemonRpc {
  import opened JsonRpc

  /** An integer field of the reply's `result` object, 0 when either is missing. */
  function ResultInt(response: map<string, Json>, key: string): (r: int)
    ensures InInt32(r)
    ensures !Field(response, "result").JObj? ==> r == 0
  {
    ToInt(Field(ToObject(Field(response, "result")), key))
  }

  /**
   * `local * 100 / remote` in C++ `int` arithmetic: truncating division. Division by zero and a
   * product outside `int` are undefined behaviour in C++; they are the `None` cases here.
   */
  function SyncPercentage(local: int, remote: int): (r: Option<int>)
    ensures r.Some? <==> remote != 0 && InInt32(local * 100)
  {
    if remote == 0 || !InInt32(local * 100) then None else Some(TruncDiv(local * 100, remote))
  }

  /** Multiplying by a non-negative factor keeps the order. */
  lemma MulMonotone(x: int, y: int, c: int)
    requires x <= y && c >= 0
    ensures x * c <= y * c
  {
    assert y * c - x * c == (y - x) * c;
  }

  /** A local height between 0 and a positive remote height gives a percentage in 0..100, 100 only when equal. */
  lemma SyncPercentageBounds(local: int, remote: int)
    requires 0 <= local <= remote && remote > 0 && InInt32(local * 100)
    ensures SyncPercentage(local, remote).Some?
    ensures 0 <= SyncPercentage(local, remote).value <= 100
    ensures SyncPercentage(local, remote).value == 100 <==> local == remote
  {
    var a := local * 100;
    var p := a / remote;
    assert SyncPercentage(local, remote).value == p;
    assert p * remote <= a < p * remote + remote by {
      assert a == p * remote + a % remote;
    }
    MulMonotone(local, remote, 100);
    if p > 100 {
      MulMonotone(101, p, remote);
    }
    if local == remote {
      if p < 100 {
        MulMonotone(p + 1, 100, remote);
      }
    } else {
      MulMonotone(local, remote - 1, 100);
      if p >= 100 {
        MulMonotone(100, p, remote);
      }
    }
  }

  /** A reply without a `result` object (an error reply, or a network error) decodes to zeros. */
  lemma MissingResultDecodesToZero(response: map<string, Json>)
    requires !Field(response, "result").JObj?
    ensures ResultInt(response, "height") == 0
    ensures ResultInt(response, "height_without_bootstrap") == 0
    ensures VersionString(ResultInt(response, "version")) == "0.0"
  {
    VersionExamples();
  }

  lemma SyncedExample()
    ensures var response := map["result" := JObj(map["height" := JInt(1000), "height_without_bootstrap" := JInt(950)])];
            SyncPercentage(ResultInt(response, "height_without_bootstrap"), ResultInt(response, "height")) == Some(95)
  {
    var response := map["result" := JObj(map["height" := JInt(1000), "height_without_bootstrap" := JInt(950)])];
    assert ResultInt(response, "height") == 1000;
    assert ResultInt(response, "height_without_bootstrap") == 950;
    TruncDivExamples();
  }

  class DaemonJsonRpc {
    const host: string
    const port: int
    const tls: bool
    var username: string
    var password: string

    constructor (host: string := "localhost", port: int := 18081, tls: bool := false)
      ensures this.host == host && this.port == port && this.tls == tls
      ensures username == "" && password == ""
    {
      this.host := host;
      this.port := port;
      this.tls := tls;
      username := "";
      password := "";
    }

    method SetAuthentication(username: string, password: string)
      modifies this
      ensures this.username == username && this.password == password
    {
      this.username := username;
      this.password := password;
    }

    /** The authentication-required handler hands the stored credentials to the authenticator. */
    method HandleAuthenticationRequired() returns (c: Credentials)
      ensures c.user == username && c.password == password
    {
      c := Credentials(username, password);
    }

    function Url(): string
    {
      RpcUrl(tls, host, port)
    }

    /**
     * Posts the envelope to `http(s)://host:port/json_rpc` and returns the WHOLE parsed reply
     * (not only `result`), or the empty object on a network error.
     */
    method MakeRequest(methodName: string, params: map<string, Json>, reply: Reply)
      returns (sent: Post, response: map<string, Json>)
      ensures sent.url == Url() && sent.contentType == JsonContentType
      ensures ParseEnvelope(sent.body) == Some((methodName, params))
      ensures reply.NetworkError? ==> response == map[]
      ensures reply.Received? ==> response == ToObject(reply.document)
    {
      var request := map[];
      request := request["jsonrpc" := JStr("2.0")];
      request := request["id" := JStr("0")];
      request := request["method" := JStr(methodName)];
      request := request["params" := JObj(params)];
      assert request == Envelope(methodName, params).fields;
      EnvelopeRoundTrip(methodName, params);
      sent := Post(Url(), JsonContentType, JObj(request));
      if reply.NetworkError? {
        response := map[];
      } else {
        response := ToObject(reply.document);
      }
    }

    method GetInfo(reply: Reply) returns (sent: Post, response: map<string, Json>)
      ensures sent.url == Url() && sent.contentType == JsonContentType
      ensures ParseEnvelope(sent.body) == Some(("get_info", map[]))
      ensures response == ReplyObject(reply)
    {
      sent, response := MakeRequest("get_info", map[], reply);
    }

    method GetVersion(reply: Reply) returns (sent: Post, version: string)
      ensures sent.url == Url() && sent.contentType == JsonContentType
      ensures ParseEnvelope(sent.body) == Some(("get_version", map[]))
      ensures ParseVersionString(version) ==
              Some((VersionMajor(ResultInt(ReplyObject(reply), "version")),
                    VersionMinor(ResultInt(ReplyObject(reply), "version"))))
      ensures version == VersionString(ResultInt(ReplyObject(reply), "version"))
    {
      var data;
      sent, data := MakeRequest("get_version", map[], reply);
      var v := ToInt(Field(ToObject(Field(data, "result")), "version"));
      version := VersionString(v);
      VersionStringRoundTrip(v);
    }

    method GetHeight(reply: Reply) returns (sent: Post, height: int)
      ensures sent.url == Url() && sent.contentType == JsonContentType
      ensures ParseEnvelope(sent.body) == Some(("get_info", map[]))
      ensures height == ResultInt(ReplyObject(reply), "height")
      ensures reply.NetworkError? ==> height == 0
    {
      var data;
      sent, data := GetInfo(reply);
      height := ToInt(Field(ToObject(Field(data, "result")), "height"));
    }

    method GetLocalHeight(reply: Reply) returns (sent: Post, height: int)
      ensures sent.url == Url() && sent.contentType == JsonContentType
      ensures ParseEnvelope(sent.body) == Some(("get_info", map[]))
      ensures height == ResultInt(ReplyObject(reply), "height_without_bootstrap")
      ensures reply.NetworkError? ==> height == 0
    {
      var data;
      sent, data := GetInfo(reply);
      height := ToInt(Field(ToObject(Field(data, "result")), "height_without_bootstrap"));
    }

    /** Both heights come from the same `get_info` reply. */
    method GetSynced(reply: Reply) returns (sent: Post, percent: Option<int>)
      ensures sent.url == Url() && sent.contentType == JsonContentType
      ensures ParseEnvelope(sent.body) == Some(("get_info", map[]))
      ensures percent == SyncPercentage(ResultInt(ReplyObject(reply), "height_without_bootstrap"),
                                        ResultInt(ReplyObject(reply), "height"))
      ensures reply.NetworkError? ==> percent == None
    {
      var data;
      sent, data := GetInfo(reply);
      var resultObject := ToObject(Field(data, "result"));
      var local := ToInt(Field(resultObject, "height_without_bootstrap"));
      var remote := ToInt(Field(resultObject, "height"));
      percent := SyncPercentage(local, remote);
    }
  }
}
