/**
 * The wallet adapter: a JSON-RPC client of the local wallet-rpc sidecar. Each wrapper builds
 * its parameter object key by key (optional keys only when their argument is non-empty),
 * posts the envelope under its fixed method name and returns the reply's `result` object.
 * The HTTP round trip is the `reply` parameter of each call.
 */
module WalletRpc {
  import opened JsonRpc

  // ---------------------------------------------------------------------------
  // Shapes of a parameter object

  predicate HasString(p: map<string, Json>, key: string, v: string) {
    key in p && p[key] == JStr(v)
  }

  predicate HasBool(p: map<string, Json>, key: string, v: bool) {
    key in p && p[key] == JBool(v)
  }

  /** The key carries the unsigned argument as sent through `static_cast<int>`. */
  predicate HasUnsigned(p: map<string, Json>, key: string, v: UInt32) {
    key in p && p[key] == JInt(CastToInt(v))
  }

  /** Present exactly when the argument is non-empty, and then with that value. */
  predicate OptionalString(p: map<string, Json>, key: string, v: string) {
    (key in p <==> v != "") && (key in p ==> p[key] == JStr(v))
  }

  /** A JSON array holding the indices, in order, each through `static_cast<int>`. */
  predicate EncodesIndices(j: Json, indices: seq<UInt32>) {
    j.JArr? && |j.items| == |indices|
    && forall k :: 0 <= k < |indices| ==> j.items[k] == JInt(CastToInt(indices[k]))
  }

  /** Present exactly when the index list is non-empty, and then holding the whole list. */
  predicate OptionalIndices(p: map<string, Json>, key: string, indices: seq<UInt32>) {
    (key in p <==> indices != []) && (key in p ==> EncodesIndices(p[key], indices))
  }

  /** What the wallet would read back from an index array: each entry cast back to unsigned. */
  function DecodeIndices(items: seq<Json>): seq<UInt32>
    requires forall k :: 0 <= k < |items| ==> items[k].JInt? && InInt32(items[k].n)
  {
    seq(|items|, k requires 0 <= k < |items| => CastToUnsigned(items[k].n))
  }

  /** An index array loses neither order nor length nor value. */
  lemma IndicesRoundTrip(j: Json, indices: seq<UInt32>)
    requires EncodesIndices(j, indices)
    ensures forall k :: 0 <= k < |j.items| ==> j.items[k].JInt? && InInt32(j.items[k].n)
    ensures DecodeIndices(j.items) == indices
  {
    forall k | 0 <= k < |indices| ensures CastToUnsigned(CastToInt(indices[k])) == indices[k] {
      CastRoundTrip(indices[k]);
    }
  }

  /** Appends the indices one by one to a fresh JSON array. */
  method IndexArray(indices: seq<UInt32>) returns (arr: Json)
    ensures EncodesIndices(arr, indices)
  {
    var items: seq<Json> := [];
    for i := 0 to |indices|
      invariant |items| == i
      invariant forall k :: 0 <= k < i ==> items[k] == JInt(CastToInt(indices[k]))
    {
      items := items + [JInt(CastToInt(indices[i]))];
    }
    arr := JArr(items);
  }

  /** `QJsonArray::fromStringList`. */
  function StringArray(list: seq<string>): (j: Json)
    ensures j.JArr? && |j.items| == |list|
    ensures forall k :: 0 <= k < |list| ==> j.items[k] == JStr(list[k])
  {
    JArr(seq(|list|, k requires 0 <= k < |list| => JStr(list[k])))
  }

  /** The request was posted as JSON to `url` and its body is an envelope for the given method. */
  predicate Calls(sent: Post, url: string, methodName: string) {
    sent.url == url && sent.contentType == JsonContentType
    && ParseEnvelope(sent.body).Some? && ParseEnvelope(sent.body).value.0 == methodName
  }

  /** `response["result"].toObject()`, the empty object on a network error. */
  function WalletResult(reply: Reply): (r: map<string, Json>)
    ensures reply.NetworkError? ==> r == map[]
  {
    ToObject(Field(ReplyObject(reply), "result"))
  }

  /** A JSON-RPC error reply (no `result` member) reads as the empty object, like a network failure. */
  lemma ErrorReplyReadsEmpty(reply: Reply)
    requires reply.Received? && reply.document.JObj? && "result" !in reply.document.fields
    ensures WalletResult(reply) == map[]
  {
  }

  // ---------------------------------------------------------------------------
  // Version decoding as written

  /**
   * `version & 0xFF00 >> 16`: `>>` binds tighter than `&`, so the mask is `0xFF00 >> 16`,
   * which is 0, and the major component is `version & 0`.
   */
  function WalletVersionMajorAsWritten(version: int): int
  {
    var mask := ShiftRight(0xFF00, 16);
    assert mask == 0 by {
      assert Pow2(16) == 0x1_0000 by {
        assert Pow2(4) == 16;
        assert Pow2(8) == 256;
      }
    }
    LowBits(version, 0)
  }

  function WalletVersionAsWritten(version: int): string
  {
    IntToString(WalletVersionMajorAsWritten(version)) + "." + IntToString(VersionMinor(version))
  }

  /** The wallet's decoding always reports major 0 ... */
  lemma WalletVersionMajorIsZero(version: int)
    ensures WalletVersionMajorAsWritten(version) == 0
    ensures WalletVersionAsWritten(version) == "0." + IntToString(VersionMinor(version))
  {
  }

  /** ... so the packed version 1.2 reads as "0.2", where the daemon's decoding gives "1.2". */
  lemma WalletVersionMisreads()
    ensures WalletVersionAsWritten(0x0001_0002) == "0.2"
    ensures VersionString(0x0001_0002) == "1.2"
  {
    VersionUnpacksPacked(1, 2);
    VersionExamples();
    assert IntToString(2) == "2" && IntToString(0) == "0";
  }

  /** The first six keys of `setDaemon`: address, trust and TLS mode always, each TLS file when non-empty. */
  predicate ConnectionParams(p: map<string, Json>, address: string, trusted: bool, sslSupport: string,
                             sslPrivateKeyPath: string, sslCertificatePath: string, sslCaFile: string)
  {
    HasString(p, "address", address) && HasBool(p, "trusted", trusted)
    && HasString(p, "ssl_support", sslSupport)
    && OptionalString(p, "ssl_private_key_path", sslPrivateKeyPath)
    && OptionalString(p, "ssl_certificate_path", sslCertificatePath)
    && OptionalString(p, "ssl_ca_file", sslCaFile)
  }

  const ConnectionKeys: set<string> :=
    {"address", "trusted", "ssl_support", "ssl_private_key_path", "ssl_certificate_path", "ssl_ca_file"}

  /** The last four: the fingerprint list when non-empty, the "allow any certificate" flag always, each credential when non-empty. */
  predicate CredentialParams(p: map<string, Json>, sslAllowedFingerprints: seq<string>, sslAllowAnyCert: bool,
                             username: string, password: string)
  {
    ("ssl_allowed_fingerprints" in p <==> sslAllowedFingerprints != [])
    && ("ssl_allowed_fingerprints" in p ==> p["ssl_allowed_fingerprints"] == StringArray(sslAllowedFingerprints))
    && HasBool(p, "ssl_allow_any_cert", sslAllowAnyCert)
    && OptionalString(p, "username", username)
    && OptionalString(p, "password", password)
  }

  const CredentialKeys: set<string> := {"ssl_allowed_fingerprints", "ssl_allow_any_cert", "username", "password"}

  /** The `set_daemon` parameters: both groups, and no other key. */
  predicate DaemonParams(p: map<string, Json>, address: string, trusted: bool, sslSupport: string,
                         sslPrivateKeyPath: string, sslCertificatePath: string, sslCaFile: string,
                         sslAllowedFingerprints: seq<string>, sslAllowAnyCert: bool, username: string,
                         password: string)
  {
    ConnectionParams(p, address, trusted, sslSupport, sslPrivateKeyPath, sslCertificatePath, sslCaFile)
    && CredentialParams(p, sslAllowedFingerprints, sslAllowAnyCert, username, password)
    && p.Keys <= ConnectionKeys + CredentialKeys
  }

  /** The first six insertions of `setDaemon`, into an empty object. */
  method AddConnectionParams(address: string, trusted: bool, sslSupport: string, sslPrivateKeyPath: string,
                             sslCertificatePath: string, sslCaFile: string)
    returns (params: map<string, Json>)
    ensures ConnectionParams(params, address, trusted, sslSupport, sslPrivateKeyPath, sslCertificatePath, sslCaFile)
    ensures params.Keys <= ConnectionKeys
  {
    params := map[];
    params := params["address" := JStr(address)];
    params := params["trusted" := JBool(trusted)];
    params := params["ssl_support" := JStr(sslSupport)];
    if sslPrivateKeyPath != "" {
      params := params["ssl_private_key_path" := JStr(sslPrivateKeyPath)];
    }
    if sslCertificatePath != "" {
      params := params["ssl_certificate_path" := JStr(sslCertificatePath)];
    }
    if sslCaFile != "" {
      params := params["ssl_ca_file" := JStr(sslCaFile)];
    }
  }

  /** The last four insertions of `setDaemon`; keys outside the group are left as they were. */
  method AddCredentialParams(params0: map<string, Json>, sslAllowedFingerprints: seq<string>,
                             sslAllowAnyCert: bool, username: string, password: string)
    returns (params: map<string, Json>)
    requires params0.Keys !! CredentialKeys
    ensures CredentialParams(params, sslAllowedFingerprints, sslAllowAnyCert, username, password)
    ensures forall k :: k in params0 && k !in CredentialKeys ==> k in params && params[k] == params0[k]
    ensures params.Keys <= params0.Keys + CredentialKeys
  {
    params := params0;
    if sslAllowedFingerprints != [] {
      params := params["ssl_allowed_fingerprints" := StringArray(sslAllowedFingerprints)];
    }
    params := params["ssl_allow_any_cert" := JBool(sslAllowAnyCert)];
    if username != "" {
      params := params["username" := JStr(username)];
    }
    if password != "" {
      params := params["password" := JStr(password)];
    }
  }

  /** The parameter object of `setDaemon`, built key by key. */
  method BuildDaemonParams(address: string, trusted: bool, sslSupport: string, sslPrivateKeyPath: string,
                           sslCertificatePath: string, sslCaFile: string, sslAllowedFingerprints: seq<string>,
                           sslAllowAnyCert: bool, username: string, password: string)
    returns (params: map<string, Json>)
    ensures DaemonParams(params, address, trusted, sslSupport, sslPrivateKeyPath, sslCertificatePath,
                         sslCaFile, sslAllowedFingerprints, sslAllowAnyCert, username, password)
  {
    var connection := AddConnectionParams(address, trusted, sslSupport, sslPrivateKeyPath, sslCertificatePath,
                                          sslCaFile);
    assert ConnectionKeys !! CredentialKeys;
    params := AddCredentialParams(connection, sslAllowedFingerprints, sslAllowAnyCert, username, password);
  }

  // ---------------------------------------------------------------------------
  // The client

  class WalletJsonRpc {
    const host: string
    const port: int
    const tls: bool
    /** `m_url`: declared, never assigned by the constructor, so it stays the empty URL. */
    const url: string
    var username: string
    var password: string

    constructor (host: string := "localhost", port: int := 18082, tls: bool := false)
      ensures this.host == host && this.port == port && this.tls == tls
      ensures url == "" && username == "" && password == ""
    {
      this.host := host;
      this.port := port;
      this.tls := tls;
      url := "";
      username := "";
      password := "";
    }

    method SetAuthentication(username: string, password: string)
      modifies this
      ensures this.username == username && this.password == password
    {
      this.username := username;
      this.password := password;
    }

    method HandleAuthenticationRequired() returns (c: Credentials)
      ensures c.user == username && c.password == password
    {
      c := Credentials(username, password);
    }

    /** Posts the envelope and returns only the reply's `result` object. */
    method MakeRequest(methodName: string, params: map<string, Json>, reply: Reply)
      returns (sent: Post, result: map<string, Json>)
      ensures sent.url == url && sent.contentType == JsonContentType
      ensures ParseEnvelope(sent.body) == Some((methodName, params))
      ensures reply.NetworkError? ==> result == map[]
      ensures reply.Received? ==> result == ToObject(Field(ToObject(reply.document), "result"))
    {
      var request := map[];
      request := request["jsonrpc" := JStr("2.0")];
      request := request["id" := JStr("0")];
      request := request["method" := JStr(methodName)];
      request := request["params" := JObj(params)];
      assert request == Envelope(methodName, params).fields;
      EnvelopeRoundTrip(methodName, params);
      sent := Post(url, JsonContentType, JObj(request));
      if reply.NetworkError? {
        result := map[];
      } else {
        var response := ToObject(reply.document);
        result := ToObject(Field(response, "result"));
      }
    }

    method SetDaemon(address: string, trusted: bool := false, sslSupport: string := "autodetect",
                     sslPrivateKeyPath: string := "", sslCertificatePath: string := "", sslCaFile: string := "",
                     sslAllowedFingerprints: seq<string> := [], sslAllowAnyCert: bool := false,
                     username: string := "", password: string := "", reply: Reply)
      returns (sent: Post, result: map<string, Json>)
      ensures Calls(sent, url, "set_daemon") && result == WalletResult(reply)
      ensures DaemonParams(ParamsOf(sent.body), address, trusted, sslSupport, sslPrivateKeyPath, sslCertificatePath,
                           sslCaFile, sslAllowedFingerprints, sslAllowAnyCert, username, password)
    {
      var params := BuildDaemonParams(address, trusted, sslSupport, sslPrivateKeyPath, sslCertificatePath,
                                      sslCaFile, sslAllowedFingerprints, sslAllowAnyCert, username, password);
      sent, result := MakeRequest("set_daemon", params, reply);
    }

    method GetBalance(accountIndex: UInt32, addressIndices: seq<UInt32> := [], allAccounts: bool := false,
                      strict: bool := false, reply: Reply)
      returns (sent: Post, result: map<string, Json>)
      ensures Calls(sent, url, "get_balance") && result == WalletResult(reply)
      ensures var p := ParamsOf(sent.body);
              HasUnsigned(p, "account_index", accountIndex)
              && OptionalIndices(p, "address_indices", addressIndices)
              && HasBool(p, "all_accounts", allAccounts) && HasBool(p, "strict", strict)
              && p.Keys <= {"account_index", "address_indices", "all_accounts", "strict"}
    {
      var params := map[];
      params := params["account_index" := JInt(CastToInt(accountIndex))];
      if addressIndices != [] {
        var indices := IndexArray(addressIndices);
        params := params["address_indices" := indices];
      }
      params := params["all_accounts" := JBool(allAccounts)];
      params := params["strict" := JBool(strict)];
      sent, result := MakeRequest("get_balance", params, reply);
    }

    /** The index list goes under the singular key `address_index`. */
    method GetAddress(accountIndex: UInt32, addressIndices: seq<UInt32> := [], reply: Reply)
      returns (sent: Post, result: map<string, Json>)
      ensures Calls(sent, url, "get_address") && result == WalletResult(reply)
      ensures var p := ParamsOf(sent.body);
              HasUnsigned(p, "account_index", accountIndex)
              && OptionalIndices(p, "address_index", addressIndices)
              && p.Keys <= {"account_index", "address_index"}
    {
      var params := map[];
      params := params["account_index" := JInt(CastToInt(accountIndex))];
      if addressIndices != [] {
        var indices := IndexArray(addressIndices);
        params := params["address_index" := indices];
      }
      sent, result := MakeRequest("get_address", params, reply);
    }

    method ValidateAddress(address: string, anyNetType: bool := false, allowOpenalias: bool := false, reply: Reply)
      returns (sent: Post, result: map<string, Json>)
      ensures Calls(sent, url, "validate_address") && result == WalletResult(reply)
      ensures var p := ParamsOf(sent.body);
              HasString(p, "address", address) && HasBool(p, "any_net_type", anyNetType)
              && HasBool(p, "allow_openalias", allowOpenalias)
              && p.Keys == {"address", "any_net_type", "allow_openalias"}
    {
      var params := map[];
      params := params["address" := JStr(address)];
      params := params["any_net_type" := JBool(anyNetType)];
      params := params["allow_openalias" := JBool(allowOpenalias)];
      sent, result := MakeRequest("validate_address", params, reply);
    }

    method GetHeight(reply: Reply) returns (sent: Post, result: map<string, Json>)
      ensures sent.url == url && sent.contentType == JsonContentType
      ensures ParseEnvelope(sent.body) == Some(("get_height", map[])) && result == WalletResult(reply)
    {
      sent, result := MakeRequest("get_height", map[], reply);
    }

    method Transfer(destinations: seq<Json>, accountIndex: UInt32 := 0, subaddrIndices: seq<UInt32> := [],
                    priority: UInt32 := 0, ringSize: UInt32 := 7, unlockTime: UInt32 := 0, getTxKey: bool := false,
                    doNotRelay: bool := false, getTxHex: bool := false, getTxMetadata: bool := false, reply: Reply)
      returns (sent: Post, result: map<string, Json>)
      ensures Calls(sent, url, "transfer") && result == WalletResult(reply)
      ensures var p := ParamsOf(sent.body);
              "destinations" in p && p["destinations"] == JArr(destinations)
              && HasUnsigned(p, "account_index", accountIndex)
              && OptionalIndices(p, "subaddr_indices", subaddrIndices)
              && HasUnsigned(p, "priority", priority) && HasUnsigned(p, "ring_size", ringSize)
              && HasUnsigned(p, "unlock_time", unlockTime)
              && HasBool(p, "get_tx_key", getTxKey) && HasBool(p, "do_not_relay", doNotRelay)
              && HasBool(p, "get_tx_hex", getTxHex) && HasBool(p, "get_tx_metadata", getTxMetadata)
              && p.Keys <= {"destinations", "account_index", "subaddr_indices", "priority", "ring_size",
                            "unlock_time", "get_tx_key", "do_not_relay", "get_tx_hex", "get_tx_metadata"}
    {
      var params := map[];
      params := params["destinations" := JArr(destinations)];
      params := params["account_index" := JInt(CastToInt(accountIndex))];
      if subaddrIndices != [] {
        var indices := IndexArray(subaddrIndices);
        params := params["subaddr_indices" := indices];
      }
      params := params["priority" := JInt(CastToInt(priority))];
      params := params["ring_size" := JInt(CastToInt(ringSize))];
      params := params["unlock_time" := JInt(CastToInt(unlockTime))];
      params := params["get_tx_key" := JBool(getTxKey)];
      params := params["do_not_relay" := JBool(doNotRelay)];
      params := params["get_tx_hex" := JBool(getTxHex)];
      params := params["get_tx_metadata" := JBool(getTxMetadata)];
      sent, result := MakeRequest("transfer", params, reply);
    }

    method SubmitTransfer(txDataHex: string, reply: Reply) returns (sent: Post, result: map<string, Json>)
      ensures sent.url == url && sent.contentType == JsonContentType
      ensures ParseEnvelope(sent.body) == Some(("submit_transfer", map["tx_data_hex" := JStr(txDataHex)]))
      ensures result == WalletResult(reply)
    {
      var params := map[];
      params := params["tx_data_hex" := JStr(txDataHex)];
      sent, result := MakeRequest("submit_transfer", params, reply);
    }

    method StopWallet(reply: Reply) returns (sent: Post, result: map<string, Json>)
      ensures sent.url == url && sent.contentType == JsonContentType
      ensures ParseEnvelope(sent.body) == Some(("stop_wallet", map[])) && result == WalletResult(reply)
    {
      sent, result := MakeRequest("stop_wallet", map[], reply);
    }

    method ExportOutputs(all: bool := true, reply: Reply) returns (sent: Post, result: map<string, Json>)
      ensures sent.url == url && sent.contentType == JsonContentType
      ensures ParseEnvelope(sent.body) == Some(("export_outputs", map["all" := JBool(all)]))
      ensures result == WalletResult(reply)
    {
      var params := map[];
      params := params["all" := JBool(all)];
      sent, result := MakeRequest("export_outputs", params, reply);
    }

    method ImportKeyImages(offset: UInt32, signedKeyImages: seq<Json>, reply: Reply)
      returns (sent: Post, result: map<string, Json>)
      ensures Calls(sent, url, "import_key_images") && result == WalletResult(reply)
      ensures var p := ParamsOf(sent.body);
              HasUnsigned(p, "offset", offset)
              && "signed_key_images" in p && p["signed_key_images"] == JArr(signedKeyImages)
              && p.Keys == {"offset", "signed_key_images"}
    {
      var params := map[];
      params := params["offset" := JInt(CastToInt(offset))];
      params := params["signed_key_images" := JArr(signedKeyImages)];
      sent, result := MakeRequest("import_key_images", params, reply);
    }

    method Refresh(startHeight: UInt32 := 0, reply: Reply) returns (sent: Post, result: map<string, Json>)
      ensures Calls(sent, url, "refresh") && result == WalletResult(reply)
      ensures var p := ParamsOf(sent.body);
              HasUnsigned(p, "start_height", startHeight) && p.Keys == {"start_height"}
    {
      var params := map[];
      params := params["start_height" := JInt(CastToInt(startHeight))];
      sent, result := MakeRequest("refresh", params, reply);
    }

    method RescanSpent(reply: Reply) returns (sent: Post, result: map<string, Json>)
      ensures sent.url == url && sent.contentType == JsonContentType
      ensures ParseEnvelope(sent.body) == Some(("rescan_spent", map[])) && result == WalletResult(reply)
    {
      sent, result := MakeRequest("rescan_spent", map[], reply);
    }

    /** Creates the wallet from keys through the `generate_from_keys` method. */
    method GenerateViewOnlyWallet(restoreHeight: UInt32, filename: string, address: string, spendkey: string,
                                  viewkey: string, password: string, autosaveCurrent: bool, reply: Reply)
      returns (sent: Post, result: map<string, Json>)
      ensures Calls(sent, url, "generate_from_keys") && result == WalletResult(reply)
      ensures var p := ParamsOf(sent.body);
              HasUnsigned(p, "restore_height", restoreHeight)
              && HasString(p, "filename", filename) && HasString(p, "address", address)
              && HasString(p, "spendkey", spendkey) && HasString(p, "viewkey", viewkey)
              && HasString(p, "password", password) && HasBool(p, "autosave_current", autosaveCurrent)
              && p.Keys == {"restore_height", "filename", "address", "spendkey", "viewkey", "password",
                            "autosave_current"}
    {
      var params := map[];
      params := params["restore_height" := JInt(CastToInt(restoreHeight))];
      params := params["filename" := JStr(filename)];
      params := params["address" := JStr(address)];
      params := params["spendkey" := JStr(spendkey)];
      params := params["viewkey" := JStr(viewkey)];
      params := params["password" := JStr(password)];
      params := params["autosave_current" := JBool(autosaveCurrent)];
      sent, result := MakeRequest("generate_from_keys", params, reply);
    }

    method CloseWallet(reply: Reply) returns (sent: Post, result: map<string, Json>)
      ensures sent.url == url && sent.contentType == JsonContentType
      ensures ParseEnvelope(sent.body) == Some(("close_wallet", map[])) && result == WalletResult(reply)
    {
      sent, result := MakeRequest("close_wallet", map[], reply);
    }

    /**
     * Reads `version` from the result object and renders it as "major.minor" with the major
     * component decoded as written: the string always reads back as major 0.
     */
    method GetVersion(reply: Reply) returns (sent: Post, version: string)
      ensures sent.url == url && sent.contentType == JsonContentType
      ensures ParseEnvelope(sent.body) == Some(("get_version", map[]))
      ensures var v := ToInt(Field(WalletResult(reply), "version"));
              ParseVersionString(version) == Some((0, VersionMinor(v)))
      ensures version == WalletVersionAsWritten(ToInt(Field(WalletResult(reply), "version")))
    {
      var data;
      sent, data := MakeRequest("get_version", map[], reply);
      var v := ToInt(Field(data, "version"));
      version := WalletVersionAsWritten(v);
      WalletVersionMajorIsZero(v);
      ParseVersionParts(0, VersionMinor(v));
    }

    method EstimateTxSizeAndWeight(nInputs: UInt32, nOutputs: UInt32, ringSize: UInt32, rct: bool, reply: Reply)
      returns (sent: Post, result: map<string, Json>)
      ensures Calls(sent, url, "estimate_tx_size_and_weight") && result == WalletResult(reply)
      ensures var p := ParamsOf(sent.body);
              HasUnsigned(p, "n_inputs", nInputs) && HasUnsigned(p, "n_outputs", nOutputs)
              && HasUnsigned(p, "ring_size", ringSize) && HasBool(p, "rct", rct)
              && p.Keys == {"n_inputs", "n_outputs", "ring_size", "rct"}
    {
      var params := map[];
      params := params["n_inputs" := JInt(CastToInt(nInputs))];
      params := params["n_outputs" := JInt(CastToInt(nOutputs))];
      params := params["ring_size" := JInt(CastToInt(ringSize))];
      params := params["rct" := JBool(rct)];
      sent, result := MakeRequest("estimate_tx_size_and_weight", params, reply);
    }
  }
}
