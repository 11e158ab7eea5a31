/**
 * The broadcast endpoint (`POST /api/sendrawtransaction`): it extracts the
 * raw transaction from the request, strips whitespace, checks that what is
 * left is hexadecimal, forwards it to the node and maps failures to HTTP
 * statuses.  The node call is the `BitcoinRpc` outcome for the forwarded
 * string.
 */
module SendRawTx {
  import opened Wrappers
  import opened JsString
  import opened WalletTypes
  import BitcoinRpc

  datatype ApiResponse = ApiOk(code: int, txid: JsValue) | ApiErr(status: int, message: string)

  /** The response together with the string sent to the node, if any was. */
  datatype PostResult = PostResult(response: ApiResponse, forwarded: Option<string>)

  const MissingRawtxMessage := "缺少 rawtx 参数"
  const NotHexMessage := "rawtx 必须为十六进制字符串"
  /** The runtime's message when `.replace` is called on a value that is not a string. */
  const NotAStringMessage := "rawtx.replace is not a function"

  /** JavaScript `??`: the first key whose value is neither absent nor `null`. */
  function FirstPresent(body: map<string, JsValue>, keys: seq<string>): (v: Option<JsValue>)
    ensures v.Some? ==> v.value != JNull && exists i :: 0 <= i < |keys| && keys[i] in body && body[keys[i]] == v.value
    ensures v.None? <==> forall i :: 0 <= i < |keys| ==> keys[i] !in body || body[keys[i]] == JNull
  {
    if keys == [] then None
    else if keys[0] in body && body[keys[0]] != JNull then Some(body[keys[0]])
    else
      var v := FirstPresent(body, keys[1..]);
      assert forall i :: 0 <= i < |keys| - 1 ==> keys[1..][i] == keys[i + 1];
      v
  }

  /**
   * The `rawtx` value: from a JSON body (`None` when it did not parse as an
   * object) the first present of `rawtx`, `hex`, `txHex`; otherwise the
   * trimmed text of the body.
   */
  function ExtractRawtx(contentType: string, json: Option<map<string, JsValue>>, text: string): (r: Option<JsValue>)
    ensures !Contains(contentType, "application/json") ==> r.Some? && r.value.JStr? && r.value.s == Trim(text)
    ensures Contains(contentType, "application/json") ==>
      (r.None? <==> json.None? || forall k :: k in ["rawtx", "hex", "txHex"] ==> k !in json.value || json.value[k] == JNull)
    ensures (&& Contains(contentType, "application/json") && json.Some? && "rawtx" in json.value
             && json.value["rawtx"] != JNull) ==> r == Some(json.value["rawtx"])
    ensures Contains(contentType, "application/json") && r.Some? ==>
      r.value != JNull && exists k :: k in ["rawtx", "hex", "txHex"] && k in json.value && json.value[k] == r.value
  {
    if Contains(contentType, "application/json") then
      if json.None? then None else FirstPresent(json.value, ["rawtx", "hex", "txHex"])
    else Some(JStr(Trim(text)))
  }

  predicate IsHexDigit(c: char) {
    '0' <= c <= '9' || 'a' <= c <= 'f' || 'A' <= c <= 'F'
  }

  /** `/^[0-9a-fA-F]+$/`: non-empty and only hexadecimal digits. */
  predicate IsHex(s: string) {
    s != [] && forall i :: 0 <= i < |s| ==> IsHexDigit(s[i])
  }

  /** The response for the node's answer; an error without a status code maps to 500. */
  function RpcResponse(outcome: BitcoinRpc.RpcOutcome): (r: ApiResponse)
    ensures outcome.RpcOk? <==> r.ApiOk?
    ensures r.ApiErr? ==> r.status == match outcome
      case RpcFailed(_, _, statusCode) => statusCode.GetOr(500)
      case AllFailed(_, status) => status
      case _ => 500
  {
    match outcome
    case RpcOk(result) => ApiOk(200, result)
    case RpcFailed(_, message, statusCode) => ApiErr(statusCode.GetOr(500), message)
    case AllFailed(message, status) => ApiErr(status, message)
    case ConfigFailed(error) => ApiErr(500, BitcoinRpc.ConfigErrorMessage(error))
  }

  /** The `POST` handler; `node(tx)` is what the node call yields for the forwarded string `tx`. */
  function Post(contentType: string, json: Option<map<string, JsValue>>, text: string,
                node: string -> BitcoinRpc.RpcOutcome): (r: PostResult)
    ensures var raw := ExtractRawtx(contentType, json, text);
      && (raw.None? || !Truthy(raw.value) ==> r == PostResult(ApiErr(400, MissingRawtxMessage), None))
      && (raw.Some? && Truthy(raw.value) && !raw.value.JStr? ==> r == PostResult(ApiErr(500, NotAStringMessage), None))
      && (raw.Some? && raw.value.JStr? && raw.value.s != [] && !IsHex(RemoveWhitespace(raw.value.s)) ==>
            r == PostResult(ApiErr(400, NotHexMessage), None))
      && (r.forwarded.Some? <==>
            raw.Some? && raw.value.JStr? && raw.value.s != [] && IsHex(RemoveWhitespace(raw.value.s)))
      && (r.forwarded.Some? ==> (r.forwarded.value == RemoveWhitespace(raw.value.s)
            && r.response == RpcResponse(node(r.forwarded.value))))
  {
    var raw := ExtractRawtx(contentType, json, text);
    if raw.None? || !Truthy(raw.value) then PostResult(ApiErr(400, MissingRawtxMessage), None)
    else if !raw.value.JStr? then PostResult(ApiErr(500, NotAStringMessage), None)
    else
      var cleaned := RemoveWhitespace(raw.value.s);
      if !IsHex(cleaned) then PostResult(ApiErr(400, NotHexMessage), None)
      else PostResult(RpcResponse(node(cleaned)), Some(cleaned))
  }

  /** Whatever is forwarded is non-empty, hexadecimal and free of whitespace. */
  lemma ForwardedIsCleanHex(contentType: string, json: Option<map<string, JsValue>>, text: string,
                            node: string -> BitcoinRpc.RpcOutcome)
    ensures var f := Post(contentType, json, text, node).forwarded;
      f.Some? ==> IsHex(f.value) && forall i :: 0 <= i < |f.value| ==> !IsWhitespace(f.value[i])
  {
  }

  /** An empty `rawtx` field wins over a valid `hex` field and is rejected. */
  lemma EmptyRawtxShadowsHex(hex: string, text: string, node: string -> BitcoinRpc.RpcOutcome)
    ensures Post("application/json", Some(map["rawtx" := JStr(""), "hex" := JStr(hex)]), text, node).response
            == ApiErr(400, MissingRawtxMessage)
  {
    var body := map["rawtx" := JStr(""), "hex" := JStr(hex)];
    assert FirstPresent(body, ["rawtx", "hex", "txHex"]) == Some(JStr(""));
    assert Contains("application/json", "application/json") by {
      assert OccursAt("application/json", "application/json", 0);
    }
  }

  /** A `null` field is skipped in favour of the next one. */
  lemma NullRawtxFallsBackToHex(hex: string, text: string, node: string -> BitcoinRpc.RpcOutcome)
    requires IsHex(hex)
    ensures Post("application/json", Some(map["rawtx" := JNull, "hex" := JStr(hex)]), text, node).forwarded
            == Some(hex)
  {
    var body := map["rawtx" := JNull, "hex" := JStr(hex)];
    assert FirstPresent(body, ["rawtx", "hex", "txHex"]) == Some(JStr(hex));
    assert Contains("application/json", "application/json") by {
      assert OccursAt("application/json", "application/json", 0);
    }
    RemoveWhitespaceKeeps(hex);
  }

  lemma {:induction false} RemoveWhitespaceKeeps(s: string)
    requires forall i :: 0 <= i < |s| ==> !IsWhitespace(s[i])
    ensures RemoveWhitespace(s) == s
  {
    if s != [] {
      RemoveWhitespaceKeeps(s[1..]);
    }
  }
}
