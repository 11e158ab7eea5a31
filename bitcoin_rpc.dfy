/**
 * Server-side JSON-RPC access to the node: the endpoint list read from the
 * environment (`getEnv`) and the failover loop over the endpoints
 * (`callBitcoinRpc`).  The HTTP exchange with each endpoint is an oracle that
 * yields one `FetchOutcome` per contacted endpoint.
 */
module BitcoinRpc {
  import opened Wrappers
  import opened JsString
  import WalletTypes

  datatype Endpoint = Endpoint(url: string, user: string, password: string)

  datatype RpcConfig = RpcConfig(endpoints: seq<Endpoint>, timeoutMs: int)

  datatype ConfigError = MissingEndpoints | MalformedEntry(entry: string) | NoEndpoints

  const DefaultTimeoutMs: int := 8000

  /** The text of the error thrown for each configuration problem. */
  function ConfigErrorMessage(e: ConfigError): string {
    match e
    case MissingEndpoints => "缺少 BITCOIN_RPC_ENDPOINTS（格式：url|user|password，逗号分隔）"
    case MalformedEntry(entry) => "BITCOIN_RPC_ENDPOINTS 项格式错误：" + entry + "（需为 url|user|password）"
    case NoEndpoints => "BITCOIN_RPC_ENDPOINTS 解析后为空，请检查配置"
  }

  /** Each string trimmed (`map(e => e.trim())`). */
  function TrimAll(xs: seq<string>): (ys: seq<string>)
    ensures |ys| == |xs| && forall i :: 0 <= i < |xs| ==> ys[i] == Trim(xs[i])
  {
    if xs == [] then [] else [Trim(xs[0])] + TrimAll(xs[1..])
  }

  /** The candidate entries of the endpoint string: split on ',', trimmed, blanks dropped. */
  function Entries(s: string): seq<string> {
    NonEmpty(TrimAll(Split(s, ',')))
  }

  predicate NoOuterWhitespace(s: string) {
    s == [] || (!IsWhitespace(s[0]) && !IsWhitespace(s[|s| - 1]))
  }

  /** Every field of the endpoint has been trimmed. */
  predicate TrimmedEndpoint(ep: Endpoint) {
    NoOuterWhitespace(ep.url) && NoOuterWhitespace(ep.user) && NoOuterWhitespace(ep.password)
  }

  /** One `url|user|password` entry: exactly three pieces, none empty before trimming. */
  function ParseEntry(e: string): (r: Result<Endpoint, ConfigError>)
    ensures var parts := Split(e, '|');
      r.Success? <==> |parts| == 3 && parts[0] != [] && parts[1] != [] && parts[2] != []
    ensures r.Failure? ==> r.error == MalformedEntry(e)
    ensures r.Success? ==> var parts := Split(e, '|');
      r.value == Endpoint(Trim(parts[0]), Trim(parts[1]), Trim(parts[2]))
    ensures r.Success? ==> TrimmedEndpoint(r.value)
  {
    var parts := Split(e, '|');
    if |parts| != 3 || parts[0] == [] || parts[1] == [] || parts[2] == [] then Failure(MalformedEntry(e))
    else Success(Endpoint(Trim(parts[0]), Trim(parts[1]), Trim(parts[2])))
  }

  /** The position of the first element `parse` rejects, or the length when it accepts all. */
  function FirstFailing(xs: seq<string>, parse: string -> Result<Endpoint, ConfigError>): (k: nat)
    ensures k <= |xs|
    ensures forall i :: 0 <= i < k ==> parse(xs[i]).Success?
    ensures k < |xs| ==> parse(xs[k]).Failure?
  {
    if xs == [] || parse(xs[0]).Failure? then 0
    else
      var k := FirstFailing(xs[1..], parse);
      assert forall i :: 0 < i <= k ==> xs[1..][i - 1] == xs[i];
      1 + k
  }

  /** Every element parsed in order, stopping at the first rejection. */
  function ParseAll(xs: seq<string>, parse: string -> Result<Endpoint, ConfigError>): (r: Result<seq<Endpoint>, ConfigError>)
    ensures r.Success? <==> FirstFailing(xs, parse) == |xs|
    ensures r.Success? ==> |r.value| == |xs| && forall i :: 0 <= i < |xs| ==> r.value[i] == parse(xs[i]).value
    ensures r.Failure? ==> r.error == parse(xs[FirstFailing(xs, parse)]).error
  {
    if xs == [] then Success([])
    else match parse(xs[0])
      case Failure(err) => Failure(err)
      case Success(x) =>
        var tail := xs[1..];
        var rest := ParseAll(tail, parse);
        assert FirstFailing(xs, parse) == 1 + FirstFailing(tail, parse);
        assert forall i :: 0 < i < |xs| ==> tail[i - 1] == xs[i];
        if rest.Failure? then rest
        else Success([x] + rest.value)
  }

  /** The position of the first entry that does not parse, or the number of entries when all parse. */
  function FirstMalformed(entries: seq<string>): (k: nat)
    ensures k <= |entries|
    ensures forall i :: 0 <= i < k ==> ParseEntry(entries[i]).Success?
    ensures k < |entries| ==> ParseEntry(entries[k]).Failure?
  {
    FirstFailing(entries, ParseEntry)
  }

  /** All entries parsed in order; the first malformed one is reported. */
  function ParseEntries(entries: seq<string>): (r: Result<seq<Endpoint>, ConfigError>)
    ensures r.Success? <==> FirstMalformed(entries) == |entries|
    ensures r.Success? ==> (|r.value| == |entries|
      && forall i :: 0 <= i < |entries| ==> r.value[i] == ParseEntry(entries[i]).value)
    ensures r.Success? ==> forall i :: 0 <= i < |r.value| ==> TrimmedEndpoint(r.value[i])
    ensures r.Failure? ==> r.error == MalformedEntry(entries[FirstMalformed(entries)])
  {
    ParseAll(entries, ParseEntry)
  }

  /** Parsing succeeds exactly when every entry parses. */
  lemma ParseEntriesAll(entries: seq<string>)
    ensures ParseEntries(entries).Success? <==> forall i :: 0 <= i < |entries| ==> ParseEntry(entries[i]).Success?
  {
  }

  /** The configuration built from the candidate entries: each must parse, and there must be one. */
  function EndpointsOf(entries: seq<string>, timeoutMs: int): (r: Result<RpcConfig, ConfigError>)
    ensures r.Success? ==>
      && r.value.timeoutMs == timeoutMs
      && |r.value.endpoints| == |entries| > 0
      && forall i :: 0 <= i < |r.value.endpoints| ==> TrimmedEndpoint(r.value.endpoints[i])
    ensures r.Success? <==> entries != [] && FirstMalformed(entries) == |entries|
    ensures r.Success? ==> forall i :: 0 <= i < |entries| ==> r.value.endpoints[i] == ParseEntry(entries[i]).value
    ensures FirstMalformed(entries) < |entries| ==> r == Failure(MalformedEntry(entries[FirstMalformed(entries)]))
    ensures r == Failure(NoEndpoints) <==> entries == []
    ensures r != Failure(MissingEndpoints)
  {
    match ParseEntries(entries)
    case Failure(err) => Failure(err)
    case Success(endpoints) =>
      if |endpoints| == 0 then Failure(NoEndpoints)
      else Success(RpcConfig(endpoints, timeoutMs))
  }

  /**
   * `getEnv`: the endpoint string (absent counts as missing) and the timeout
   * setting (absent or empty gives the default).
   */
  function GetEnv(endpointsEnv: Option<string>, timeoutEnv: Option<int>): (r: Result<RpcConfig, ConfigError>)
    ensures r == Failure(MissingEndpoints) <==> endpointsEnv.None? || Trim(endpointsEnv.value) == []
    ensures r.Success? ==>
      && r.value.timeoutMs == timeoutEnv.GetOr(DefaultTimeoutMs)
      && |r.value.endpoints| == |Entries(Trim(endpointsEnv.value))| > 0
      && forall i :: 0 <= i < |r.value.endpoints| ==> TrimmedEndpoint(r.value.endpoints[i])
    ensures r == Failure(NoEndpoints) <==>
      endpointsEnv.Some? && Trim(endpointsEnv.value) != [] && Entries(Trim(endpointsEnv.value)) == []
  {
    if endpointsEnv.None? || Trim(endpointsEnv.value) == [] then Failure(MissingEndpoints)
    else EndpointsOf(Entries(Trim(endpointsEnv.value)), timeoutEnv.GetOr(DefaultTimeoutMs))
  }

  /** Every field usable in the endpoint string: non-empty, no outer blanks, no separators. */
  predicate WellFormedField(f: string) {
    f != [] && NoOuterWhitespace(f) && ',' !in f && '|' !in f
  }

  predicate WellFormedEndpoint(ep: Endpoint) {
    WellFormedField(ep.url) && WellFormedField(ep.user) && WellFormedField(ep.password)
  }

  function Serialize(ep: Endpoint): string {
    Join([ep.url, ep.user, ep.password], "|")
  }

  function SerializeAll(eps: seq<Endpoint>): string
    requires |eps| >= 1
  {
    Join(SerializedEntries(eps), ",")
  }

  /** A serialised well-formed endpoint is non-empty, comma-free and has no outer whitespace. */
  lemma SerializedShape(ep: Endpoint)
    requires WellFormedEndpoint(ep)
    ensures Serialize(ep) != [] && NoOuterWhitespace(Serialize(ep)) && ',' !in Serialize(ep)
  {
    var parts := [ep.url, ep.user, ep.password];
    JoinEnds(parts, "|");
    JoinExcludes(parts, "|", ',');
  }

  lemma SerializedEntry(ep: Endpoint)
    requires WellFormedEndpoint(ep)
    ensures ParseEntry(Serialize(ep)) == Success(ep)
  {
    var parts := [ep.url, ep.user, ep.password];
    SplitJoin(parts, '|');
    TrimNoop(ep.url);
    TrimNoop(ep.user);
    TrimNoop(ep.password);
  }

  function SerializedEntries(eps: seq<Endpoint>): (entries: seq<string>)
    ensures |entries| == |eps|
  {
    seq(|eps|, i requires 0 <= i < |eps| => Serialize(eps[i]))
  }

  /** The entries read back from the configuration string are the serialised endpoints. */
  lemma EntriesOfSerialized(eps: seq<Endpoint>)
    requires |eps| >= 1 && forall i :: 0 <= i < |eps| ==> WellFormedEndpoint(eps[i])
    ensures Trim(SerializeAll(eps)) == SerializeAll(eps) != []
    ensures Entries(SerializeAll(eps)) == SerializedEntries(eps)
  {
    var entries := SerializedEntries(eps);
    var s := SerializeAll(eps);
    SerializedEntriesPlain(eps);
    SerializedJoinTrimmed(eps);
    assert Split(s, ',') == entries by {
      SplitJoin(entries, ',');
    }
    TrimAllNoop(entries);
    assert forall i :: 0 <= i < |entries| ==> entries[i] != [];
    assert NonEmpty(entries) == entries;
  }

  /** The configuration string has no whitespace at either end. */
  lemma SerializedJoinTrimmed(eps: seq<Endpoint>)
    requires |eps| >= 1 && forall i :: 0 <= i < |eps| ==> WellFormedEndpoint(eps[i])
    ensures Trim(SerializeAll(eps)) == SerializeAll(eps) != []
  {
    var entries := SerializedEntries(eps);
    var first, last := Serialize(eps[0]), Serialize(eps[|eps| - 1]);
    SerializedShape(eps[0]);
    SerializedShape(eps[|eps| - 1]);
    assert entries[0] == first && entries[|eps| - 1] == last;
    JoinEnds(entries, ",");
    TrimNoop(SerializeAll(eps));
  }

  lemma SerializedEntriesPlain(eps: seq<Endpoint>)
    requires forall i :: 0 <= i < |eps| ==> WellFormedEndpoint(eps[i])
    ensures forall i :: 0 <= i < |eps| ==> var e := SerializedEntries(eps)[i];
      e != [] && ',' !in e && Trim(e) == e
  {
    forall i | 0 <= i < |eps|
      ensures var e := SerializedEntries(eps)[i];
        e != [] && ',' !in e && Trim(e) == e
    {
      SerializedShape(eps[i]);
      TrimNoop(Serialize(eps[i]));
    }
  }

  lemma TrimAllNoop(xs: seq<string>)
    requires forall i :: 0 <= i < |xs| ==> Trim(xs[i]) == xs[i]
    ensures TrimAll(xs) == xs
  {
  }

  /** Each serialised entry parses back to its endpoint. */
  lemma ParseSerialized(eps: seq<Endpoint>)
    requires forall i :: 0 <= i < |eps| ==> WellFormedEndpoint(eps[i])
    ensures ParseEntries(SerializedEntries(eps)) == Success(eps)
  {
    var entries := SerializedEntries(eps);
    forall i | 0 <= i < |eps|
      ensures ParseEntry(entries[i]) == Success(eps[i])
    {
      SerializedEntry(eps[i]);
    }
    var r := ParseEntries(entries);
    assert r.value == eps;
  }

  /** Writing well-formed endpoints out as the configuration string and parsing it gives them back. */
  lemma GetEnvRoundTrip(eps: seq<Endpoint>, timeoutEnv: Option<int>)
    requires |eps| >= 1 && forall i :: 0 <= i < |eps| ==> WellFormedEndpoint(eps[i])
    ensures GetEnv(Some(SerializeAll(eps)), timeoutEnv) == Success(RpcConfig(eps, timeoutEnv.GetOr(DefaultTimeoutMs)))
  {
    var s, entries := SerializeAll(eps), SerializedEntries(eps);
    var t := timeoutEnv.GetOr(DefaultTimeoutMs);
    EntriesOfSerialized(eps);
    ParseSerialized(eps);
    assert EndpointsOf(entries, t) == Success(RpcConfig(eps, t));
    assert GetEnv(Some(s), timeoutEnv) == EndpointsOf(Entries(Trim(s)), t);
  }

  /**
   * The emptiness test comes before trimming: a piece made only of blanks
   * passes it and is then trimmed to the empty string.
   */
  lemma BlankPieceAccepted(url: string, blank: string, password: string)
    requires WellFormedField(url) && WellFormedField(password)
    requires blank != [] && AllWhitespace(blank) && '|' !in blank
    ensures ParseEntry(Join([url, blank, password], "|")) == Success(Endpoint(url, [], password))
  {
    var parts := [url, blank, password];
    SplitJoin(parts, '|');
    TrimNoop(url);
    TrimNoop(password);
    TrimAllWhitespace(blank);
  }

  // ----- failover -----

  datatype RpcError = RpcError(code: int, message: string)

  /** The body of a response as `JSON.parse` sees it. */
  datatype ParsedBody =
    | NotJson
    | JsonNull
    | JsonObject(error: Option<RpcError>, result: WalletTypes.JsValue)

  /** What contacting one endpoint yields: a timeout abort, a thrown network error, or a response. */
  datatype FetchOutcome =
    | Aborted
    | NetworkError(message: Option<string>)
    | Response(status: int, ok: bool, body: ParsedBody)

  /** What the loop does with one endpoint's outcome. */
  datatype Step =
    | Done(result: WalletTypes.JsValue)
    | Rethrow(rpcError: RpcError, message: string, statusCode: Option<int>)
    | Record(message: string, statusCode: Option<int>)

  datatype Attempt = Attempt(url: string, message: string, statusCode: Option<int>)

  datatype RpcOutcome =
    | RpcOk(result: WalletTypes.JsValue)
    | RpcFailed(rpcError: RpcError, message: string, statusCode: Option<int>)
    | AllFailed(message: string, status: int)
    | ConfigFailed(error: ConfigError)

  /** The message the runtime gives when `.result` is read from a `null` body. */
  const NullBodyMessage := "Cannot read properties of null (reading 'result')"

  /** A successful HTTP status with a JSON body that holds no error object. */
  predicate Succeeds(o: FetchOutcome) {
    o.Response? && o.ok && o.body.JsonObject? && o.body.error.None?
  }

  /** A JSON body holding an error object, whatever the HTTP status. */
  predicate CarriesRpcError(o: FetchOutcome) {
    o.Response? && o.body.JsonObject? && o.body.error.Some?
  }

  /** Every other outcome: the loop records it and tries the next endpoint. */
  predicate FailsOver(o: FetchOutcome) {
    !Succeeds(o) && !CarriesRpcError(o)
  }

  /** The handling of one endpoint's outcome inside the loop body. */
  function StepFor(o: FetchOutcome, timeoutMs: int): (s: Step)
    ensures s.Done? <==> Succeeds(o)
    ensures s.Rethrow? <==> CarriesRpcError(o)
    ensures s.Record? <==> FailsOver(o)
    ensures s.Rethrow? ==> s.rpcError == o.body.error.value && s.message == o.body.error.value.message
    ensures o.Aborted? ==> s.Record? && s.statusCode == Some(504)
    ensures o.Response? && !o.ok ==> s.statusCode == Some(o.status)
    ensures o.Response? && o.body.NotJson? ==> s.Record? && s.statusCode == Some(o.status)
  {
    match o
    case Aborted => Record("超时（" + IntToString(timeoutMs) + "ms）", Some(504))
    case NetworkError(msg) => Record(msg.GetOr("未知错误"), None)
    case Response(status, ok, body) =>
      match body
      case NotJson => Record("RPC响应非JSON，HTTP " + IntToString(status), Some(status))
      case JsonNull =>
        if !ok then Record("HTTP错误 " + IntToString(status), Some(status))
        else Record(NullBodyMessage, None)
      case JsonObject(error, result) =>
        if !ok then
          if error.Some? then Rethrow(error.value, error.value.message, Some(status))
          else Record("HTTP错误 " + IntToString(status), Some(status))
        else if error.Some? then Rethrow(error.value, error.value.message, None)
        else Done(result)
  }

  /** The attempts recorded for the first `n` endpoints, all of which failed over. */
  function AttemptsOf(eps: seq<Endpoint>, fetch: nat -> FetchOutcome, timeoutMs: int, n: nat): seq<Attempt>
    requires n <= |eps|
    requires forall j :: 0 <= j < n ==> FailsOver(fetch(j))
  {
    if n == 0 then []
    else
      var s := StepFor(fetch(n - 1), timeoutMs);
      AttemptsOf(eps, fetch, timeoutMs, n - 1) + [Attempt(eps[n - 1].url, s.message, s.statusCode)]
  }

  function AttemptText(a: Attempt): string {
    "[" + a.url + "] " + a.message
  }

  /** The attempts rendered and joined by " ; ", or "" when there are none. */
  function Details(attempts: seq<Attempt>): string {
    if attempts == [] then ""
    else Join(seq(|attempts|, i requires 0 <= i < |attempts| => AttemptText(attempts[i])), " ; ")
  }

  function AllFailedMessage(attempts: seq<Attempt>): string {
    "RPC全部失败：" + (if Details(attempts) == [] then "无详情" else Details(attempts))
  }

  /**
   * What the failover loop promises after contacting `contacted` endpoints:
   * every earlier endpoint failed over; the last one contacted produced the
   * result or the rethrown RPC error; and the call fails with status 502,
   * listing every attempt, exactly when every endpoint failed over.
   */
  predicate FailoverOutcome(endpoints: seq<Endpoint>, timeoutMs: int, fetch: nat -> FetchOutcome,
                            out: RpcOutcome, contacted: nat)
  {
    && 1 <= contacted <= |endpoints| && !out.ConfigFailed?
    && (forall j :: 0 <= j < contacted - 1 ==> FailsOver(fetch(j)))
    && (out.RpcOk? ==> StepFor(fetch(contacted - 1), timeoutMs) == Done(out.result))
    && (out.RpcFailed? ==>
          StepFor(fetch(contacted - 1), timeoutMs) == Rethrow(out.rpcError, out.message, out.statusCode))
    && (out.AllFailed? <==> forall j :: 0 <= j < |endpoints| ==> FailsOver(fetch(j)))
    && (out.AllFailed? ==> (contacted == |endpoints| && out.status == 502
          && out.message == AllFailedMessage(AttemptsOf(endpoints, fetch, timeoutMs, contacted))))
  }

  /**
   * The loop of `callBitcoinRpc` over the configured endpoints, in order;
   * `contacted` is how many were contacted and `fetch(i)` is what contacting
   * the i-th endpoint yields.
   */
  method Failover(endpoints: seq<Endpoint>, timeoutMs: int, fetch: nat -> FetchOutcome)
    returns (out: RpcOutcome, contacted: nat)
    requires |endpoints| > 0
    ensures FailoverOutcome(endpoints, timeoutMs, fetch, out, contacted)
  {
    var attempts: seq<Attempt> := [];
    for i := 0 to |endpoints|
      invariant forall j :: 0 <= j < i ==> FailsOver(fetch(j))
      invariant attempts == AttemptsOf(endpoints, fetch, timeoutMs, i)
    {
      match StepFor(fetch(i), timeoutMs)
      case Done(result) =>
        return RpcOk(result), i + 1;
      case Rethrow(rpcError, message, statusCode) =>
        return RpcFailed(rpcError, message, statusCode), i + 1;
      case Record(message, statusCode) =>
        attempts := attempts + [Attempt(endpoints[i].url, message, statusCode)];
    }
    return AllFailed(AllFailedMessage(attempts), 502), |endpoints|;
  }

  /** `callBitcoinRpc`: read the configuration, then fail over along the endpoints. */
  method CallBitcoinRpc(endpointsEnv: Option<string>, timeoutEnv: Option<int>, overrideTimeoutMs: Option<int>,
                        fetch: nat -> FetchOutcome)
    returns (out: RpcOutcome, contacted: nat)
    ensures GetEnv(endpointsEnv, timeoutEnv).Failure? <==> out.ConfigFailed?
    ensures out.ConfigFailed? ==> out.error == GetEnv(endpointsEnv, timeoutEnv).error && contacted == 0
    ensures !out.ConfigFailed? ==>
      var cfg := GetEnv(endpointsEnv, timeoutEnv).value;
      FailoverOutcome(cfg.endpoints, overrideTimeoutMs.GetOr(cfg.timeoutMs), fetch, out, contacted)
  {
    var env := GetEnv(endpointsEnv, timeoutEnv);
    if env.Failure? {
      return ConfigFailed(env.error), 0;
    }
    out, contacted := Failover(env.value.endpoints, overrideTimeoutMs.GetOr(env.value.timeoutMs), fetch);
  }

  /** A JSON-RPC error object stops the failover even on an HTTP error status. */
  lemma RpcErrorIsNotRetried(status: int, ok: bool, err: RpcError, result: WalletTypes.JsValue, t: int)
    ensures StepFor(Response(status, ok, JsonObject(Some(err), result)), t).Rethrow?
  {
  }

  /** Every failure message lists the attempts in endpoint order. */
  lemma {:induction false} AttemptsInOrder(eps: seq<Endpoint>, fetch: nat -> FetchOutcome, t: int, n: nat)
    requires n <= |eps|
    requires forall j :: 0 <= j < n ==> FailsOver(fetch(j))
    ensures var a := AttemptsOf(eps, fetch, t, n);
      |a| == n && forall j :: 0 <= j < n ==> (a[j].url == eps[j].url && a[j].message == StepFor(fetch(j), t).message
        && a[j].statusCode == StepFor(fetch(j), t).statusCode)
  {
    if n > 0 {
      AttemptsInOrder(eps, fetch, t, n - 1);
    }
  }
}
