/**
 * The bookkeeping around the pipeline in src/core/as.js: the error-callback
 * URL object, service registration and lookup, the callback to the
 * attribute source, and what happens with the callback's answer. The parts
 * of the durable store (`db`) touched here are the fields of `NodeStore`;
 * ledger reads arrive as parameters, ledger writes are returned as values,
 * and signing and the commit height of a ledger transaction are functions.
 */
module ServiceRegistry {
  import opened Wrappers
  import opened Js
  import opened AsTypes

  /** A string argument that JavaScript treats as true: present and non-empty. */
  predicate TruthyString(s: Option<string>)
  {
    s.Some? && s.value != ""
  }

  /** A number argument that JavaScript treats as true: present and non-zero. */
  predicate TruthyNumber(n: Option<real>)
  {
    n.Some? && n.value != 0.0
  }

  // ---------------------------------------------------------------------
  // callbackUrls
  // ---------------------------------------------------------------------

  /** The module-level `callbackUrls` object, which only ever holds `error_url`. */
  class CallbackUrls {
    var errorUrl: Option<string>

    /** Module load: the URL read from its file, or unset when there is no file. */
    constructor (fromFile: Option<string>)
      ensures errorUrl == fromFile
    {
      errorUrl := fromFile;
    }

    /** `setCallbackUrls({error_url})`: only a value other than null/undefined replaces the URL. */
    method SetCallbackUrls(newErrorUrl: Option<string>)
      modifies this
      ensures newErrorUrl.Some? ==> errorUrl == newErrorUrl
      ensures newErrorUrl.None? ==> errorUrl == old(errorUrl)
    {
      if newErrorUrl.Some? {
        errorUrl := newErrorUrl;
      }
    }
  }

  // ---------------------------------------------------------------------
  // Service registration
  // ---------------------------------------------------------------------

  datatype UpsertArgs = UpsertArgs(serviceId: string, minIal: Option<real>, minAal: Option<real>, url: Option<string>)

  /** The ledger transaction `upsertAsService` submits. */
  datatype LedgerWrite =
    | RegisterServiceDestination(serviceId: string, minAal: Option<real>, minIal: Option<real>, nodeId: string)
    | UpdateServiceDestination(serviceId: string, minAal: Option<real>, minIal: Option<real>)

  /** The client error MISSING_ARGUMENTS, rethrown as "Cannot register AS service". */
  datatype UpsertError = MissingArguments

  /** Some of the four fields a first registration needs is falsy. */
  predicate MissingRequired(args: UpsertArgs)
  {
    args.serviceId == "" || !TruthyNumber(args.minAal) || !TruthyNumber(args.minIal) || !TruthyString(args.url)
  }

  /** The `forEach` over the registered AS nodes: is this node among them? */
  method IsRegistered(registeredNodeIds: seq<string>, nodeId: string) returns (registered: bool)
    ensures registered <==> nodeId in registeredNodeIds
  {
    registered := false;
    var i := 0;
    while i < |registeredNodeIds|
      invariant 0 <= i <= |registeredNodeIds|
      invariant registered <==> nodeId in registeredNodeIds[..i]
    {
      assert registeredNodeIds[..i + 1] == registeredNodeIds[..i] + [registeredNodeIds[i]];
      registered := registered || registeredNodeIds[i] == nodeId;
      i := i + 1;
    }
    assert registeredNodeIds[..i] == registeredNodeIds;
  }

  /**
   * `getServiceDetail`: nothing when the ledger has no record, otherwise the
   * ledger's fields laid over `service_id` and the locally stored `url`.
   */
  function GetServiceDetail(serviceId: string, ledgerRecord: Option<map<string, JsValue>>, storedUrl: Option<string>)
    : (r: Option<map<string, JsValue>>)
    ensures r.None? <==> ledgerRecord.None?
    ensures r.Some? ==> r.value.Keys == ledgerRecord.value.Keys + {"service_id", "url"}
    // every ledger field wins over the two local ones
    ensures r.Some? ==> forall k :: k in ledgerRecord.value ==> r.value[k] == ledgerRecord.value[k]
    ensures r.Some? && "service_id" !in ledgerRecord.value ==> r.value["service_id"] == Str(serviceId)
    ensures r.Some? && "url" !in ledgerRecord.value ==>
              r.value["url"] == (if storedUrl.Some? then Str(storedUrl.value) else Undefined)
  {
    match ledgerRecord
    case None => None
    case Some(fields) =>
      var url := if storedUrl.Some? then Str(storedUrl.value) else Undefined;
      Some(map["service_id" := Str(serviceId), "url" := url] + fields)
  }

  // ---------------------------------------------------------------------
  // Callback to the attribute source (getDataAndSendBackToRP)
  // ---------------------------------------------------------------------

  /** The context `callbackToClient` hands back to `afterGotDataFromCallback`. */
  datatype CallbackContext = CallbackContext(rpId: Option<string>, requestId: RequestId, serviceId: string)

  /** One `callbackToClient` call: where, what, the retry key, and the continuation's context. */
  datatype AsCallback = AsCallback(url: string, body: map<string, JsValue>, retryKey: RequestId, context: CallbackContext)

  function SignatureValues(signatures: seq<string>): seq<JsValue>
  {
    seq(|signatures|, i requires 0 <= i < |signatures| => Str(signatures[i]))
  }

  /**
   * `getDataAndSendBackToRP(request, responseDetails)`: with no usable
   * callback URL for the service the request is abandoned; otherwise the
   * attribute source is called with the request and the response details.
   */
  function DataRequestCallback(request: QueueMessage, details: ResponseDetails, callbackUrl: Option<string>)
    : (c: Option<AsCallback>)
    ensures c.None? <==> !TruthyString(callbackUrl)
    ensures c.Some? ==>
              c.value.url == callbackUrl.value &&
              c.value.retryKey == request.requestId &&
              c.value.context == CallbackContext(request.rpId, request.requestId, request.serviceId)
    ensures c.Some? ==>
              c.value.body.Keys == {"request_id", "namespace", "identifier", "request_params",
                                    "signatures", "max_aal", "max_ial", "mode"} &&
              c.value.body["request_id"] == Str(request.requestId) &&
              c.value.body["namespace"] == Str(request.namespace) &&
              c.value.body["identifier"] == Str(request.identifier) &&
              c.value.body["request_params"] == request.requestParams &&
              c.value.body["mode"] == request.mode &&
              c.value.body["max_aal"] == Num(details.maxAal) &&
              c.value.body["max_ial"] == Num(details.maxIal)
    // the signatures travel in their order, one string per response
    ensures c.Some? ==>
              c.value.body["signatures"].Arr? &&
              |c.value.body["signatures"].items| == |details.signatures| &&
              forall i :: 0 <= i < |details.signatures| ==>
                c.value.body["signatures"].items[i] == Str(details.signatures[i])
  {
    if !TruthyString(callbackUrl) then None
    else
      var body := map[
        "request_id" := Str(request.requestId),
        "namespace" := Str(request.namespace),
        "identifier" := Str(request.identifier),
        "request_params" := request.requestParams,
        "signatures" := Arr(SignatureValues(details.signatures)),
        "max_aal" := Num(details.maxAal),
        "max_ial" := Num(details.maxIal),
        "mode" := request.mode];
      Some(AsCallback(callbackUrl.value, body, request.requestId,
                      CallbackContext(request.rpId, request.requestId, request.serviceId)))
  }

  // ---------------------------------------------------------------------
  // The callback's answer and the relay to the requesting party
  // ---------------------------------------------------------------------

  /** The `additionalData` object; `processDataForRP` fills in `rpId` in place. */
  class AdditionalData {
    var rpId: Option<string>
    const requestId: RequestId
    const serviceId: string

    constructor (context: CallbackContext)
      ensures rpId == context.rpId && requestId == context.requestId && serviceId == context.serviceId
    {
      rpId := context.rpId;
      requestId := context.requestId;
      serviceId := context.serviceId;
    }
  }

  /** The HTTP answer of the attribute source; `body` is `None` when it is not JSON. */
  datatype CallbackResponse = CallbackResponse(status: int, body: Option<JsValue>)

  /** The `signASData` ledger transaction. */
  datatype SignAsData = SignAsData(asId: string, requestId: RequestId, signature: string, serviceId: string)

  /** The message sent to the requesting party. */
  datatype RelayMessage = RelayMessage(
    requestId: RequestId, asId: string, serviceId: string, signature: string, data: JsValue, height: int)

  /** What `processDataForRP` does: the transaction, the receiving node, the message. */
  datatype Relay = Relay(transaction: SignAsData, receiver: Option<string>, message: RelayMessage)

  datatype CallbackOutcome =
    | Deferred          // 204: the data will come later
    | ParseFailed       // "Cannot parse data from AS"
    | Relayed(relay: Relay)

  /** The requesting party: the one given, unless it is falsy; then the one stored for the request. */
  function ResolveRpId(given: Option<string>, stored: map<RequestId, Option<string>>, requestId: RequestId): (rp: Option<string>)
    // a truthy party travels with the answer and wins; otherwise the one recorded
    // for the request, and undefined when nothing was recorded
    ensures TruthyString(given) ==> rp == given
    ensures !TruthyString(given) && requestId in stored ==> rp == stored[requestId]
    ensures !TruthyString(given) && requestId !in stored ==> rp == None
  {
    if TruthyString(given) then given
    else if requestId in stored then stored[requestId]
    else None
  }

  /** A request deferred with a 204 is later relayed to the party recorded then. */
  lemma DeferredRpIdIsRecovered(stored: map<RequestId, Option<string>>, requestId: RequestId,
                                recorded: Option<string>, given: Option<string>)
    requires !TruthyString(given)
    ensures ResolveRpId(given, stored[requestId := recorded], requestId) == recorded
  {
  }

  /** The parts of the durable store used by registration and by the callback's continuation. */
  class NodeStore {
    var serviceCallbackUrls: map<string, string>
    var rpIdByRequest: map<RequestId, Option<string>>

    constructor ()
      ensures serviceCallbackUrls == map[] && rpIdByRequest == map[]
    {
      serviceCallbackUrls := map[];
      rpIdByRequest := map[];
    }

    /**
     * `upsertAsService`: register when this node is not yet listed for the
     * service (all four fields required), update otherwise, and store the
     * URL whenever it is truthy.
     */
    method UpsertAsService(args: UpsertArgs, registeredNodeIds: seq<string>, nodeId: string)
      returns (r: Result<LedgerWrite, UpsertError>)
      modifies this
      ensures r.Failure? <==> nodeId !in registeredNodeIds && MissingRequired(args)
      ensures r.Success? && nodeId !in registeredNodeIds ==>
                r.value == RegisterServiceDestination(args.serviceId, args.minAal, args.minIal, nodeId)
      ensures r.Success? && nodeId in registeredNodeIds ==>
                r.value == UpdateServiceDestination(args.serviceId, args.minAal, args.minIal)
      // a failed call writes nothing; otherwise exactly a truthy URL is stored
      ensures serviceCallbackUrls ==
                if r.Success? && TruthyString(args.url) then old(serviceCallbackUrls)[args.serviceId := args.url.value]
                else old(serviceCallbackUrls)
      ensures rpIdByRequest == old(rpIdByRequest)
    {
      var registered := IsRegistered(registeredNodeIds, nodeId);
      if !registered {
        if MissingRequired(args) {
          return Failure(MissingArguments);
        }
        r := Success(RegisterServiceDestination(args.serviceId, args.minAal, args.minIal, nodeId));
      } else {
        r := Success(UpdateServiceDestination(args.serviceId, args.minAal, args.minIal));
      }
      if TruthyString(args.url) {
        serviceCallbackUrls := serviceCallbackUrls[args.serviceId := args.url.value];
      }
    }

    /**
     * `processDataForRP`: sign the data, record the signature on the ledger,
     * resolve the requesting party if it is not known, and relay the data
     * with the commit height.
     */
    method ProcessDataForRP(data: JsValue, additional: AdditionalData, asId: string,
                            createSignature: JsValue -> string, signAsData: SignAsData -> int)
      returns (relay: Relay)
      modifies additional
      ensures additional.rpId == ResolveRpId(old(additional.rpId), rpIdByRequest, additional.requestId)
      ensures relay.transaction == SignAsData(asId, additional.requestId, createSignature(data), additional.serviceId)
      ensures relay.receiver == additional.rpId
      ensures relay.message == RelayMessage(additional.requestId, asId, additional.serviceId,
                                            createSignature(data), data, signAsData(relay.transaction))
    {
      var signature := createSignature(data);
      var transaction := SignAsData(asId, additional.requestId, signature, additional.serviceId);
      var height := signAsData(transaction);
      if !TruthyString(additional.rpId) {
        additional.rpId := if additional.requestId in rpIdByRequest then rpIdByRequest[additional.requestId] else None;
      }
      relay := Relay(transaction, additional.rpId,
                     RelayMessage(additional.requestId, asId, additional.serviceId, signature, data, height));
    }

    /**
     * Whether `(await response.json()).data` can be read: the body parsed,
     * and not to `null` or `undefined`, on which the property read throws.
     */
    static predicate BodyParsed(body: Option<JsValue>)
    {
      body.Some? && !body.value.Null? && !body.value.Undefined?
    }

    /**
     * `afterGotDataFromCallback`: a 204 records the requesting party for the
     * request and stops; any other answer must parse, and its `data` is
     * relayed.
     */
    method AfterGotDataFromCallback(response: CallbackResponse, additional: AdditionalData, asId: string,
                                    createSignature: JsValue -> string, signAsData: SignAsData -> int)
      returns (outcome: CallbackOutcome)
      modifies this, additional
      ensures response.status == 204 ==>
                outcome == Deferred &&
                rpIdByRequest == old(rpIdByRequest)[additional.requestId := additional.rpId] &&
                additional.rpId == old(additional.rpId)
      ensures response.status != 204 && !BodyParsed(response.body) ==>
                outcome == ParseFailed && additional.rpId == old(additional.rpId)
      ensures response.status != 204 && BodyParsed(response.body) ==>
                var data := Get(response.body.value, "data");
                outcome.Relayed? &&
                outcome.relay.receiver == ResolveRpId(old(additional.rpId), old(rpIdByRequest), additional.requestId) &&
                additional.rpId == outcome.relay.receiver &&
                outcome.relay.transaction == SignAsData(asId, additional.requestId, createSignature(data), additional.serviceId) &&
                outcome.relay.message == RelayMessage(additional.requestId, asId, additional.serviceId,
                                                      createSignature(data), data, signAsData(outcome.relay.transaction))
      ensures response.status != 204 ==> rpIdByRequest == old(rpIdByRequest)
      ensures serviceCallbackUrls == old(serviceCallbackUrls)
    {
      if response.status == 204 {
        rpIdByRequest := rpIdByRequest[additional.requestId := additional.rpId];
        return Deferred;
      }
      if !BodyParsed(response.body) {
        return ParseFailed;
      }
      var data := Get(response.body.value, "data");
      var relay := ProcessDataForRP(data, additional, asId, createSignature, signAsData);
      return Relayed(relay);
    }
  }

  /**
   * First registration of a service with every field present: a
   * registration transaction, and the URL shows up in the service detail.
   */
  method RegisterThenDetailScenario()
  {
    var store := new NodeStore();
    var args := UpsertArgs("bank_statement", Some(1.1), Some(2.2), Some("https://as.example/cb"));
    var r := store.UpsertAsService(args, ["other_as"], "as1");
    assert r == Success(RegisterServiceDestination("bank_statement", Some(2.2), Some(1.1), "as1"));
    var detail := GetServiceDetail("bank_statement", Some(map["min_ial" := Num(1.1)]),
                                   Lookup(store.serviceCallbackUrls, "bank_statement"));
    assert detail.Some? && detail.value["url"] == Str("https://as.example/cb");
  }

  /**
   * A 204 from the attribute source defers the request; when its data
   * arrives later through another channel, without a requesting party, it
   * is relayed to the party recorded at the 204.
   */
  method DeferThenRelayScenario()
  {
    var store := new NodeStore();
    var sign := (d: JsValue) => "sig";
    var commit := (t: SignAsData) => 7;
    var first := new AdditionalData(CallbackContext(Some("rp1"), "r1", "bank_statement"));
    var o := store.AfterGotDataFromCallback(CallbackResponse(204, None), first, "as1", sign, commit);
    assert o == Deferred;
    var later := new AdditionalData(CallbackContext(None, "r1", "bank_statement"));
    var answer := Obj(map["data" := Obj(map["value" := Num(42.0)])]);
    o := store.AfterGotDataFromCallback(CallbackResponse(200, Some(answer)), later, "as1", sign, commit);
    assert o.Relayed? && o.relay.receiver == Some("rp1");
    assert o.relay.message == RelayMessage("r1", "as1", "bank_statement", "sig", Obj(map["value" := Num(42.0)]), 7);
  }
}
