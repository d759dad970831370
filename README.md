# Attribute-source pipeline of an identity-network node, in Dafny

This project models the core of the attribute-source (AS) role of a node in
a decentralized identity network. Data requests reach the AS over a message
queue. Each one waits in a height-gated pending-message store until the
ledger has caught up with the block height the message names. It is then
checked for integrity, and the identity providers' proofs are verified: a
mode-1 bypass, an accessor-group conflict check, and per-entry signature and
zero-knowledge checks. The request is then dispatched to the attribute
source's HTTP callback, together with the aggregated response details.
The callback's answer is either deferred (HTTP 204) or signed, written to
the ledger and relayed to the requesting party. Around this pipeline the
model also covers:

- service registration and the service-detail lookup;
- the error-callback URL setter;
- the start-up check of environment variables;
- the ledger-client helpers: nonce counter, placeholder hash, request ids,
  payload layout and RPC reply decoding.

Files, one module each:

- `wrappers.dfy`: `Option`/`Result` (module `Wrappers`) and JavaScript values with truthiness (module `Js`).
- `as_types.dfy`: the records of the pipeline (queue message, proof entries, ledger responses, response details).
- `response_aggregation.dfy`: `getResponseDetails`.
- `proof_verification.dfy`: `verifyZKProof`.
- `pending_store.dfy`: the pending-message store and the two event handlers, `handleMessageFromQueue` and `handleTendermintNewBlockHeaderEvent`.
- `service_registry.dfy`: `setCallbackUrls`, `upsertAsService`, `getServiceDetail`, `getDataAndSendBackToRP`, `afterGotDataFromCallback`, `processDataForRP`.
- `env_validate.dfy`: `src/envVarValidate.js`.
- `ledger_utils.dfy`: `src/main/utils.js`.

State that the source changes in place is modelled as classes:

- `Store` (module `PendingStore`) holds the request-id → message table and the height → request-ids table of the durable store.
- `NodeStore` holds the service callback URLs and the request → requesting-party table.
- `CallbackUrls` is the module-level `callbackUrls` object.
- `AdditionalData` is the continuation object whose `rpId` is filled in place.
- `NonceCounter` is the module-level `nonce`.

Loops of the source are methods with loop invariants, each proved against a
specification function. The specification functions carry the lemmas:
order independence of the aggregate, last-match response selection, the
all-or-nothing verdict, and the round trips of the decimal nonce and the
payload layout.

Collaborators whose code is not part of this model are parameters:

- the ledger (request detail, accessor group ids and keys, registered nodes, service records, transaction commit heights);
- `common.checkRequestIntegrity`;
- signature creation and verification, and zero-knowledge verification;
- `JSON.parse` of a base64 query value;
- the clock (`Date.now()`);
- the latest block height known to the ledger client.

Ledger writes and the callback call are returned as values, not performed.

Behaviour of the code that is easy to misread, which the model follows as written:

- A queue message is buffered when `latestBlockHeight <= message.height` (as.js:258), not only when the ledger is strictly behind.
- A request id is not kept in a single height bucket. The same id delivered twice with different heights sits in two buckets. Draining the first bucket processes the later message and removes it, leaving the id in the second bucket with no message. `PendingStore.RedeliveryScenario` walks through this.
- Drained requests are not removed unconditionally. In mode other than 1, `verifyZKProof` reads entry 0 of the proof list (as.js:430-432), so an empty list throws. Inside the block handler the throw happens before `removeRequestReceivedFromMQ` (as.js:331). It also rejects the awaited `Promise.all`, so `removeRequestIdsExpectedInBlock` (as.js:335) is never reached. The model keeps that message, and keeps the whole range's buckets, whenever some handler threw (the `Failed` outcome).
- The callback URL of a service is stored when it is truthy, so an empty string is not stored (as.js:375). An `error_url` replaces the stored one whenever it is not null or undefined, so an empty string does replace it (as.js:78).

## Model

| member | source | states |
|---|---|---|
| `PendingStore.Store.HandleMessageFromQueue` | src/core/as.js:247-284 | When `latestBlockHeight <= message.height` the outcome is `Buffered`: the message is stored under its request id and its id is added to the bucket of its height. Otherwise the store is unchanged and the outcome is that of integrity check, verification and dispatch. |
| `PendingStore.Store.HandleNewBlockHeader` | src/core/as.js:286-336 | Exactly the ids bucketed in `[fromHeight, toHeight]` are processed, each with the message stored before the event. Every message whose handler did not throw is removed, verified or not. The range's buckets are removed unless a handler threw. When nothing threw, the same range then drains nothing. |
| `PendingStore.DrainTwice` | src/core/as.js:319-335 | Draining the same range twice in a row dispatches nothing the second time, whether or not a handler threw in the first and kept the range's buckets. |
| `PendingStore.FromHeight` | src/core/as.js:299-305 | `fromHeight` is 1 without a missed-block count. With a count `c >= 0` it is at most `toHeight`: equal to it for `c = 0`, and spanning exactly `c` heights for `c > 0`. |
| `PendingStore.ToHeight` | src/core/as.js:305 | The drained range ends at the block just before the new header, so messages for the header's own height wait for the next one. |
| `PendingStore.ProcessRequest` | src/core/as.js:273-283 | The processing steps give the outcome the specification `Process` defines. A dispatched request carries the stored message. |
| `PendingStore.DispatchedIff` | src/core/as.js:325-330 | A drained request is dispatched iff its message is present and passes the integrity check, and either mode is 1 or all proof entries share entry 0's accessor group and each passes both checks. It is then dispatched with the aggregate of the ledger's responses. |
| `PendingStore.RemovedRangeDrainsEmpty` | src/core/as.js:335 | After the buckets of a range are removed, that range yields no request id. |
| `PendingStore.BufferedIdIsExpected` | src/core/as.js:264-265 | A buffered id is drained by every height range that covers the message's height. |
| `ProofVerification.VerifyZKProof` | src/core/as.js:404-493 | The two loops compute `ProofSetVerdict`. Mode 1 gives true whatever the proofs. In any other mode an empty list throws, and an accessor-group mismatch with entry 0 gives false before any signature or proof check. |
| `ProofVerification.VerdictCharacterization` | src/core/as.js:419-492 | The verdict is true iff mode is 1, or the list is non-empty, every accessor is in entry 0's group, and every entry's signature and zero-knowledge checks both hold. |
| `ProofVerification.OneFailingEntryInvalidates` | src/core/as.js:447-492 | Outside mode 1, one entry failing either check makes the verdict false. |
| `ProofVerification.AllEntriesValidIff` | src/core/as.js:447-491 | The `valid = valid && signatureValid && zkProofValid` accumulation holds iff every entry is valid. |
| `ProofVerification.FindResponse` | src/core/as.js:455-461 | The `response_list.forEach` leaves the last response whose `idp_id` matches the entry's. |
| `ProofVerification.LastResponseOfIsLastMatch` | src/core/as.js:455-461 | The chosen response is absent iff no response matches. Otherwise it is a matching response with no matching response after it. |
| `ResponseAggregation.GetResponseDetails` | src/core/as.js:216-245 | The loop yields the aggregate: one signature per response, in list order, and the running maxima of `aal` and `ial` starting at 0. |
| `ResponseAggregation.MaxLevelIsUpperBound` | src/core/as.js:231-238 | `max_aal`/`max_ial` are at least 0 and at least every response's level. |
| `ResponseAggregation.MaxLevelIsAttained` | src/core/as.js:231-238 | `max_aal`/`max_ial` are 0 or the level of some response. |
| `ResponseAggregation.MaxLevelPermutationInvariant` | src/core/as.js:234-238 | Permuting the response list leaves each maximum unchanged. |
| `ResponseAggregation.SignaturesPermutationInvariant` | src/core/as.js:234-235 | Permuting the response list permutes the signatures (same multiset). |
| `ResponseAggregation.AggregatePermutationInvariant` | src/core/as.js:231-244 | The whole result is order independent: equal maxima and the same multiset of signatures. |
| `ServiceRegistry.CallbackUrls.constructor` | src/core/as.js:46-64 | At load, the error URL is what its file held, or unset when there is no file. |
| `ServiceRegistry.CallbackUrls.SetCallbackUrls` | src/core/as.js:77-82 | The error URL is replaced iff the new value is not null/undefined, and is otherwise kept. |
| `ServiceRegistry.IsRegistered` | src/core/as.js:346-350 | The node counts as registered iff some listed `node_id` equals its own node id. |
| `ServiceRegistry.NodeStore.UpsertAsService` | src/core/as.js:338-384 | Fails with MISSING_ARGUMENTS iff the node is unregistered and one of `service_id`, `min_aal`, `min_ial`, `url` is falsy; a failure writes nothing. Otherwise it registers an unregistered node or updates a registered one, and stores the URL iff it is truthy. |
| `ServiceRegistry.GetServiceDetail` | src/core/as.js:386-402 | Null iff the ledger has no record. Otherwise the result has the ledger's keys plus `service_id` and `url`; every ledger field overrides, and absent ones fall back to the service id and the stored URL. |
| `ServiceRegistry.DataRequestCallback` | src/core/as.js:166-214 | No callback iff the service's URL is falsy. Otherwise the URL, the retry key and the continuation context. The body has exactly eight fields: `request_id`, `namespace`, `identifier`, `request_params` and `mode` from the request; `max_aal`, `max_ial` and the signatures, in order, from the response details. |
| `ServiceRegistry.AdditionalData.constructor` | src/core/as.js:208-212 | The continuation object holds `rpId`, `requestId` and `serviceId` of the request. |
| `ServiceRegistry.NodeStore.AfterGotDataFromCallback` | src/core/as.js:134-164 | Status 204 records request → requesting party and stops. A body that does not parse, or parses to null or undefined, fails. Otherwise `data` is signed, written to the ledger and relayed to the resolved requesting party, which is also left in the continuation object's `rpId`. |
| `ServiceRegistry.NodeStore.ProcessDataForRP` | src/core/as.js:108-132 | A falsy `rpId` is replaced in place by the stored one. The ledger transaction carries the node, request, signature and service. The relay goes to the resolved party with the data and the commit height. |
| `ServiceRegistry.ResolveRpId` | src/core/as.js:120-122 | A truthy `rpId` given with the answer is kept. Otherwise the party recorded for the request is used, and undefined when none was recorded. |
| `ServiceRegistry.DeferredRpIdIsRecovered` | src/core/as.js:120-137 | After a 204 has recorded a party for a request, a later answer that comes without a party is relayed to the recorded one. |
| `EnvValidate.Validate` | src/envVarValidate.js:1-69 | Startup continues iff ROLE is set and one of idp/rp/as/ndid, NODE_ID is non-empty, and the production key rule holds (either key path suffices). The first failing check in source order is reported. Missing NODE_ENV, TENDERMINT_IP, MQ_CONTACT_IP or LOG_DIRECTORY_PATH only warn. |
| `LedgerUtils.InitialNonce` | src/main/utils.js:3 | The counter starts in `[0, 9999]`. |
| `LedgerUtils.NonceCounter.constructor` | src/main/utils.js:3 | A fresh counter is `Date.now() % 10000` and has issued nothing. |
| `LedgerUtils.NonceCounter.GetNonce` | src/main/utils.js:35-37 | Returns the counter in decimal and increments it. The returned string was never returned before. |
| `LedgerUtils.DecimalString` | src/main/utils.js:36 | The decimal form of the counter is non-empty and all digits. |
| `LedgerUtils.DecimalRoundTrip` | src/main/utils.js:36 | Reading the decimal form back gives the counter value. |
| `LedgerUtils.DecimalStringInjective` | src/main/utils.js:36 | Distinct counter values give distinct nonce strings. |
| `LedgerUtils.Hash` | src/main/utils.js:18-21 | The hash is the input framed by `Hash(` and `)`, six characters longer. |
| `LedgerUtils.HashRoundTrip` | src/main/utils.js:18-21 | `Hash(s)` is six characters longer than `s`, and `s` can be read back from it. |
| `LedgerUtils.HashInjective` | src/main/utils.js:18-21 | Distinct inputs give distinct hashes. |
| `LedgerUtils.CreateRequestId` | src/main/utils.js:27-33 | A request id starts with `Hash(Concat_with_nonce_`, then the nonce, then `(`. |
| `LedgerUtils.RequestIdDeterminesNonce` | src/main/utils.js:27-33 | Equal request ids carry equal nonces whenever the nonces hold no `(`: the nonce can be read back from the id. |
| `LedgerUtils.RequestIdsFromDistinctNoncesDiffer` | src/main/utils.js:27-37 | Request ids made with different counter values differ, whatever the data. |
| `LedgerUtils.QueryPayload` | src/main/utils.js:40-43 | The query payload is the function name, a bar, then the JSON text. |
| `LedgerUtils.UpdatePayload` | src/main/utils.js:50-54 | The transaction payload is the function name, a bar, the JSON text, a bar, then the nonce. |
| `LedgerUtils.QueryPayloadRoundTrip` | src/main/utils.js:39-43 | A query payload `fnName\|json` splits back into its parts when the function name has no bar. |
| `LedgerUtils.UpdatePayloadRoundTrip` | src/main/utils.js:49-54 | A transaction payload `fnName\|json\|nonce` splits back into all three parts when neither the name nor the nonce has a bar, even if the JSON does. |
| `LedgerUtils.RetrieveResult` | src/main/utils.js:6-16 | A truthy `error` is returned whatever `isQuery` is. Otherwise a query succeeds only with the decoded value; a string value yields what the decoder makes of it, or the parse error when the decoder rejects it. A transaction yields a boolean, true iff `deliver_tx.log` is `"success"`; a missing or null `deliver_tx` throws a TypeError instead, so a malformed reply is not mistaken for a rejected transaction. Without an error and without a `result` object, reading the reply throws a TypeError. |

## Left out

- File I/O for the error-callback URL is not modelled. The module-load read is the constructor's argument; `writeCallbackUrlToFile` (as.js:66-75) is not modelled. `getCallbackUrls` (as.js:84-86) is the read of the `errorUrl` field.
- Ledger RPC, `mq.send`, `fetch` and the request URLs of `queryChain`/`updateChain` (utils.js:45, 56) are not modelled. They are I/O; ledger answers are parameters and writes are returned values.
- `sendDataToRP` (as.js:88-106) resolves an address and key and sends; the model stops at the relay value addressed to a node id. Failures of any collaborator (ledger, queue, HTTP) are not modelled; the throws modelled are the two listed under `FailReason`, a callback body that does not parse (`ParseFailed`), `UpsertError.MissingArguments` of `upsertAsService`, and the `RpcError` cases (`TypeError`, `SyntaxError`) of `retrieveResult`.
- The `callbackToClient` retry policy and `common.shouldRetryCallback` are not part of this model; one call is one `AsCallback` value.
- `common.checkRequestIntegrity` is not part of this model. It is an opaque predicate over the request id and the stored message, which may be absent.
- Real cryptography (`createSignature`, `verifySignature`, `verifyZKProof` of the utils module) is represented by opaque functions.
- `JSON.parse` of a response's `identity_proof` (as.js:457) is assumed not to throw; the raw string is passed on.
- `verifyZKProof` reads the request detail twice (as.js:414, 444); the model reads it once, assuming the ledger does not change in between.
- `Promise.all` concurrency and the un-awaited calls are run sequentially in the model. Interleavings with other events are not modelled.
- JavaScript numbers are reals or unbounded integers. NaN, `undefined` levels and the loss of precision of the nonce beyond 2^53 are not modelled. An undefined `latestBlockHeight` (any comparison false) is not modelled either.
- `PendingStore.Store.HandleNewBlockHeader`: the range query `db.getRequestIdsExpectedInBlock`, whose code is not part of this model, is assumed to return each request id once. An id bucketed at two heights of one range therefore gets one handler in the model. If the query returned one entry per bucket, the source would start two concurrent handlers for it, and both could read the message before either removes it and dispatch it twice.
- `LedgerUtils.RetrieveResult`: a query value that is not a string is modelled as a TypeError. `Buffer.from` accepts arrays and array-like objects, which the model does not decode.
- `generateIdentityProof` (utils.js:23-25) returns a constant placeholder and is not modelled.
- Logging, `console`, `process.exit` are not modelled: an exit is the `Exit` verdict.
- The routing layer (src/routes/dpki.js) only forwards to other modules and is not modelled.
