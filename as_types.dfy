/**
 * The records the attribute-source pipeline of src/core/as.js works on:
 * the message received from the message queue, the response records the
 * ledger keeps for a request, and the details derived from them.
 */
module AsTypes {
  import opened Wrappers
  import opened Js

  type RequestId = string

  /** `privateProofObject` of one entry of a queue message. */
  datatype PrivateProofObject = PrivateProofObject(accessorId: string, privateProofValue: string, padding: string)

  /** One entry of `privateProofObjectList`: the identity provider and its private proof. */
  datatype ProofEntry = ProofEntry(idpId: string, privateProofObject: PrivateProofObject)

  /** A message received from the message queue, after `JSON.parse`. */
  datatype QueueMessage = QueueMessage(
    requestId: RequestId,
    height: int,                              // the ledger height the sender saw
    rpId: Option<string>,                     // `rp_id`
    serviceId: string,                        // `service_id`
    namespace: string,
    identifier: string,
    requestParams: JsValue,                   // `request_params`, passed through untouched
    mode: JsValue,                            // `mode` as the message carries it
    requestMessage: string,                   // `request_message`, the signed text
    challenge: string,
    privateProofObjectList: seq<ProofEntry>)

  /** One identity provider's response as recorded on the ledger. */
  datatype ResponseRecord = ResponseRecord(
    idpId: string,
    signature: string,
    aal: real,
    ial: real,
    identityProof: string,                    // the serialized public proof
    privateProofHash: string)

  /** The part of the ledger's request detail that this pipeline reads. */
  datatype RequestDetail = RequestDetail(mode: int, responseList: seq<ResponseRecord>)

  /** The result of `getResponseDetails`. */
  datatype ResponseDetails = ResponseDetails(signatures: seq<string>, maxAal: real, maxIal: real)
}
