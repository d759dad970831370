/**
 * `verifyZKProof` of src/core/as.js: the decision whether the identity
 * proofs of a queue message are acceptable. The ledger lookups
 * (`getAccessorGroupId`, `getAccessorKey`) and the cryptographic checks
 * (`utils.verifySignature`, `utils.verifyZKProof`) are collaborators whose
 * code is not part of this model; they are given as functions.
 */
module ProofVerification {
  import opened Wrappers
  import opened AsTypes

  /** Everything `utils.verifyZKProof` is called with, in argument order. */
  datatype ZkStatement = ZkStatement(
    publicKey: string,
    challenge: string,
    privateProofValue: string,
    publicProof: Option<string>,       // the matching response's identity proof, if any
    namespace: string,
    identifier: string,
    privateProofHash: Option<string>,  // the matching response's proof hash, if any
    padding: string)

  /** The collaborators of `verifyZKProof`. */
  datatype Verifiers = Verifiers(
    accessorGroupId: string -> string,
    accessorKey: string -> string,
    // signature (undefined when no response matched), public key, signed text
    verifySignature: (Option<string>, string, string) -> bool,
    verifyZkProof: ZkStatement -> bool)

  /** `privateProofObjectList[0]` on an empty list throws a TypeError. */
  datatype VerifyError = EmptyProofList

  // ---------------------------------------------------------------------
  // Choosing the response of an entry
  // ---------------------------------------------------------------------

  /**
   * The response the forEach leaves in `publicProof`/`signature`: each
   * matching response overwrites the previous one, so the last one wins.
   */
  function LastResponseOf(rs: seq<ResponseRecord>, idpId: string): Option<ResponseRecord>
  {
    if rs == [] then None
    else if rs[|rs| - 1].idpId == idpId then Some(rs[|rs| - 1])
    else LastResponseOf(rs[..|rs| - 1], idpId)
  }

  /** There is a response exactly when some response matches, and it is the last match. */
  lemma {:induction false} LastResponseOfIsLastMatch(rs: seq<ResponseRecord>, idpId: string)
    ensures LastResponseOf(rs, idpId).None? <==> forall k :: 0 <= k < |rs| ==> rs[k].idpId != idpId
    ensures LastResponseOf(rs, idpId).Some? ==>
              exists j :: 0 <= j < |rs| && rs[j] == LastResponseOf(rs, idpId).value &&
                          rs[j].idpId == idpId &&
                          forall k :: j < k < |rs| ==> rs[k].idpId != idpId
  {
    if rs != [] {
      var init := rs[..|rs| - 1];
      LastResponseOfIsLastMatch(init, idpId);
      if rs[|rs| - 1].idpId != idpId {
        assert forall k :: 0 <= k < |init| ==> init[k] == rs[k];
        if LastResponseOf(init, idpId).Some? {
          var j :| 0 <= j < |init| && init[j] == LastResponseOf(init, idpId).value &&
                   init[j].idpId == idpId && forall k :: j < k < |init| ==> init[k].idpId != idpId;
          assert rs[j] == init[j];
        }
      }
    }
  }

  /** The `response_list.forEach` that looks up the response of one identity provider. */
  method FindResponse(responseList: seq<ResponseRecord>, idpId: string) returns (found: Option<ResponseRecord>)
    ensures found == LastResponseOf(responseList, idpId)
  {
    found := None;
    var i := 0;
    while i < |responseList|
      invariant 0 <= i <= |responseList|
      invariant found == LastResponseOf(responseList[..i], idpId)
    {
      assert responseList[..i + 1][..i] == responseList[..i];
      if responseList[i].idpId == idpId {
        found := Some(responseList[i]);
      }
      i := i + 1;
    }
    assert responseList[..i] == responseList;
  }

  // ---------------------------------------------------------------------
  // One entry, all entries
  // ---------------------------------------------------------------------

  function SignatureOf(r: Option<ResponseRecord>): Option<string>
  {
    if r.Some? then Some(r.value.signature) else None
  }

  function IdentityProofOf(r: Option<ResponseRecord>): Option<string>
  {
    if r.Some? then Some(r.value.identityProof) else None
  }

  function ProofHashOf(r: Option<ResponseRecord>): Option<string>
  {
    if r.Some? then Some(r.value.privateProofHash) else None
  }

  /** `signatureValid && zkProofValid` for one entry of the proof list. */
  predicate EntryValid(e: ProofEntry, rs: seq<ResponseRecord>, m: QueueMessage, v: Verifiers)
  {
    var key := v.accessorKey(e.privateProofObject.accessorId);
    var response := LastResponseOf(rs, e.idpId);
    v.verifySignature(SignatureOf(response), key, m.requestMessage) &&
    v.verifyZkProof(ZkStatement(key, m.challenge, e.privateProofObject.privateProofValue,
                                IdentityProofOf(response), m.namespace, m.identifier,
                                ProofHashOf(response), e.privateProofObject.padding))
  }

  /** The accumulator `valid = valid && ...` after the given entries. */
  predicate AllEntriesValid(es: seq<ProofEntry>, rs: seq<ResponseRecord>, m: QueueMessage, v: Verifiers)
  {
    es == [] || (AllEntriesValid(es[..|es| - 1], rs, m, v) && EntryValid(es[|es| - 1], rs, m, v))
  }

  /** The accumulated verdict holds exactly when every entry is valid: one bad entry spoils all. */
  lemma {:induction false} AllEntriesValidIff(es: seq<ProofEntry>, rs: seq<ResponseRecord>, m: QueueMessage, v: Verifiers)
    ensures AllEntriesValid(es, rs, m, v) <==> forall i :: 0 <= i < |es| ==> EntryValid(es[i], rs, m, v)
  {
    if es != [] {
      var init := es[..|es| - 1];
      AllEntriesValidIff(init, rs, m, v);
      assert forall i :: 0 <= i < |init| ==> init[i] == es[i];
    }
  }

  /** Every entry's accessor belongs to the accessor group of entry 0. */
  predicate SameAccessorGroup(es: seq<ProofEntry>, v: Verifiers)
    requires |es| > 0
  {
    forall i :: 1 <= i < |es| ==>
      v.accessorGroupId(es[i].privateProofObject.accessorId) == v.accessorGroupId(es[0].privateProofObject.accessorId)
  }

  /** What `verifyZKProof` resolves to, given the ledger's request detail. */
  function ProofSetVerdict(detail: RequestDetail, m: QueueMessage, v: Verifiers): Result<bool, VerifyError>
  {
    var es := m.privateProofObjectList;
    if detail.mode == 1 then Success(true)
    else if |es| == 0 then Failure(EmptyProofList)
    else if !SameAccessorGroup(es, v) then Success(false)
    else Success(AllEntriesValid(es, detail.responseList, m, v))
  }

  /**
   * The two loops of `verifyZKProof`: first the accessor-group conflict
   * check, which returns false at the first mismatch; then the per-entry
   * signature and zero-knowledge checks, accumulated with `&&`.
   */
  method VerifyZKProof(detail: RequestDetail, m: QueueMessage, v: Verifiers) returns (r: Result<bool, VerifyError>)
    ensures r == ProofSetVerdict(detail, m, v)
    // mode 1 bypasses every check
    ensures detail.mode == 1 ==> r == Success(true)
    // otherwise entry 0 is read, so an empty list throws
    ensures detail.mode != 1 && |m.privateProofObjectList| == 0 ==> r == Failure(EmptyProofList)
    // a group conflict fails, whatever the signatures and proofs
    ensures detail.mode != 1 && |m.privateProofObjectList| > 0 && !SameAccessorGroup(m.privateProofObjectList, v) ==>
              r == Success(false)
  {
    var list := m.privateProofObjectList;
    if detail.mode == 1 {
      return Success(true);
    }
    if |list| == 0 {
      return Failure(EmptyProofList);
    }
    var accessorGroupId := v.accessorGroupId(list[0].privateProofObject.accessorId);
    var i := 1;
    while i < |list|
      invariant 1 <= i <= |list|
      invariant forall k :: 1 <= k < i ==> v.accessorGroupId(list[k].privateProofObject.accessorId) == accessorGroupId
    {
      var otherGroupId := v.accessorGroupId(list[i].privateProofObject.accessorId);
      if otherGroupId != accessorGroupId {
        return Success(false);
      }
      i := i + 1;
    }
    var responseList := detail.responseList;
    var valid := true;
    i := 0;
    while i < |list|
      invariant 0 <= i <= |list|
      invariant valid == AllEntriesValid(list[..i], responseList, m, v)
    {
      var entry := list[i];
      var publicKey := v.accessorKey(entry.privateProofObject.accessorId);
      var response := FindResponse(responseList, entry.idpId);
      var signatureValid := v.verifySignature(SignatureOf(response), publicKey, m.requestMessage);
      var zkProofValid := v.verifyZkProof(ZkStatement(publicKey, m.challenge, entry.privateProofObject.privateProofValue,
                                                      IdentityProofOf(response), m.namespace, m.identifier,
                                                      ProofHashOf(response), entry.privateProofObject.padding));
      assert list[..i + 1][..i] == list[..i];
      valid := valid && signatureValid && zkProofValid;
      i := i + 1;
    }
    assert list[..i] == list;
    return Success(valid);
  }

  /**
   * The verdict in one statement: valid exactly under the bypass, or when
   * the list is non-empty, all accessors share entry 0's group and every
   * entry's signature and proof check out.
   */
  lemma VerdictCharacterization(detail: RequestDetail, m: QueueMessage, v: Verifiers)
    ensures ProofSetVerdict(detail, m, v) == Success(true) <==>
              detail.mode == 1 ||
              (|m.privateProofObjectList| > 0 &&
               SameAccessorGroup(m.privateProofObjectList, v) &&
               forall i :: 0 <= i < |m.privateProofObjectList| ==>
                 EntryValid(m.privateProofObjectList[i], detail.responseList, m, v))
  {
    AllEntriesValidIff(m.privateProofObjectList, detail.responseList, m, v);
  }

  /** Outside the bypass, a single failing entry makes the verdict false. */
  lemma OneFailingEntryInvalidates(detail: RequestDetail, m: QueueMessage, v: Verifiers, i: nat)
    requires detail.mode != 1
    requires i < |m.privateProofObjectList|
    requires !EntryValid(m.privateProofObjectList[i], detail.responseList, m, v)
    ensures ProofSetVerdict(detail, m, v) == Success(false)
  {
    AllEntriesValidIff(m.privateProofObjectList, detail.responseList, m, v);
  }
}
