/**
 * The height-gated pending-message store of src/core/as.js: messages from
 * the queue wait, keyed by request id and bucketed by the ledger height they
 * name, until a new block header shows the ledger has caught up; then each
 * waiting request is checked, verified and dispatched.
 *
 * The durable store (`db`) is modelled by the two maps of `Store`.
 * `common.checkRequestIntegrity` and the ledger are collaborators given in an
 * `Environment`. Dispatching, i.e. calling `getDataAndSendBackToRP`, is the
 * `Dispatched` outcome carrying its two arguments.
 */
module PendingStore {
  import opened Wrappers
  import opened AsTypes
  import opened ResponseAggregation
  import opened ProofVerification

  /** The collaborators of the two handlers. */
  datatype Environment = Environment(
    // `common.checkRequestIntegrity(requestId, message)`; the message is
    // undefined when the store no longer holds it
    checkRequestIntegrity: (RequestId, Option<QueueMessage>) -> bool,
    // `tendermintNdid.getRequestDetail`
    requestDetail: RequestId -> RequestDetail,
    verifiers: Verifiers)

  datatype DropReason = IntegrityCheckFailed | ProofInvalid

  datatype FailReason =
    | MessageMissing   // verifyZKProof destructures an undefined message
    | ProofListEmpty   // verifyZKProof reads entry 0 of an empty list

  /** What became of one request. */
  datatype Outcome =
    | Buffered
    | Dropped(reason: DropReason)       // the silent, fail-closed drop
    | Failed(failure: FailReason)       // the handler threw
    | Dispatched(request: QueueMessage, details: ResponseDetails)

  /** The processing steps shared by both handlers: integrity check, verification, dispatch. */
  function Process(env: Environment, id: RequestId, stored: Option<QueueMessage>): Outcome
  {
    if !env.checkRequestIntegrity(id, stored) then Dropped(IntegrityCheckFailed)
    else match stored
      case None => Failed(MessageMissing)
      case Some(m) =>
        var detail := env.requestDetail(id);
        match ProofSetVerdict(detail, m, env.verifiers)
        case Failure(_) => Failed(ProofListEmpty)
        case Success(false) => Dropped(ProofInvalid)
        case Success(true) => Dispatched(m, Aggregate(detail.responseList))
  }

  /**
   * A request is dispatched exactly when its message is there, it passes the
   * integrity check, and either the request is in mode 1 or every proof
   * entry shares one accessor group and passes both checks; it is then
   * dispatched with the aggregate of the ledger's responses.
   */
  lemma DispatchedIff(env: Environment, id: RequestId, stored: Option<QueueMessage>)
    ensures Process(env, id, stored).Dispatched? <==>
              stored.Some? && env.checkRequestIntegrity(id, stored) &&
              (env.requestDetail(id).mode == 1 ||
               (|stored.value.privateProofObjectList| > 0 &&
                SameAccessorGroup(stored.value.privateProofObjectList, env.verifiers) &&
                forall i :: 0 <= i < |stored.value.privateProofObjectList| ==>
                  EntryValid(stored.value.privateProofObjectList[i], env.requestDetail(id).responseList,
                             stored.value, env.verifiers)))
    ensures Process(env, id, stored).Dispatched? ==>
              Process(env, id, stored) == Dispatched(stored.value, Aggregate(env.requestDetail(id).responseList))
  {
    if stored.Some? {
      VerdictCharacterization(env.requestDetail(id), stored.value, env.verifiers);
    }
  }

  /** `processRequest`: the steps of `Process`, running the verifier and the aggregator. */
  method ProcessRequest(env: Environment, id: RequestId, stored: Option<QueueMessage>) returns (outcome: Outcome)
    ensures outcome == Process(env, id, stored)
    ensures outcome.Dispatched? ==> stored.Some? && outcome.request == stored.value
  {
    var valid := env.checkRequestIntegrity(id, stored);
    if !valid {
      return Dropped(IntegrityCheckFailed);
    }
    if stored.None? {
      return Failed(MessageMissing);
    }
    var detail := env.requestDetail(id);
    var verdict := VerifyZKProof(detail, stored.value, env.verifiers);
    if verdict.Failure? {
      return Failed(ProofListEmpty);
    }
    if !verdict.value {
      return Dropped(ProofInvalid);
    }
    var details := GetResponseDetails(detail.responseList);
    return Dispatched(stored.value, details);
  }

  // ---------------------------------------------------------------------
  // The height range of a new block header
  // ---------------------------------------------------------------------

  /**
   * `fromHeight`: 1 when the client gives no missed-block count, one block
   * back when none were missed, and `missingBlockCount` blocks back otherwise.
   */
  function FromHeight(height: int, missingBlockCount: Option<int>): (from: int)
    // with a count, the range is never empty ...
    ensures missingBlockCount.Some? && missingBlockCount.value >= 0 ==> from <= ToHeight(height)
    // ... it is the single previous height when nothing was missed ...
    ensures missingBlockCount == Some(0) ==> from == ToHeight(height)
    // ... and otherwise spans exactly as many heights as were missed
    ensures missingBlockCount.Some? && missingBlockCount.value > 0 ==>
              ToHeight(height) - from + 1 == missingBlockCount.value
    // without a count, every height from 1 is covered
    ensures missingBlockCount.None? ==> from == 1
  {
    match missingBlockCount
    case None => 1
    case Some(count) => if count == 0 then height - 1 else height - count
  }

  /** `toHeight`: the block before the new one, whose data the new block finalizes. */
  function ToHeight(height: int): (to: int)
    // the header's own height is not drained yet; the block before it is
    ensures to < height && to + 1 >= height
  {
    height - 1
  }

  // ---------------------------------------------------------------------
  // The store's state as maps, and what the handlers do to it
  // ---------------------------------------------------------------------

  /** `addRequestIdExpectedInBlock(height, id)`. */
  function AddToBucket(buckets: map<int, set<RequestId>>, height: int, id: RequestId): map<int, set<RequestId>>
  {
    buckets[height := (if height in buckets then buckets[height] else {}) + {id}]
  }

  /** `getRequestIdsExpectedInBlock(from, to)`: every id bucketed at a height in the range. */
  function ExpectedIds(buckets: map<int, set<RequestId>>, from: int, to: int): set<RequestId>
  {
    set h, id | h in buckets && from <= h <= to && id in buckets[h] :: id
  }

  /** `removeRequestIdsExpectedInBlock(from, to)`. */
  function RemoveRange(buckets: map<int, set<RequestId>>, from: int, to: int): map<int, set<RequestId>>
  {
    map h | h in buckets && !(from <= h <= to) :: buckets[h]
  }

  /** The ids of a block event whose messages are removed: all but those whose handler threw. */
  function Settled(outcomes: map<RequestId, Outcome>): set<RequestId>
  {
    set id | id in outcomes && !outcomes[id].Failed?
  }

  /** Recording one more outcome settles its id too, unless its handler threw. */
  lemma SettledAfter(outcomes: map<RequestId, Outcome>, id: RequestId, outcome: Outcome)
    requires id !in outcomes
    ensures Settled(outcomes[id := outcome]) == if outcome.Failed? then Settled(outcomes) else Settled(outcomes) + {id}
  {
  }

  /** Once a range has been removed, draining it again yields nothing. */
  lemma RemovedRangeDrainsEmpty(buckets: map<int, set<RequestId>>, from: int, to: int)
    ensures ExpectedIds(RemoveRange(buckets, from, to), from, to) == {}
  {
  }

  /** A buffered id is drained by every range that covers its height. */
  lemma {:induction false} BufferedIdIsExpected(buckets: map<int, set<RequestId>>, height: int, id: RequestId, from: int, to: int)
    requires from <= height <= to
    ensures id in ExpectedIds(AddToBucket(buckets, height, id), from, to)
  {
    var b := AddToBucket(buckets, height, id);
    assert height in b && id in b[height];
  }

  /**
   * The pending-message part of the durable store: `messages` is the
   * request-id to message table, `buckets` the height to request-ids table.
   */
  class Store {
    var messages: map<RequestId, QueueMessage>
    var buckets: map<int, set<RequestId>>

    constructor ()
      ensures messages == map[] && buckets == map[]
    {
      messages := map[];
      buckets := map[];
    }

    /**
     * `handleMessageFromQueue`: buffer the message while the latest known
     * height is at most the message's height, otherwise process it at once
     * and leave the store alone.
     */
    method HandleMessageFromQueue(message: QueueMessage, latestBlockHeight: int, env: Environment) returns (outcome: Outcome)
      modifies this
      ensures latestBlockHeight <= message.height ==>
                outcome == Buffered &&
                messages == old(messages)[message.requestId := message] &&
                buckets == AddToBucket(old(buckets), message.height, message.requestId)
      ensures message.height < latestBlockHeight ==>
                outcome == Process(env, message.requestId, Some(message)) &&
                messages == old(messages) && buckets == old(buckets)
    {
      if latestBlockHeight <= message.height {
        messages := messages[message.requestId := message];
        buckets := AddToBucket(buckets, message.height, message.requestId);
        return Buffered;
      }
      outcome := ProcessRequest(env, message.requestId, Some(message));
    }

    /**
     * `handleTendermintNewBlockHeaderEvent`: drain the ids expected in
     * `[fromHeight, toHeight]`, process each with its stored message, remove
     * each message whose handler did not throw, and then remove the range's
     * buckets, which does not happen when any handler threw (the awaited
     * `Promise.all` rejects first).
     */
    method HandleNewBlockHeader(height: int, missingBlockCount: Option<int>, env: Environment)
      returns (outcomes: map<RequestId, Outcome>)
      modifies this
      ensures var from, to := FromHeight(height, missingBlockCount), ToHeight(height);
              outcomes.Keys == ExpectedIds(old(buckets), from, to)
      ensures forall id :: id in outcomes ==> outcomes[id] == Process(env, id, Lookup(old(messages), id))
      // every drained request is removed, verified or not, unless its handler threw
      ensures messages == old(messages) - Settled(outcomes)
      ensures forall id :: id in outcomes && !outcomes[id].Failed? ==> id !in messages
      ensures var from, to := FromHeight(height, missingBlockCount), ToHeight(height);
              buckets == if Settled(outcomes) == outcomes.Keys then RemoveRange(old(buckets), from, to) else old(buckets)
      // so when nothing threw, the same range drains nothing a second time
      ensures var from, to := FromHeight(height, missingBlockCount), ToHeight(height);
              Settled(outcomes) == outcomes.Keys ==> ExpectedIds(buckets, from, to) == {}
    {
      var from, to := FromHeight(height, missingBlockCount), ToHeight(height);
      var ids := ExpectedIds(buckets, from, to);
      outcomes := map[];
      var anyFailed := false;
      var remaining := ids;
      while remaining != {}
        invariant remaining <= ids
        invariant outcomes.Keys == ids - remaining
        invariant forall id :: id in outcomes ==> outcomes[id] == Process(env, id, Lookup(old(messages), id))
        invariant messages == old(messages) - Settled(outcomes)
        invariant buckets == old(buckets)
        invariant anyFailed <==> Settled(outcomes) != outcomes.Keys
        decreases remaining
      {
        var id :| id in remaining;
        assert id !in outcomes;
        var stored := Lookup(messages, id);
        assert stored == Lookup(old(messages), id);
        var outcome := ProcessRequest(env, id, stored);
        SettledAfter(outcomes, id, outcome);
        outcomes := outcomes[id := outcome];
        if outcome.Failed? {
          anyFailed := true;
        } else {
          messages := messages - {id};
        }
        remaining := remaining - {id};
      }
      if !anyFailed {
        buckets := RemoveRange(buckets, from, to);
        RemovedRangeDrainsEmpty(old(buckets), from, to);
      }
    }
  }

  /**
   * At-most-once dispatch: the same range drained twice, as happens when a
   * handler threw and the range's buckets stayed, dispatches nothing the
   * second time, since every request settled by the first drain has lost
   * its message and one whose handler threw never got dispatched.
   */
  method DrainTwice(s: Store, height: int, missingBlockCount: Option<int>, env: Environment)
    returns (first: map<RequestId, Outcome>, second: map<RequestId, Outcome>)
    modifies s
    ensures forall id :: id in second ==> !second[id].Dispatched?
  {
    first := s.HandleNewBlockHeader(height, missingBlockCount, env);
    ghost var between := s.messages;
    second := s.HandleNewBlockHeader(height, missingBlockCount, env);
    forall id | id in second
      ensures !second[id].Dispatched?
    {
      DispatchedIff(env, id, Lookup(between, id));
    }
  }

  /** A message in mode 1 whose proofs are never looked at. */
  function SampleMessage(id: RequestId, height: int): QueueMessage
  {
    QueueMessage(id, height, Some("rp1"), "bank_statement", "citizen_id", "1234", Js.Null, Js.Num(1.0),
                 "please share", "challenge", [])
  }

  /**
   * Buffered at height 100 while the ledger is at 99, then drained and
   * dispatched by the header of block 101 with no missed blocks; a second
   * header over the same range finds nothing.
   */
  method BufferThenDrainScenario()
  {
    var env := Environment((id, m) => true, id => RequestDetail(1, []),
                           Verifiers(a => "group", a => "key", (s, k, t) => false, z => false));
    var store := new Store();
    var r1 := SampleMessage("r1", 100);
    var o := store.HandleMessageFromQueue(r1, 99, env);
    assert o == Buffered;
    assert ExpectedIds(store.buckets, 100, 100) == {"r1"} by {
      BufferedIdIsExpected(map[], 100, "r1", 100, 100);
    }
    var outcomes := store.HandleNewBlockHeader(101, Some(0), env);
    assert outcomes.Keys == {"r1"};
    assert outcomes["r1"] == Dispatched(r1, ResponseDetails([], 0.0, 0.0));
    assert "r1" !in store.messages;
    var again := store.HandleNewBlockHeader(101, Some(0), env);
    assert again == map[];
  }

  /**
   * The same request id delivered twice with different heights sits in two
   * buckets. Draining the first bucket processes the later message and
   * removes it, and leaves the id in the second bucket with no message.
   */
  method RedeliveryScenario()
  {
    var env := Environment((id: RequestId, m: Option<QueueMessage>) => m.Some?, id => RequestDetail(1, []),
                           Verifiers(a => "group", a => "key", (s, k, t) => false, z => false));
    var store := new Store();
    var first, second := SampleMessage("r1", 100), SampleMessage("r1", 105);
    var o := store.HandleMessageFromQueue(first, 99, env);
    o := store.HandleMessageFromQueue(second, 99, env);
    assert "r1" in store.buckets[100] && "r1" in store.buckets[105];
    assert ExpectedIds(store.buckets, 100, 100) == {"r1"};
    var outcomes := store.HandleNewBlockHeader(101, Some(0), env);
    assert outcomes["r1"] == Dispatched(second, ResponseDetails([], 0.0, 0.0));
    assert "r1" !in store.messages && 105 in store.buckets && "r1" in store.buckets[105];
    assert ExpectedIds(store.buckets, 105, 105) == {"r1"};
    outcomes := store.HandleNewBlockHeader(106, Some(0), env);
    assert outcomes["r1"] == Dropped(IntegrityCheckFailed);
  }
}
