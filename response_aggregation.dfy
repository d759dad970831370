/**
 * `getResponseDetails` of src/core/as.js: one pass over the ledger's
 * response list that collects every signature and the largest assurance
 * levels, both starting at 0.
 */
module ResponseAggregation {
  import opened AsTypes

  datatype Level = Aal | Ial

  function LevelOf(r: ResponseRecord, level: Level): real
  {
    match level
    case Aal => r.aal
    case Ial => r.ial
  }

  /** The signatures of the responses, in list order. */
  function Signatures(rs: seq<ResponseRecord>): seq<string>
  {
    seq(|rs|, i requires 0 <= i < |rs| => rs[i].signature)
  }

  /**
   * The running maximum of the forEach: it starts at 0 and is replaced by a
   * response's level only when that level is strictly greater.
   */
  function MaxLevel(rs: seq<ResponseRecord>, level: Level): real
  {
    if rs == [] then 0.0
    else
      var m := MaxLevel(rs[..|rs| - 1], level);
      if LevelOf(rs[|rs| - 1], level) > m then LevelOf(rs[|rs| - 1], level) else m
  }

  /** The details the pipeline sends on to the attribute source. */
  function Aggregate(rs: seq<ResponseRecord>): ResponseDetails
  {
    ResponseDetails(Signatures(rs), MaxLevel(rs, Aal), MaxLevel(rs, Ial))
  }

  /** The loop of `getResponseDetails` over an already fetched response list. */
  method GetResponseDetails(responseList: seq<ResponseRecord>) returns (d: ResponseDetails)
    ensures d == Aggregate(responseList)
    ensures |d.signatures| == |responseList|
    ensures forall i :: 0 <= i < |responseList| ==> d.signatures[i] == responseList[i].signature
  {
    var signatures: seq<string> := [];
    var maxIal: real := 0.0;
    var maxAal: real := 0.0;
    var i := 0;
    while i < |responseList|
      invariant 0 <= i <= |responseList|
      invariant signatures == Signatures(responseList[..i])
      invariant maxAal == MaxLevel(responseList[..i], Aal)
      invariant maxIal == MaxLevel(responseList[..i], Ial)
    {
      var response := responseList[i];
      assert responseList[..i + 1][..i] == responseList[..i];
      signatures := signatures + [response.signature];
      if response.aal > maxAal { maxAal := response.aal; }
      if response.ial > maxIal { maxIal := response.ial; }
      i := i + 1;
    }
    assert responseList[..i] == responseList;
    d := ResponseDetails(signatures, maxAal, maxIal);
  }

  /** The maximum is at least 0 and at least every response's level. */
  lemma {:induction false} MaxLevelIsUpperBound(rs: seq<ResponseRecord>, level: Level)
    ensures MaxLevel(rs, level) >= 0.0
    ensures forall i :: 0 <= i < |rs| ==> LevelOf(rs[i], level) <= MaxLevel(rs, level)
  {
    if rs != [] {
      MaxLevelIsUpperBound(rs[..|rs| - 1], level);
      forall i | 0 <= i < |rs| - 1
        ensures LevelOf(rs[i], level) <= MaxLevel(rs, level)
      {
        assert rs[i] == rs[..|rs| - 1][i];
      }
    }
  }

  /** The maximum is the initial 0 or the level of some response. */
  lemma {:induction false} MaxLevelIsAttained(rs: seq<ResponseRecord>, level: Level)
    ensures MaxLevel(rs, level) == 0.0 ||
            exists i :: 0 <= i < |rs| && LevelOf(rs[i], level) == MaxLevel(rs, level)
  {
    if rs != [] {
      var init := rs[..|rs| - 1];
      MaxLevelIsAttained(init, level);
      if MaxLevel(rs, level) != LevelOf(rs[|rs| - 1], level) && MaxLevel(rs, level) != 0.0 {
        var i :| 0 <= i < |init| && LevelOf(init[i], level) == MaxLevel(init, level);
        assert rs[i] == init[i];
      }
    }
  }

  /** Permuting the response list leaves both maxima unchanged. */
  lemma MaxLevelPermutationInvariant(rs1: seq<ResponseRecord>, rs2: seq<ResponseRecord>, level: Level)
    requires multiset(rs1) == multiset(rs2)
    ensures MaxLevel(rs1, level) == MaxLevel(rs2, level)
  {
    MaxLevelIsUpperBound(rs1, level);
    MaxLevelIsUpperBound(rs2, level);
    MaxLevelIsAttained(rs1, level);
    MaxLevelIsAttained(rs2, level);
    var m1, m2 := MaxLevel(rs1, level), MaxLevel(rs2, level);
    if m1 != 0.0 {
      var i :| 0 <= i < |rs1| && LevelOf(rs1[i], level) == m1;
      assert rs1[i] in multiset(rs2);
      var j :| 0 <= j < |rs2| && rs2[j] == rs1[i];
    }
    if m2 != 0.0 {
      var j :| 0 <= j < |rs2| && LevelOf(rs2[j], level) == m2;
      assert rs2[j] in multiset(rs1);
      var i :| 0 <= i < |rs1| && rs1[i] == rs2[j];
    }
  }

  lemma SignaturesOfConcat(a: seq<ResponseRecord>, b: seq<ResponseRecord>)
    ensures Signatures(a + b) == Signatures(a) + Signatures(b)
  {
  }

  /** Permuting the response list permutes the signatures: the same multiset comes out. */
  lemma {:induction false} SignaturesPermutationInvariant(rs1: seq<ResponseRecord>, rs2: seq<ResponseRecord>)
    requires multiset(rs1) == multiset(rs2)
    ensures multiset(Signatures(rs1)) == multiset(Signatures(rs2))
    decreases |rs1|
  {
    if rs1 == [] {
      assert |rs2| == |multiset(rs2)| == 0;
    } else {
      var n := |rs1| - 1;
      var x := rs1[n];
      assert rs1 == rs1[..n] + [x];
      assert x in multiset(rs2);
      var j :| 0 <= j < |rs2| && rs2[j] == x;
      var rest := rs2[..j] + rs2[j + 1..];
      assert rs2 == rs2[..j] + [x] + rs2[j + 1..];
      assert multiset(rs2) == multiset(rs2[..j]) + multiset([x]) + multiset(rs2[j + 1..]);
      assert multiset(rs1) == multiset(rs1[..n]) + multiset([x]);
      assert multiset(rest) == multiset(rs2[..j]) + multiset(rs2[j + 1..]);
      assert multiset(rest) == multiset(rs2) - multiset{x};
      assert multiset(rs1[..n]) == multiset(rs1) - multiset{x};
      SignaturesPermutationInvariant(rs1[..n], rest);
      SignaturesOfConcat(rs1[..n], [x]);
      SignaturesOfConcat(rs2[..j], rs2[j + 1..]);
      SignaturesOfConcat(rs2[..j] + [x], rs2[j + 1..]);
      SignaturesOfConcat(rs2[..j], [x]);
    }
  }

  /** Order independence of the whole aggregate, as far as order can be forgotten. */
  lemma AggregatePermutationInvariant(rs1: seq<ResponseRecord>, rs2: seq<ResponseRecord>)
    requires multiset(rs1) == multiset(rs2)
    ensures Aggregate(rs1).maxAal == Aggregate(rs2).maxAal
    ensures Aggregate(rs1).maxIal == Aggregate(rs2).maxIal
    ensures multiset(Aggregate(rs1).signatures) == multiset(Aggregate(rs2).signatures)
  {
    MaxLevelPermutationInvariant(rs1, rs2, Aal);
    MaxLevelPermutationInvariant(rs1, rs2, Ial);
    SignaturesPermutationInvariant(rs1, rs2);
  }
}
