/**
 * The ledger-client helpers of src/main/utils.js: the transaction nonce
 * counter, the placeholder hash, request-id construction, the payload layout
 * sent to the ledger before base64 encoding, and the decision that turns an
 * RPC reply into a result. `JSON.stringify`, base64 and `fetch` are opaque:
 * the model receives their outputs as strings or as a function.
 */
module LedgerUtils {
  import opened Wrappers
  import opened Js

  // ---------------------------------------------------------------------
  // Decimal rendering of the nonce (`Number.prototype.toString` on a
  // non-negative integer)
  // ---------------------------------------------------------------------

  function DigitChar(d: nat): char
    requires d < 10
  {
    ('0' as int + d) as char
  }

  function DigitValue(c: char): nat
  {
    if '0' <= c <= '9' then (c as int) - ('0' as int) else 0
  }

  /** The decimal form of `n`: at least one character, all of them digits. */
  function DecimalString(n: nat): (s: string)
    ensures |s| >= 1
    ensures forall i :: 0 <= i < |s| ==> '0' <= s[i] <= '9'
    decreases n
  {
    if n < 10 then [DigitChar(n)] else DecimalString(n / 10) + [DigitChar(n % 10)]
  }

  /** Reads a string of decimal digits back as a number. */
  function ParseDecimal(s: string): nat
  {
    if s == [] then 0 else ParseDecimal(s[..|s| - 1]) * 10 + DigitValue(s[|s| - 1])
  }

  /** Reading a rendered number gives the number back. */
  lemma {:induction false} DecimalRoundTrip(n: nat)
    ensures ParseDecimal(DecimalString(n)) == n
    decreases n
  {
    var s := DecimalString(n);
    if n < 10 {
      assert s[..|s| - 1] == [];
    } else {
      var prefix := DecimalString(n / 10);
      DecimalRoundTrip(n / 10);
      assert s[..|s| - 1] == prefix;
    }
  }

  /** Distinct counter values render as distinct strings. */
  lemma DecimalStringInjective(a: nat, b: nat)
    requires a != b
    ensures DecimalString(a) != DecimalString(b)
  {
    DecimalRoundTrip(a);
    DecimalRoundTrip(b);
  }

  // ---------------------------------------------------------------------
  // The nonce counter
  // ---------------------------------------------------------------------

  /** The counter's value at module load, `Date.now() % 10000`; the clock is a parameter. */
  function InitialNonce(now: nat): (n: nat)
    ensures n <= 9999
  {
    now % 10000
  }

  /**
   * The module-level `nonce` variable. The ghost set `issued` remembers every
   * string handed out so far; `Valid` says that each of them reads back as a
   * number below the current counter, which is what makes them unique.
   */
  class NonceCounter {
    var nonce: nat
    ghost var issued: set<string>

    ghost predicate Valid()
      reads this
    {
      forall s :: s in issued ==> ParseDecimal(s) < nonce
    }

    constructor (now: nat)
      ensures Valid() && issued == {}
      ensures nonce == InitialNonce(now) && nonce <= 9999
    {
      nonce := InitialNonce(now);
      issued := {};
    }

    /** `(nonce++).toString()`: the current value as a string, then the counter moves on by one. */
    method GetNonce() returns (s: string)
      requires Valid()
      modifies this
      ensures Valid()
      ensures s == DecimalString(old(nonce)) && nonce == old(nonce) + 1
      ensures s !in old(issued) && issued == old(issued) + {s}
    {
      s := DecimalString(nonce);
      DecimalRoundTrip(nonce);
      nonce := nonce + 1;
      issued := issued + {s};
    }
  }

  // ---------------------------------------------------------------------
  // Placeholder hash and request ids
  // ---------------------------------------------------------------------

  /** The placeholder `hash`: the input wrapped as `Hash(...)`. */
  function Hash(s: string): (h: string)
    ensures |h| == |s| + 6
    ensures h[..5] == "Hash(" && h[|h| - 1] == ')'
  {
    "Hash(" + s + ")"
  }

  /** The text between `Hash(` and the closing parenthesis. */
  function HashedText(h: string): string
    requires |h| >= 6
  {
    h[5..|h| - 1]
  }

  /** The wrapper is six characters long and the input can be read back out of it. */
  lemma HashRoundTrip(s: string)
    ensures |Hash(s)| == |s| + 6
    ensures HashedText(Hash(s)) == s
  {
  }

  /** Distinct inputs give distinct hashes. */
  lemma HashInjective(a: string, b: string)
    requires a != b
    ensures Hash(a) != Hash(b)
  {
    HashRoundTrip(a);
    HashRoundTrip(b);
  }

  const RequestIdPrefix: string := "Hash(Concat_with_nonce_"

  /**
   * `createRequestId`: the hash of `Concat_with_nonce_<nonce>(<base64 of the
   * JSON of data>)`; the base64 text is a parameter.
   */
  function CreateRequestId(encodedData: string, nonce: string): (id: string)
    ensures |id| == |RequestIdPrefix| + |nonce| + |encodedData| + 3
    ensures id[..|RequestIdPrefix|] == RequestIdPrefix
    ensures id[|RequestIdPrefix|..|RequestIdPrefix| + |nonce|] == nonce
    ensures id[|RequestIdPrefix| + |nonce|] == '('
  {
    var id := Hash("Concat_with_nonce_" + nonce + "(" + encodedData + ")");
    var tail := nonce + "(" + encodedData + "))";
    assert id == RequestIdPrefix + tail by {
      assert id == "Hash(" + ("Concat_with_nonce_" + nonce + "(" + encodedData + ")") + ")";
    }
    assert id[|RequestIdPrefix|..] == tail;
    assert tail[..|nonce|] == nonce;
    id
  }

  /** Two nonces free of `(` that both sit at `p` and are both closed by `(` are equal. */
  lemma DelimitedAt(id: string, p: nat, d1: string, d2: string)
    requires p + |d1| < |id| && p + |d2| < |id|
    requires id[p..p + |d1|] == d1 && id[p + |d1|] == '('
    requires id[p..p + |d2|] == d2 && id[p + |d2|] == '('
    requires '(' !in d1 && '(' !in d2
    ensures d1 == d2
  {
  }

  /** A request id determines its nonce, as long as the nonce holds no `(`. */
  lemma RequestIdDeterminesNonce(data1: string, data2: string, d1: string, d2: string)
    requires '(' !in d1 && '(' !in d2
    ensures CreateRequestId(data1, d1) == CreateRequestId(data2, d2) ==> d1 == d2
  {
    var id1, id2 := CreateRequestId(data1, d1), CreateRequestId(data2, d2);
    if id1 == id2 {
      DelimitedAt(id1, |RequestIdPrefix|, d1, d2);
    }
  }

  /**
   * Request ids built from two different counter values differ, whatever
   * data they carry: the decimal nonce holds no `(`, so the nonce can be
   * read back from the id.
   */
  lemma RequestIdsFromDistinctNoncesDiffer(data1: string, data2: string, n1: nat, n2: nat)
    requires n1 != n2
    ensures CreateRequestId(data1, DecimalString(n1)) != CreateRequestId(data2, DecimalString(n2))
  {
    var d1, d2 := DecimalString(n1), DecimalString(n2);
    DecimalStringInjective(n1, n2);
    assert '(' !in d1 && '(' !in d2;
    RequestIdDeterminesNonce(data1, data2, d1, d2);
  }

  // ---------------------------------------------------------------------
  // Payload layout of queryChain / updateChain (before base64)
  // ---------------------------------------------------------------------

  /** `fnName|json`, the query payload. */
  function QueryPayload(fnName: string, json: string): (p: string)
    ensures |p| == |fnName| + 1 + |json|
    ensures p[..|fnName|] == fnName && p[|fnName|] == '|' && p[|fnName| + 1..] == json
  {
    fnName + "|" + json
  }

  /** `fnName|json|nonce`, the transaction payload. */
  function UpdatePayload(fnName: string, json: string, nonce: string): (p: string)
    ensures |p| == |fnName| + 1 + |json| + 1 + |nonce|
    ensures p[..|fnName|] == fnName && p[|fnName|] == '|'
    ensures p[|fnName| + 1..|fnName| + 1 + |json|] == json
    ensures p[|p| - |nonce| - 1] == '|' && p[|p| - |nonce|..] == nonce
  {
    fnName + "|" + json + "|" + nonce
  }

  /** Position of the first `c` in `s`, or `|s|` when there is none. */
  function IndexOf(s: string, c: char): (k: nat)
    ensures k <= |s|
  {
    if s == [] then 0 else if s[0] == c then 0 else 1 + IndexOf(s[1..], c)
  }

  /** Position of the last `c` in `s`, or `|s|` when there is none. */
  function LastIndexOf(s: string, c: char): (k: nat)
    ensures k <= |s|
  {
    if s == [] then 0
    else if s[|s| - 1] == c then |s| - 1
    else
      var k := LastIndexOf(s[..|s| - 1], c);
      if k == |s| - 1 then |s| else k
  }

  /** Splits a query payload at its first bar into function name and JSON. */
  function ParseQueryPayload(p: string): (string, string)
  {
    var k := IndexOf(p, '|');
    if k == |p| then (p, "") else (p[..k], p[k + 1..])
  }

  /**
   * Splits a transaction payload: the function name ends at the first bar,
   * the nonce starts after the last one, the JSON is what lies between.
   */
  function ParseUpdatePayload(p: string): (string, string, string)
  {
    var (fnName, rest) := ParseQueryPayload(p);
    var k := LastIndexOf(rest, '|');
    if k == |rest| then (fnName, rest, "") else (fnName, rest[..k], rest[k + 1..])
  }

  lemma {:induction false} IndexOfAfterPrefix(f: string, c: char, t: string)
    requires c !in f
    ensures IndexOf(f + [c] + t, c) == |f|
  {
    if f != [] {
      assert (f + [c] + t)[1..] == f[1..] + [c] + t;
      IndexOfAfterPrefix(f[1..], c, t);
    }
  }

  lemma {:induction false} LastIndexOfBeforeSuffix(t: string, c: char, n: string)
    requires c !in n
    ensures LastIndexOf(t + [c] + n, c) == |t|
    decreases |n|
  {
    var s := t + [c] + n;
    if n != [] {
      assert s[..|s| - 1] == t + [c] + n[..|n| - 1];
      LastIndexOfBeforeSuffix(t, c, n[..|n| - 1]);
    }
  }

  /** A function name without a bar is recovered from the query payload, and so is the JSON. */
  lemma QueryPayloadRoundTrip(fnName: string, json: string)
    requires '|' !in fnName
    ensures ParseQueryPayload(QueryPayload(fnName, json)) == (fnName, json)
  {
    var p := QueryPayload(fnName, json);
    IndexOfAfterPrefix(fnName, '|', json);
    assert p[..|fnName|] == fnName;
    assert p[|fnName| + 1..] == json;
  }

  /**
   * When neither the function name nor the nonce holds a bar (a decimal
   * nonce never does), all three parts are recovered from the transaction
   * payload, even when the JSON itself contains bars.
   */
  lemma UpdatePayloadRoundTrip(fnName: string, json: string, nonce: string)
    requires '|' !in fnName && '|' !in nonce
    ensures ParseUpdatePayload(UpdatePayload(fnName, json, nonce)) == (fnName, json, nonce)
  {
    var p := UpdatePayload(fnName, json, nonce);
    var rest := json + "|" + nonce;
    assert p == fnName + "|" + rest;
    QueryPayloadRoundTrip(fnName, rest);
    LastIndexOfBeforeSuffix(json, '|', nonce);
    assert rest[..|json|] == json;
    assert rest[|json| + 1..] == nonce;
  }

  // ---------------------------------------------------------------------
  // retrieveResult
  // ---------------------------------------------------------------------

  /** What JavaScript throws while reading a reply. */
  datatype RpcError =
    | TypeError    // a property read on undefined/null; a non-string query value is modelled as one too
    | SyntaxError  // JSON.parse of the decoded query value failed

  /** `v.key`, which throws on `undefined` and `null`. */
  function Prop(v: JsValue, key: string): Result<JsValue, RpcError>
  {
    if v.Undefined? || v.Null? then Failure(TypeError) else Success(Get(v, key))
  }

  /**
   * `retrieveResult(obj, isQuery)`. `decodeJson` stands for
   * `JSON.parse(Buffer.from(value, 'base64').toString())`, `None` when the
   * parse throws.
   */
  function RetrieveResult(obj: JsValue, isQuery: bool, decodeJson: string -> Option<JsValue>): (r: Result<JsValue, RpcError>)
    // a truthy error is returned as it is, for queries and transactions alike
    ensures Truthy(Get(obj, "error")) ==> r == Success(Get(obj, "error"))
    // a query that succeeds yields what the decoder made of the reply's value
    ensures !Truthy(Get(obj, "error")) && isQuery && r.Success? ==>
              Get(Get(Get(obj, "result"), "response"), "value").Str? &&
              decodeJson(Get(Get(Get(obj, "result"), "response"), "value").s) == Some(r.value)
    // a query whose value is a string the decoder accepts yields the decoded value,
    // and one the decoder rejects throws the parse error
    ensures !Truthy(Get(obj, "error")) && isQuery && Get(Get(Get(obj, "result"), "response"), "value").Str? ==>
              var decoded := decodeJson(Get(Get(Get(obj, "result"), "response"), "value").s);
              (decoded.Some? ==> r == Success(decoded.value)) &&
              (decoded.None? ==> r == Failure(SyntaxError))
    // without an error and without a result object, reading the reply throws
    ensures !Truthy(Get(obj, "error")) && !Get(obj, "result").Obj? ==> r == Failure(TypeError)
    // a transaction yields true exactly when its deliver_tx log reads "success"
    ensures !Truthy(Get(obj, "error")) && !isQuery && r.Success? ==> r.value.Bool?
    ensures !Truthy(Get(obj, "error")) && !isQuery ==>
              (r == Success(Bool(true)) <==> Get(Get(Get(obj, "result"), "deliver_tx"), "log") == Str("success"))
    // a reply without a deliver_tx object throws rather than reporting a rejected transaction
    ensures !Truthy(Get(obj, "error")) && !isQuery ==>
              (r == Failure(TypeError) <==> Get(Get(obj, "result"), "deliver_tx") in {Undefined, Null}) &&
              (r.Failure? ==> r == Failure(TypeError))
  {
    var error := Get(obj, "error");
    if Truthy(error) then Success(error)
    else if isQuery then
      match Prop(obj, "result")
      case Failure(e) => Failure(e)
      case Success(result) =>
        match Prop(result, "response")
        case Failure(e) => Failure(e)
        case Success(response) =>
          match Prop(response, "value")
          case Failure(e) => Failure(e)
          case Success(value) =>
            if !value.Str? then Failure(TypeError)
            else match decodeJson(value.s)
              case None => Failure(SyntaxError)
              case Some(parsed) => Success(parsed)
    else
      match Prop(obj, "result")
      case Failure(e) => Failure(e)
      case Success(result) =>
        match Prop(result, "deliver_tx")
        case Failure(e) => Failure(e)
        case Success(deliverTx) =>
          match Prop(deliverTx, "log")
          case Failure(e) => Failure(e)
          case Success(log) => Success(Bool(log == Str("success")))
  }
}
