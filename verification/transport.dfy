/** The blind-retry remote call, over an abstract network.

    The network is a script of per-attempt outcomes: attempt k of a call
    either delivers a payload or is dropped (a connection error, a timeout,
    a failure while reading the body). Attempts beyond the end of the script
    are dropped. JSON decoding is an abstract total function whose `None`
    stands for a payload that does not parse. */
module Transport {
  import opened Results
  import opened Records

  datatype Attempt = Delivered(payload: string) | Dropped

  /** The default number of retries of CallImgFlipApi. */
  const DefaultRetries: int := 3

  /** The outcome of attempt `k` of the script. */
  function AttemptAt(net: seq<Attempt>, k: nat): Attempt
  {
    if k < |net| then net[k] else Dropped
  }

  /** The most attempts a call with `retries` retries can make. */
  function Budget(retries: int): nat
  {
    if retries > 0 then retries + 1 else 1
  }

  /** What a call did: its result, the request strings it sent (the string
      given to HttpWebRequest.Create, not the parsed URI), one per attempt,
      and the part of the script it left unconsumed. */
  datatype Call = Call(result: Result<Response, ApiError>, sent: seq<string>, rest: seq<Attempt>)

  /** JsonConvert.DeserializeObject on a delivered payload: a parse failure
      escapes as Decode. */
  function Deserialize(decode: string -> Option<Response>, payload: string): (r: Result<Response, ApiError>)
    ensures r.Failure? <==> decode(payload).None?
    ensures r.Failure? ==> r.error == Decode
    ensures decode(payload).Some? ==> r == Success(decode(payload).value)
  {
    match decode(payload)
    case Some(response) => Success(response)
    case None => Failure(Decode)
  }

  /** CallImgFlipApi(queryString, retries). The transport step is guarded:
      when it fails and `retries > 0` the failure is swallowed and the whole
      call is repeated with `retries - 1`; when `retries <= 0` the failure is
      rethrown. Decoding happens after the guard, so a delivered payload is
      decoded exactly once and a decode failure is never retried.

      The contract pins the call down completely: it requests the same URL
      once per attempt until the first delivery, within the budget; the
      result is the decoded first delivery, or Transport when every attempt
      of the budget was dropped. */
  function CallImgFlipApi(url: string, retries: int, net: seq<Attempt>, decode: string -> Option<Response>): (c: Call)
    ensures 1 <= |c.sent| <= Budget(retries)
    ensures forall k :: 0 <= k < |c.sent| ==> c.sent[k] == url
    ensures forall k :: 0 <= k < |c.sent| - 1 ==> AttemptAt(net, k).Dropped?
    ensures AttemptAt(net, |c.sent| - 1).Delivered? ==>
      c.result == Deserialize(decode, AttemptAt(net, |c.sent| - 1).payload)
    ensures AttemptAt(net, |c.sent| - 1).Dropped? ==>
      |c.sent| == Budget(retries) && c.result == Failure(Transport)
    ensures c.result == Failure(Transport) ==> retries - (|c.sent| - 1) <= 0
    ensures c.result.Failure? ==> c.result.error == Transport || c.result.error == Decode
    ensures c.rest == if |c.sent| <= |net| then net[|c.sent|..] else []
    decreases if retries > 0 then retries else 0
  {
    var retry := retries > 0;
    var rest := if |net| > 0 then net[1..] else [];
    match AttemptAt(net, 0)
    case Delivered(payload) =>
      Call(Deserialize(decode, payload), [url], rest)
    case Dropped =>
      if !retry then
        Call(Failure(Transport), [url], rest)
      else
        var inner := CallImgFlipApi(url, retries - 1, rest, decode);
        assert forall k: nat :: 1 <= k ==> AttemptAt(net, k) == AttemptAt(rest, k - 1);
        Call(inner.result, [url] + inner.sent, inner.rest)
  }

  /** A call that did not end in a transport failure ends the same way with
      more retries: extra budget is only ever spent on dropped attempts. */
  lemma MoreRetriesKeepResult(url: string, retries: int, net: seq<Attempt>, decode: string -> Option<Response>)
    requires CallImgFlipApi(url, retries, net, decode).result != Failure(Transport)
    ensures CallImgFlipApi(url, retries + 1, net, decode) == CallImgFlipApi(url, retries, net, decode)
  {
    var c := CallImgFlipApi(url, retries, net, decode);
    var c' := CallImgFlipApi(url, retries + 1, net, decode);
    var n, n' := |c.sent|, |c'.sent|;
    assert AttemptAt(net, n - 1).Delivered?;
    if n' != n {
      assert false;
    }
    assert c'.sent == c.sent;
  }

  /** When every attempt but the last of the budget is dropped and the last
      delivers, the call returns that delivery decoded, having made exactly
      `Budget(retries)` requests. */
  lemma SuccessOnFinalAttempt(url: string, retries: int, net: seq<Attempt>, decode: string -> Option<Response>)
    requires forall k :: 0 <= k < Budget(retries) - 1 ==> AttemptAt(net, k).Dropped?
    requires AttemptAt(net, Budget(retries) - 1).Delivered?
    ensures var c := CallImgFlipApi(url, retries, net, decode);
      && |c.sent| == Budget(retries)
      && c.result == Deserialize(decode, AttemptAt(net, Budget(retries) - 1).payload)
  {
  }

  /** An escaped transport failure means the whole budget was dropped. */
  lemma EscapedFailureMeansAllDropped(url: string, retries: int, net: seq<Attempt>, decode: string -> Option<Response>)
    requires CallImgFlipApi(url, retries, net, decode).result == Failure(Transport)
    ensures |CallImgFlipApi(url, retries, net, decode).sent| == Budget(retries)
    ensures forall k :: 0 <= k < Budget(retries) ==> AttemptAt(net, k).Dropped?
  {
    var c := CallImgFlipApi(url, retries, net, decode);
    var n := |c.sent|;
    assert AttemptAt(net, n - 1).Dropped?;
    forall k | 0 <= k < Budget(retries)
      ensures AttemptAt(net, k).Dropped?
    {
      if k == n - 1 {
      } else {
        assert k < n - 1;
      }
    }
  }

  /** When the whole budget is dropped, the transport failure escapes. */
  lemma AllDroppedMeansEscapedFailure(url: string, retries: int, net: seq<Attempt>, decode: string -> Option<Response>)
    requires forall k :: 0 <= k < Budget(retries) ==> AttemptAt(net, k).Dropped?
    ensures CallImgFlipApi(url, retries, net, decode).result == Failure(Transport)
  {
    var c := CallImgFlipApi(url, retries, net, decode);
    assert AttemptAt(net, |c.sent| - 1).Dropped?;
  }

  /** A transport failure escapes exactly when every attempt of the budget
      is dropped; then the call has made all `Budget(retries)` requests. */
  lemma TransportFailureIffAllDropped(url: string, retries: int, net: seq<Attempt>, decode: string -> Option<Response>)
    ensures CallImgFlipApi(url, retries, net, decode).result == Failure(Transport)
        <==> forall k :: 0 <= k < Budget(retries) ==> AttemptAt(net, k).Dropped?
    ensures CallImgFlipApi(url, retries, net, decode).result == Failure(Transport)
        ==> |CallImgFlipApi(url, retries, net, decode).sent| == Budget(retries)
  {
    if CallImgFlipApi(url, retries, net, decode).result == Failure(Transport) {
      EscapedFailureMeansAllDropped(url, retries, net, decode);
    }
    if forall k :: 0 <= k < Budget(retries) ==> AttemptAt(net, k).Dropped? {
      AllDroppedMeansEscapedFailure(url, retries, net, decode);
    }
  }
}
