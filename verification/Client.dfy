/** The HTTP client's retry loop. */
module Client {
  import opened Domain
  import BackOff

  /** What one attempt meets: no connection, or a response with a status. */
  datatype Reply = Broken | Status(code: int)

  datatype Outcome = Response(code: int) | TransportFailed | SeekFailed

  /** The configured retries and waits; `tooLarge` is what an oversized float converts to here. */
  datatype Config = Config(minBackOff: int64, maxBackOff: int64, maxRetry: int, tooLarge: int64)

  predicate IsErrorResponse(code: int) {
    code >= 400
  }

  /** At least one attempt is always made. */
  function Limit(maxRetry: int): (n: nat)
    ensures n >= 1 && n >= maxRetry && (n == 1 || n == maxRetry)
  {
    if maxRetry < 1 then 1 else maxRetry
  }

  /** The first attempt from `i` on that ends the loop, when every seek works. */
  function Last(replies: nat -> Reply, i: nat, limit: nat): nat
    decreases limit - i
  {
    if i >= limit || replies(i).Broken? || !IsErrorResponse(replies(i).code) then i else Last(replies, i + 1, limit)
  }

  function OutcomeOf(r: Reply): Outcome {
    if r.Broken? then TransportFailed else Response(r.code)
  }

  /** Every attempt before the last got an error response; the last is good, broken, or the limit. */
  lemma {:induction false} LastEndsTheLoop(replies: nat -> Reply, i: nat, limit: nat)
    requires i <= limit
    ensures var n := Last(replies, i, limit);
      && i <= n <= limit
      && (forall k :: i <= k < n ==> replies(k).Status? && replies(k).code >= 400)
      && (n == limit || replies(n).Broken? || replies(n).code < 400)
    decreases limit - i
  {
    if !(i >= limit || replies(i).Broken? || !IsErrorResponse(replies(i).code)) {
      LastEndsTheLoop(replies, i + 1, limit);
    }
  }

  /** And no other attempt is such a last one. */
  lemma {:induction false} OnlyOneEnds(replies: nat -> Reply, i: nat, limit: nat, n: nat)
    requires i <= n <= limit
    requires forall k :: i <= k < n ==> replies(k).Status? && replies(k).code >= 400
    requires n == limit || replies(n).Broken? || replies(n).code < 400
    ensures n == Last(replies, i, limit)
    decreases limit - i
  {
    if i < n { OnlyOneEnds(replies, i + 1, limit, n); }
  }

  class HTTPRequest {
    const body: Option<Bytes>
    var offset: nat

    ghost predicate Valid()
      reads this
    {
      body.Some? ==> offset <= |body.value|
    }

    constructor (body: Option<Bytes>)
      ensures Valid() && this.body == body && offset == 0
    {
      this.body, this.offset := body, 0;
    }

    /** The transport reads what is left of the body. */
    method Transmit() returns (sent: Bytes)
      requires Valid()
      modifies this
      ensures Valid()
      ensures body.Some? ==> sent == body.value[old(offset)..] && offset == |body.value|
      ensures body.None? ==> sent == [] && offset == old(offset)
    {
      sent := [];
      if body.Some? {
        sent := body.value[offset..];
        offset := |body.value|;
      }
    }
  }

  class Client {
    const config: Config

    constructor (config: Config)
      ensures this.config == config
    {
      this.config := config;
    }

    /**
     * Sends the request until a response below 400 or `maxRetry` attempts. `replies(i)` is what
     * attempt `i` meets and `seeks(i)` whether the body can be rewound after it.
     */
    method Do(req: HTTPRequest, replies: nat -> Reply, seeks: nat -> bool)
      returns (outcome: Outcome, attempts: nat, sent: seq<Bytes>, waits: seq<int64>)
      requires req.Valid()
      modifies req
      ensures req.Valid()
      ensures forall k :: 1 <= k < attempts ==>
        replies(k).Status? && replies(k).code >= 400 && (req.body.Some? ==> seeks(k))
      ensures 1 <= attempts && (attempts == 1 || attempts <= config.maxRetry)
      ensures var last := replies(attempts);
        if last.Broken? then outcome == TransportFailed
        else if last.code < 400 then outcome == Response(last.code)
        else if req.body.Some? && !seeks(attempts) then outcome == SeekFailed
        else outcome == Response(last.code) && attempts >= config.maxRetry
      ensures !outcome.SeekFailed? ==> attempts == Last(replies, 1, Limit(config.maxRetry)) && outcome == OutcomeOf(replies(attempts))
      ensures |sent| == attempts
      ensures forall k :: 0 <= k < |sent| ==>
        sent[k] == if req.body.None? then [] else if k == 0 then req.body.value[old(req.offset)..] else req.body.value
      ensures forall k :: 0 <= k < |waits| ==>
        waits[k] == BackOff.BackOff(config.minBackOff, config.maxBackOff, k + 1, config.tooLarge)
      ensures |waits| == if outcome.Response? && outcome.code >= 400 then attempts else attempts - 1
    {
      var i := 1;
      var ok := true;
      attempts, sent, waits := 0, [], [];
      outcome := TransportFailed;
      while ok
        invariant req.Valid()
        invariant attempts == |sent| == |waits| == i - 1
        invariant i <= Limit(config.maxRetry) + 1
        invariant ok == (i <= Limit(config.maxRetry))
        invariant !ok ==> replies(attempts).Status? && replies(attempts).code >= 400 && outcome == Response(replies(attempts).code)
        invariant forall k :: 1 <= k < i ==> replies(k).Status? && replies(k).code >= 400 && (req.body.Some? ==> seeks(k))
        invariant i > 1 && req.body.Some? ==> req.offset == 0
        invariant i == 1 ==> req.offset == old(req.offset)
        invariant forall k :: 0 <= k < |sent| ==>
          sent[k] == if req.body.None? then [] else if k == 0 then req.body.value[old(req.offset)..] else req.body.value
        invariant forall k :: 0 <= k < |waits| ==>
          waits[k] == BackOff.BackOff(config.minBackOff, config.maxBackOff, k + 1, config.tooLarge)
        decreases Limit(config.maxRetry) + 1 - i
      {
        attempts := attempts + 1;
        var body := req.Transmit();
        sent := sent + [body];
        if replies(i).Broken? {
          OnlyOneEnds(replies, 1, Limit(config.maxRetry), attempts);
          return TransportFailed, attempts, sent, waits;
        }
        outcome := Response(replies(i).code);
        if !IsErrorResponse(replies(i).code) {
          OnlyOneEnds(replies, 1, Limit(config.maxRetry), attempts);
          return;
        }
        if req.body.Some? {
          if !seeks(i) {
            return SeekFailed, attempts, sent, waits;
          }
          req.offset := 0;
        }
        var wait := BackOff.BackOff(config.minBackOff, config.maxBackOff, i, config.tooLarge);
        waits := waits + [wait];
        i := i + 1;
        ok := i <= config.maxRetry;
      }
      OnlyOneEnds(replies, 1, Limit(config.maxRetry), attempts);
    }

    /**
     * Invoke succeeds exactly when no rewind fails, the response that ends the loop has the expected
     * status and its body, if one is wanted, can be parsed; the error carries that response's
     * status if there was a response.
     */
    method Invoke(req: HTTPRequest, replies: nat -> Reply, seeks: nat -> bool, wantsBody: bool, parses: bool, expected: int)
      returns (error: Option<int>, failed: bool, ghost attempts: nat)
      requires req.Valid()
      modifies req
      ensures forall k :: 1 <= k < attempts ==>
        replies(k).Status? && replies(k).code >= 400 && (req.body.Some? ==> seeks(k))
      ensures 1 <= attempts && (attempts == 1 || attempts <= config.maxRetry)
      ensures var last := replies(attempts);
        if last.Broken? then failed && error.None?
        else if last.code >= 400 && req.body.Some? && !seeks(attempts) then failed && error.None?
        else
          && (last.code >= 400 ==> attempts >= config.maxRetry)
          && (failed <==> last.code != expected || (wantsBody && !parses))
          && error == (if failed then Some(last.code) else None)
    {
      var outcome, n, sent, waits := Do(req, replies, seeks);
      attempts := n;
      match outcome {
        case TransportFailed => return None, true, n;
        case SeekFailed => return None, true, n;
        case Response(code) =>
          if code != expected {
            return Some(code), true, n;
          }
          if wantsBody && !parses {
            return Some(code), true, n;
          }
          return None, false, n;
      }
    }
  }
}
