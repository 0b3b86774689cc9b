/**
 * The Fansly API client (`src/fansly.py`): the bounded retry loop with exponential backoff
 * around every request, and the extraction of a channel's stream record. The reply to the
 * n-th request (counting from 0) is an input, and so are the waits: `sleeps` lists them.
 */
module Fansly {
  import opened Wrappers

  /** What the n-th request brings back. */
  datatype Reply<J> =
    | Json(body: J)                         // a status below 400 with a JSON body
    | Throttled(retryAfter: Option<real>)   // status 429, with its `Retry-After` header if sent
    | Failed(error: string)                 // an `aiohttp.ClientError`: network error or status >= 400
    | Crashed(error: string)                // any other exception, which the loop does not catch

  /** `2^k`. */
  function Pow2(k: nat): (r: real)
    ensures r >= 1.0
  {
    if k == 0 then 1.0 else 2.0 * Pow2(k - 1)
  }

  function Max0(n: int): nat { if n < 0 then 0 else n }

  /** The wait after the k-th request when it was retried: the current delay, or `Retry-After`. */
  function Wait<J>(reply: Reply<J>, initialDelay: real, k: nat): real {
    if reply.Throttled? && reply.retryAfter.Some? then reply.retryAfter.value else initialDelay * Pow2(k)
  }

  /**
   * `fetch_api(endpoint, max_retries, initial_delay)`. A 429 or a client error is retried after
   * a wait while fewer than `max_retries` retries were made; once they are used up the error is
   * raised. The delay doubles after every retry on either path.
   */
  method FetchApi<J>(maxRetries: int, initialDelay: real, replies: nat -> Reply<J>)
    returns (r: Result<J>, requests: nat, sleeps: seq<real>)
    ensures 1 <= requests <= Max0(maxRetries) + 1
    ensures |sleeps| == requests - 1
    ensures forall k :: 0 <= k < requests - 1 ==> replies(k).Throttled? || replies(k).Failed?
    ensures forall k :: 0 <= k < requests - 1 ==> sleeps[k] == Wait(replies(k), initialDelay, k)
    ensures r.Ok? <==> replies(requests - 1).Json?
    ensures r.Ok? ==> r.value == replies(requests - 1).body
    ensures replies(requests - 1).Crashed? ==> r == Err(replies(requests - 1).error)
    ensures (replies(requests - 1).Throttled? || replies(requests - 1).Failed?) ==> requests == Max0(maxRetries) + 1
  {
    var retryCount: nat := 0;
    var delay := initialDelay;
    sleeps := [];
    while true
      invariant retryCount <= Max0(maxRetries)
      invariant delay == initialDelay * Pow2(retryCount)
      invariant |sleeps| == retryCount
      invariant forall k :: 0 <= k < retryCount ==> replies(k).Throttled? || replies(k).Failed?
      invariant forall k :: 0 <= k < retryCount ==> sleeps[k] == Wait(replies(k), initialDelay, k)
      decreases Max0(maxRetries) - retryCount
    {
      var reply := replies(retryCount);
      match reply {
        case Json(body) =>
          return Ok(body), retryCount + 1, sleeps;
        case Crashed(e) =>
          return Err(e), retryCount + 1, sleeps;
        case Throttled(retryAfter) =>
          if retryCount >= maxRetries {
            // `raise_for_status` raises a client error, which the handler re-raises; the text is
            // schematic (aiohttp's also names the request URL)
            return Err("429, message='Too Many Requests'"), retryCount + 1, sleeps;
          }
          var wait := if retryAfter.Some? then retryAfter.value else delay;
          sleeps := sleeps + [wait];
          retryCount := retryCount + 1;
          delay := delay * 2.0;
        case Failed(e) =>
          if retryCount >= maxRetries {
            return Err(e), retryCount + 1, sleeps;
          }
          sleeps := sleeps + [delay];
          retryCount := retryCount + 1;
          delay := delay * 2.0;
      }
    }
  }

  /** Every wait on the error path is the initial delay times a power of two, growing each time. */
  lemma {:induction false} BackoffDoubles(initialDelay: real, j: nat, k: nat)
    requires initialDelay > 0.0 && j < k
    ensures initialDelay * Pow2(j) < initialDelay * Pow2(k)
    decreases k
  {
    if j < k - 1 {
      BackoffDoubles(initialDelay, j, k - 1);
    }
  }

  /** The part of a stream record the monitor reads: `access` and `playbackUrl`. */
  datatype Stream = Stream(access: bool, playbackUrl: Option<string>)

  /** `{}`: no access, no playback URL. */
  const EmptyStream := Stream(false, None)

  /** The channel reply: its `success` flag and `response.stream`, if both keys are there. */
  datatype ChannelReply = ChannelReply(success: bool, stream: Option<Stream>)

  /**
   * `fetch_stream_data(user_id)`: the stream record of a successful reply, `{}` when it has
   * none or the reply is not a success; errors of `fetch_api` propagate. `requests` counts the
   * requests `fetch_api` made.
   */
  method FetchStreamData(maxRetries: int, initialDelay: real, replies: nat -> Reply<ChannelReply>)
    returns (r: Result<Stream>, requests: nat)
    ensures 1 <= requests <= Max0(maxRetries) + 1
    ensures r.Err? <==> !replies(requests - 1).Json?
    ensures r.Ok? ==> r == StreamOf(Ok(replies(requests - 1).body))
  {
    var response, n, _ := FetchApi(maxRetries, initialDelay, replies);
    requests := n;
    if response.Err? {
      return Err(response.error), requests;
    }
    if response.value.success {
      r := Ok(response.value.stream.GetOr(EmptyStream));
    } else {
      r := Ok(EmptyStream);
    }
  }

  /** `fetch_stream_data` as a function of the reply `fetch_api` returned. */
  function StreamOf(response: Result<ChannelReply>): (r: Result<Stream>)
    ensures r.Err? <==> response.Err?
    ensures r.Ok? && !response.value.success ==> r.value == EmptyStream
    ensures r.Ok? && response.value.success && response.value.stream.Some? ==> r.value == response.value.stream.value
    ensures r.Ok? && response.value.success && response.value.stream.None? ==> r.value == EmptyStream
  {
    match response
    case Err(e) => Err(e)
    case Ok(reply) => Ok(if reply.success then reply.stream.GetOr(EmptyStream) else EmptyStream)
  }
}
