/** CatalogClient: one request to the catalogue API, its pacing, and what its answer is taken to mean. */
module Catalog {
  import opened Basics
  import opened RateLimiters

  /** A Retry-After header: delay-seconds, or a text that is no integer. */
  datatype Header = Seconds(n: int) | Unreadable

  /** What a body is when read as JSON; `data.get` needs an object. */
  datatype Json = Object | OtherValue | NotJson

  datatype Response = Response(status: int, retryAfter: Option<Header>, text: string, json: Json)

  /** What the network brings: a response; a transport error or timeout; or an exception of another kind. */
  datatype Reply = Arrives(response: Response) | Fails | Breaks

  const FINE := Arrives(Response(200, None, "{}", Object))

  datatype Operation = GetFileNames | DownloadStream | MarkDownloaded

  datatype ApiError =
    | RateLimited(retryAfter: int)
    | Blocked(retryAfter: int)
    | Forbidden
    | NotFound
    | ServerError(status: int)
    | HttpError              // a transport error, a timeout, or raise_for_status
    | Unparsable             // a body that should be JSON and is not
    | Unexpected             // anything else: a Retry-After that is no integer, JSON that is no object

  datatype Answer = Got(text: string) | Raises(error: ApiError)

  const DEFAULT_RETRY_AFTER := 60

  function SecondsOf(h: Option<Header>): Option<int> {
    match h
    case None => Some(DEFAULT_RETRY_AFTER)
    case Some(Seconds(n)) => Some(n)
    case Some(Unreadable) => None
  }

  /** The error a response stands for, if it does. The body of a streamed 404 has not been read. */
  function ErrorOf(op: Operation, r: Response): Option<ApiError> {
    if r.status == 429 then
      Some(match SecondsOf(r.retryAfter) case Some(n) => RateLimited(n) case None => Unexpected)
    else if r.status == 403 then
      Some(if r.retryAfter == None then Forbidden
           else match SecondsOf(r.retryAfter) case Some(n) => Blocked(n) case None => Unexpected)
    else if r.status == 404 then
      Some(if op == DownloadStream then Unexpected
           else match r.json case Object => NotFound case OtherValue => Unexpected case NotJson => Unparsable)
    else if r.status >= 500 then Some(ServerError(r.status))
    else if 200 <= r.status < 300 then None
    else Some(HttpError)
  }

  /** What a request with this reply returns or raises. */
  function Answered(op: Operation, reply: Reply): Answer {
    match reply
    case Fails => Raises(HttpError)
    case Breaks => Raises(Unexpected)
    case Arrives(r) =>
      match ErrorOf(op, r)
      case Some(e) => Raises(e)
      case None =>
        if op == DownloadStream then Got(r.text)
        else
          match r.json
          case Object => Got(r.text)
          case OtherValue => Raises(Unexpected)
          case NotJson => Raises(Unparsable)
  }

  /** A 429, and a 403 that says when to come back. */
  predicate SlowsDown(r: Response) {
    r.status == 429 || (r.status == 403 && r.retryAfter.Some?)
  }

  /** A success; its JSON has been parsed, though not yet looked into. */
  predicate SpeedsUp(op: Operation, r: Response) {
    ErrorOf(op, r) == None && (op == DownloadStream || r.json != NotJson)
  }

  /** A request that is limited or blocked slows the next one down, one that succeeds speeds it up. */
  function SignalsOf(op: Operation, reply: Reply): seq<Signal> {
    if reply.Arrives? && SpeedsUp(op, reply.response) then [Success]
    else if reply.Arrives? && SlowsDown(reply.response) then [Failure]
    else []
  }

  /** The sleeps of a call: before each request, after a fault, and after a 429. */
  datatype Nap = Pace(secs: real) | Backoff(secs: real) | Pause(secs: real, retryAfter: int)

  /** The part u of top. */
  function Share(top: real, u: real): (x: real)
    requires 0.0 <= u < 1.0
    ensures 0.0 <= x <= top || top <= x <= 0.0
    ensures u == 0.0 ==> x == 0.0
    ensures u == 0.5 ==> x + x == top
  {
    assert top * u + top * (1.0 - u) == top;
    SignOf(top, u);
    SignOf(top, 1.0 - u);
    top * u
  }

  lemma SignOf(a: real, b: real)
    requires 0.0 <= b
    ensures if a >= 0.0 then a * b >= 0.0 else a * b <= 0.0
  {
  }

  class CatalogClient {
    const limiter: AdaptiveRateLimiter
    var replies: seq<Reply>      // what the network will bring; after that every request succeeds
    var draws: seq<real>         // what random() will draw
    var temps: int               // temporary files on disk
    ghost var calls: seq<Reply>  // what the network has brought
    ghost var naps: seq<Nap>

    predicate Valid()
      reads this, limiter
    {
      limiter.InRange() && forall i :: 0 <= i < |draws| ==> 0.0 <= draws[i] < 1.0
    }

    constructor (replies: seq<Reply>, draws: seq<real>)
      requires forall i :: 0 <= i < |draws| ==> 0.0 <= draws[i] < 1.0
      ensures Valid() && fresh(limiter) && this.replies == replies && calls == [] && naps == []
      ensures limiter.delay == 1.5 && limiter.minDelay == 0.6 && limiter.maxDelay == 10.0
    {
      this.limiter := new AdaptiveRateLimiter();
      this.replies, this.draws, temps, calls, naps := replies, draws, 0, [], [];
    }

    method Sleep(nap: Nap)
      modifies this`naps
      ensures naps == old(naps) + [nap]
    {
      naps := naps + [nap];
    }

    /** random.uniform(0, top) */
    method Uniform(top: real) returns (x: real)
      requires Valid()
      modifies this`draws
      ensures Valid() && (0.0 <= x <= top || top <= x <= 0.0)
      ensures x == Share(top, if old(draws) == [] then 0.0 else old(draws)[0])
      ensures draws == if old(draws) == [] then [] else old(draws)[1..]
    {
      x := Share(top, 0.0);
      if draws != [] {
        x := Share(top, draws[0]);
        draws := draws[1..];
      }
    }

    method HandleErrors(op: Operation, r: Response) returns (e: Option<ApiError>)
      requires limiter.InRange()
      modifies limiter
      ensures e == ErrorOf(op, r) && limiter.InRange()
      ensures limiter.delay ==
        if SlowsDown(r) then Adjusted(old(limiter.delay), Failure, limiter.minDelay, limiter.maxDelay)
        else old(limiter.delay)
    {
      if r.status == 429 {
        limiter.OnFailure();
        var seconds := SecondsOf(r.retryAfter);
        return if seconds.Some? then Some(RateLimited(seconds.value)) else Some(Unexpected);
      }
      if r.status == 403 {
        if r.retryAfter.Some? {
          limiter.OnFailure();
          var seconds := SecondsOf(r.retryAfter);
          return if seconds.Some? then Some(Blocked(seconds.value)) else Some(Unexpected);
        }
        return Some(Forbidden);
      }
      if r.status == 404 {
        if op == DownloadStream {
          return Some(Unexpected);
        }
        match r.json {
        case Object => return Some(NotFound);
        case OtherValue => return Some(Unexpected);
        case NotJson => return Some(Unparsable);
        }
      }
      if r.status >= 500 {
        return Some(ServerError(r.status));
      }
      return if 200 <= r.status < 300 then None else Some(HttpError);   // raise_for_status
    }

    /** _request_get_file_names, _request_download_stream, _request_mark_downloaded */
    method Request(op: Operation) returns (a: Answer)
      requires Valid()
      modifies this`replies, this`calls, this`naps, this`temps, limiter
      ensures Valid()
      ensures
        var reply := if old(replies) == [] then FINE else old(replies)[0];
        && a == Answered(op, reply) && calls == old(calls) + [reply]
        && limiter.delay == AdjustedAll(old(limiter.delay), SignalsOf(op, reply), limiter.minDelay, limiter.maxDelay)
      ensures replies == if old(replies) == [] then [] else old(replies)[1..]
      ensures naps == old(naps) + [Pace(old(limiter.delay))]
      ensures temps == old(temps) + if op == DownloadStream && a.Got? then 1 else 0
    {
      AdjustedOnce(limiter.delay, limiter.minDelay, limiter.maxDelay);
      Sleep(Pace(limiter.delay));
      if op == DownloadStream {
        temps := temps + 1;
      }
      var reply := FINE;
      if replies != [] {
        reply, replies := replies[0], replies[1..];
      }
      calls := calls + [reply];
      match reply {
      case Fails =>
        a := Raises(HttpError);
      case Breaks =>
        a := Raises(Unexpected);
      case Arrives(r) =>
        var e := HandleErrors(op, r);
        if e.Some? {
          a := Raises(e.value);
        } else if op != DownloadStream && r.json == NotJson {
          a := Raises(Unparsable);
        } else {
          limiter.OnSuccess();
          a := if op == DownloadStream || r.json == Object then Got(r.text) else Raises(Unexpected);
        }
      }
      if op == DownloadStream && a.Raises? {
        temps := temps - 1;
      }
    }
  }
}
