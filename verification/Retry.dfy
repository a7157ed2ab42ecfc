/** AsyncRetryExecutor: one logical call, with one budget for rate limits and another for faults. */
module Retry {
  import opened Basics
  import opened RateLimiters
  import opened Catalog

  predicate Retryable(e: ApiError) {
    e.HttpError? || e.ServerError?
  }

  predicate IsLimit(a: Answer) {
    a.Raises? && a.error.RateLimited?
  }

  predicate IsFault(a: Answer) {
    a.Raises? && Retryable(a.error)
  }

  /**
   * Exactly which replies are retried: a 429 unless its Retry-After is no integer, for which a missing header
   * counts as 60 seconds; a transport error; and every other status that is not a success, a 403 or a 404. What
   * is no answer and not retried ends the call, with the error its status, header and body call for; a block lasts
   * as long as its header says. The limiter speeds up exactly on a 2xx whose JSON, where needed,
   * could be parsed.
   */
  lemma WhatIsRetried(op: Operation, reply: Reply)
    ensures
      var a := Answered(op, reply);
      match reply
      case Fails => IsFault(a) && SignalsOf(op, reply) == []
      case Breaks => a == Raises(Unexpected) && SignalsOf(op, reply) == []
      case Arrives(r) =>
        var ok := 200 <= r.status < 300;
        && (IsLimit(a) <==> r.status == 429 && r.retryAfter != Some(Unreadable))
        && (IsLimit(a) ==> a.error.retryAfter == if r.retryAfter == None then 60 else r.retryAfter.value.n)
        && (IsFault(a) <==> !ok && r.status !in {403, 404, 429})
        && (a.Got? <==> ok && (op == DownloadStream || r.json == Object))
        && (a.Got? ==> a.text == r.text)
        && (a.Raises? && a.error.Blocked? <==> r.status == 403 && r.retryAfter.Some? && r.retryAfter.value.Seconds?)
        && (a.Raises? && a.error.Blocked? ==> a.error.retryAfter == r.retryAfter.value.n)
        && (a == Raises(Forbidden) <==> r.status == 403 && r.retryAfter == None)
        && (a == Raises(NotFound) <==> r.status == 404 && op != DownloadStream && r.json == Object)
        && (a.Raises? && a.error.ServerError? <==> r.status >= 500)
        && (a.Raises? && a.error.ServerError? ==> a.error.status == r.status)
        && (a == Raises(HttpError) <==> !ok && r.status < 500 && r.status !in {403, 404, 429})
        && (a == Raises(Unparsable) <==> (ok || r.status == 404) && op != DownloadStream && r.json == NotJson)
        && (a == Raises(Unexpected) <==>
              || (r.status in {403, 429} && r.retryAfter == Some(Unreadable))
              || (r.status == 404 && (op == DownloadStream || r.json == OtherValue))
              || (ok && op != DownloadStream && r.json == OtherValue))
        && (SignalsOf(op, reply) == [Success] <==> ok && (op == DownloadStream || r.json != NotJson))
        && (SignalsOf(op, reply) == [Failure] <==> r.status == 429 || (r.status == 403 && r.retryAfter.Some?))
        && |SignalsOf(op, reply)| <= 1
  {
  }

  function Limits(answers: seq<Answer>): nat {
    if answers == [] then 0
    else Limits(answers[..|answers| - 1]) + if IsLimit(answers[|answers| - 1]) then 1 else 0
  }

  function Faults(answers: seq<Answer>): nat {
    if answers == [] then 0
    else Faults(answers[..|answers| - 1]) + if IsFault(answers[|answers| - 1]) then 1 else 0
  }

  lemma CountsSnoc(answers: seq<Answer>, a: Answer)
    ensures Limits(answers + [a]) == Limits(answers) + if IsLimit(a) then 1 else 0
    ensures Faults(answers + [a]) == Faults(answers) + if IsFault(a) then 1 else 0
  {
    assert (answers + [a])[..|answers|] == answers;
  }

  /** A call ends with its last answer: a result, an exception not retried, or one too many for its budget. */
  predicate Ends(answers: seq<Answer>, maxRetries: int, limitRetries: int)
    requires answers != []
  {
    var a := answers[|answers| - 1];
    if IsLimit(a) then limitRetries >= 0 && Limits(answers) > limitRetries
    else if IsFault(a) then Faults(answers) > maxRetries
    else true
  }

  /** None of these answers ends it. */
  predicate GoesOn(answers: seq<Answer>, maxRetries: int, limitRetries: int) {
    answers == [] ||
    (!Ends(answers, maxRetries, limitRetries) && GoesOn(answers[..|answers| - 1], maxRetries, limitRetries))
  }

  /** It ends there and not before. */
  predicate StopsAt(answers: seq<Answer>, maxRetries: int, limitRetries: int) {
    answers != [] && Ends(answers, maxRetries, limitRetries)
    && GoesOn(answers[..|answers| - 1], maxRetries, limitRetries)
  }

  function Answers(op: Operation, replies: seq<Reply>): seq<Answer> {
    if replies == [] then [] else Answers(op, replies[..|replies| - 1]) + [Answered(op, replies[|replies| - 1])]
  }

  function Signals(op: Operation, replies: seq<Reply>): seq<Signal> {
    if replies == [] then [] else Signals(op, replies[..|replies| - 1]) + SignalsOf(op, replies[|replies| - 1])
  }

  lemma AnswersSnoc(op: Operation, replies: seq<Reply>, r: Reply)
    ensures Answers(op, replies + [r]) == Answers(op, replies) + [Answered(op, r)]
    ensures Signals(op, replies + [r]) == Signals(op, replies) + SignalsOf(op, r)
  {
    assert (replies + [r])[..|replies|] == replies;
  }

  function Power2(k: nat): nat {
    if k == 0 then 1 else 2 * Power2(k - 1)
  }

  /** How long a nap lasts; asyncio.sleep returns at once when asked for less than nothing. */
  function Lasts(nap: Nap): real {
    MaxReal(0.0, nap.secs)
  }

  function Slept(naps: seq<Nap>): real {
    if naps == [] then 0.0 else Slept(naps[..|naps| - 1]) + Lasts(naps[|naps| - 1])
  }

  /** The pause a Retry-After asks for: a tenth more, and up to a twentieth more, at most ten seconds, by chance. */
  predicate PauseFor(secs: real, retryAfter: int) {
    var base, top := retryAfter as real * 1.1, MinReal(retryAfter as real * 0.05, 10.0);
    base <= secs <= base + top || base + top <= secs <= base
  }

  /** The nap that follows the last answer. */
  predicate NapAfter(nap: Nap, answers: seq<Answer>)
    requires answers != []
  {
    var a := answers[|answers| - 1];
    if IsLimit(a) then nap.Pause? && nap.retryAfter == a.error.retryAfter && PauseFor(nap.secs, nap.retryAfter)
    else nap == Backoff(Power2(Faults(answers)) as real)
  }

  /** The delay before the request that follows these replies. */
  function DelayAfter(op: Operation, replies: seq<Reply>, d: real, lo: real, hi: real): real {
    AdjustedAll(d, Signals(op, replies), lo, hi)
  }

  /** Every one of these replies was waited for at the limiter's pace, and followed by its nap. */
  predicate Napped(naps: seq<Nap>, op: Operation, replies: seq<Reply>, d: real, lo: real, hi: real) {
    if replies == [] then naps == []
    else
      var n := |replies| - 1;
      && |naps| >= 2
      && Napped(naps[..|naps| - 2], op, replies[..n], d, lo, hi)
      && naps[|naps| - 2] == Pace(DelayAfter(op, replies[..n], d, lo, hi))
      && NapAfter(naps[|naps| - 1], Answers(op, replies))
  }

  /** The budgets of a call, and the limiter's delay and range at its start. */
  datatype Setting = Setting(op: Operation, maxRetries: int, limitRetries: int, delay: real, lo: real, hi: real)
  {
    predicate Covers(replies: seq<Reply>, delay: real) {
      delay == DelayAfter(op, replies, this.delay, lo, hi)
    }
  }

  /** Still trying: these replies did not end the call, and each was slept off. */
  ghost predicate Trying(c: Setting, replies: seq<Reply>, naps: seq<Nap>, delay: real, attempt: int, rateAttempt: int) {
    && attempt == Faults(Answers(c.op, replies)) && rateAttempt == Limits(Answers(c.op, replies))
    && GoesOn(Answers(c.op, replies), c.maxRetries, c.limitRetries)
    && c.Covers(replies, delay)
    && Napped(naps, c.op, replies, c.delay, c.lo, c.hi)
  }

  /** Through: the last of these replies is the first that ends the call; there is no nap after it. */
  ghost predicate Through(c: Setting, replies: seq<Reply>, naps: seq<Nap>, delay: real, a: Answer) {
    && replies != [] && naps != []
    && var prefix := replies[..|replies| - 1];
    && StopsAt(Answers(c.op, replies), c.maxRetries, c.limitRetries)
    && a == Answered(c.op, replies[|replies| - 1])
    && c.Covers(replies, delay)
    && Napped(naps[..|naps| - 1], c.op, prefix, c.delay, c.lo, c.hi)
    && naps[|naps| - 1].Pace? && c.Covers(prefix, naps[|naps| - 1].secs)
  }

  lemma TryingStarts(c: Setting)
    ensures Trying(c, [], [], c.delay, 0, 0)
  {
  }

  lemma DelayMoves(c: Setting, replies: seq<Reply>, delay: real, r: Reply, delay': real)
    requires c.Covers(replies, delay) && delay' == AdjustedAll(delay, SignalsOf(c.op, r), c.lo, c.hi)
    ensures c.Covers(replies + [r], delay')
  {
    AnswersSnoc(c.op, replies, r);
    AdjustedConcat(c.delay, Signals(c.op, replies), SignalsOf(c.op, r), c.lo, c.hi);
  }

  /** One more request, which ends the call. */
  lemma LastRequest(c: Setting, replies: seq<Reply>, naps: seq<Nap>, delay: real, attempt: int, rateAttempt: int,
                    r: Reply, delay': real)
    requires Trying(c, replies, naps, delay, attempt, rateAttempt)
    requires delay' == AdjustedAll(delay, SignalsOf(c.op, r), c.lo, c.hi)
    requires
      var a := Answered(c.op, r);
      if IsLimit(a) then c.limitRetries >= 0 && rateAttempt + 1 > c.limitRetries
      else IsFault(a) ==> attempt + 1 > c.maxRetries
    ensures Through(c, replies + [r], naps + [Pace(delay)], delay', Answered(c.op, r))
  {
    DelayMoves(c, replies, delay, r, delay');
    AnswersSnoc(c.op, replies, r);
    var answers := Answers(c.op, replies);
    CountsSnoc(answers, Answered(c.op, r));
    assert (answers + [Answered(c.op, r)])[..|answers|] == answers;
    assert (replies + [r])[..|replies|] == replies;
    assert (naps + [Pace(delay)])[..|naps|] == naps;
  }

  /** One more request, and the nap that follows it. */
  lemma NextRequest(c: Setting, replies: seq<Reply>, naps: seq<Nap>, delay: real, attempt: int, rateAttempt: int,
                    r: Reply, delay': real, nap: Nap)
    requires Trying(c, replies, naps, delay, attempt, rateAttempt)
    requires delay' == AdjustedAll(delay, SignalsOf(c.op, r), c.lo, c.hi)
    requires
      var a := Answered(c.op, r);
      if IsLimit(a) then
        && !(c.limitRetries >= 0 && rateAttempt + 1 > c.limitRetries)
        && nap.Pause? && nap.retryAfter == a.error.retryAfter && PauseFor(nap.secs, nap.retryAfter)
      else IsFault(a) && attempt + 1 <= c.maxRetries && nap == Backoff(Power2(attempt + 1) as real)
    ensures
      var a := Answered(c.op, r);
      Trying(c, replies + [r], naps + [Pace(delay)] + [nap], delay',
             attempt + (if IsFault(a) then 1 else 0), rateAttempt + (if IsLimit(a) then 1 else 0))
  {
    hide PauseFor, AdjustedAll, Answered, SignalsOf, Napped, GoesOn, Answers, Power2;
    DelayMoves(c, replies, delay, r, delay');
    AnswersSnoc(c.op, replies, r);
    var answers, a := Answers(c.op, replies), Answered(c.op, r);
    CountsSnoc(answers, a);
    GoesOnSnoc(answers, a, c.maxRetries, c.limitRetries);
    NappedSnoc(naps, c.op, replies, c.delay, c.lo, c.hi, r, Pace(delay), nap);
    hide Limits, Faults;
  }

  lemma GoesOnSnoc(answers: seq<Answer>, a: Answer, maxRetries: int, limitRetries: int)
    requires GoesOn(answers, maxRetries, limitRetries) && !Ends(answers + [a], maxRetries, limitRetries)
    ensures GoesOn(answers + [a], maxRetries, limitRetries)
  {
    hide Ends;
    assert (answers + [a])[..|answers|] == answers;
  }

  lemma NappedSnoc(naps: seq<Nap>, op: Operation, replies: seq<Reply>, d: real, lo: real, hi: real,
                   r: Reply, pace: Nap, nap: Nap)
    requires Napped(naps, op, replies, d, lo, hi) && pace == Pace(DelayAfter(op, replies, d, lo, hi))
    requires NapAfter(nap, Answers(op, replies + [r]))
    ensures Napped(naps + [pace] + [nap], op, replies + [r], d, lo, hi)
  {
    hide NapAfter, DelayAfter, Answers;
    assert (replies + [r])[..|replies|] == replies;
    assert (naps + [pace] + [nap])[..|naps|] == naps;
  }

  /** `taken` is what a call has had of `replies`, `rest` what it has left; past the end comes one more success. */
  ghost predicate Consumed(replies: seq<Reply>, taken: seq<Reply>, rest: seq<Reply>, over: bool) {
    if over then taken <= replies + [FINE] else replies == taken + rest
  }

  lemma ConsumeOne(replies: seq<Reply>, taken: seq<Reply>, rest: seq<Reply>, over: bool)
    requires Consumed(replies, taken, rest, false) && (rest == [] ==> over)
    ensures
      var r := if rest == [] then FINE else rest[0];
      Consumed(replies, taken + [r], if rest == [] then [] else rest[1..], over)
  {
    if rest != [] {
      assert rest == [rest[0]] + rest[1..];
    }
  }

  /** The client's history went on by `taken` and its naps by `mine`. */
  ghost predicate Grown(calls: seq<Reply>, calls0: seq<Reply>, taken: seq<Reply>,
                        naps: seq<Nap>, naps0: seq<Nap>, mine: seq<Nap>) {
    calls == calls0 + taken && naps == naps0 + mine
  }

  lemma GrowOn(calls: seq<Reply>, calls0: seq<Reply>, taken: seq<Reply>, r: Reply,
               naps: seq<Nap>, naps0: seq<Nap>, mine: seq<Nap>, more: seq<Nap>)
    requires Grown(calls, calls0, taken, naps, naps0, mine)
    ensures Grown(calls + [r], calls0, taken + [r], naps + more, naps0, mine + more)
  {
  }

  class AsyncRetryExecutor {
    const maxRetries: int
    const rateLimitRetries: int

    constructor (maxRetries: int, rateLimitRetries: int)
      ensures this.maxRetries == maxRetries && this.rateLimitRetries == rateLimitRetries
    {
      this.maxRetries, this.rateLimitRetries := maxRetries, rateLimitRetries;
    }

    predicate RetryExhausted(attempt: int, limit: int) {
      limit >= 0 && attempt > limit
    }

    method SleepRateLimit(client: CatalogClient, retryAfter: int) returns (nap: Nap)
      requires client.Valid()
      modifies client`naps, client`draws
      ensures client.Valid() && client.naps == old(client.naps) + [nap]
      ensures nap.Pause? && nap.retryAfter == retryAfter && PauseFor(nap.secs, retryAfter)
      ensures
        var asked, u := retryAfter as real, if old(client.draws) == [] then 0.0 else old(client.draws)[0];
        nap.secs == 1.1 * asked + Share(MinReal(0.05 * asked, 10.0), u)
      ensures retryAfter >= 0 ==>
        var asked := retryAfter as real;
        1.1 * asked <= nap.secs <= 1.15 * asked && nap.secs <= 1.1 * asked + 10.0
    {
      var base := retryAfter as real * 1.1;
      var jitter := client.Uniform(MinReal(retryAfter as real * 0.05, 10.0));
      nap := Pause(base + jitter, retryAfter);
      client.Sleep(nap);
    }

    /** The setting in which a call by this executor begins. */
    ghost function Begins(client: CatalogClient, op: Operation): Setting
      reads client, client.limiter
    {
      Setting(op, maxRetries, rateLimitRetries, client.limiter.delay, client.limiter.minDelay, client.limiter.maxDelay)
    }

    /** The except-blocks: count what was raised and either give up or sleep it off. */
    method Handle(client: CatalogClient, a: Answer, attempt: nat, rateAttempt: nat)
      returns (over: bool, attempt': nat, rateAttempt': nat, nap: Nap)
      requires client.Valid()
      modifies client`naps, client`draws
      ensures client.Valid()
      ensures attempt' == attempt + (if IsFault(a) then 1 else 0)
      ensures rateAttempt' == rateAttempt + (if IsLimit(a) then 1 else 0)
      ensures over <==>
        if IsLimit(a) then rateLimitRetries >= 0 && rateAttempt' > rateLimitRetries
        else IsFault(a) ==> attempt' > maxRetries
      ensures client.naps == if over then old(client.naps) else old(client.naps) + [nap]
      ensures !over && IsLimit(a) ==>
        nap.Pause? && nap.retryAfter == a.error.retryAfter && PauseFor(nap.secs, nap.retryAfter)
      ensures !over && IsFault(a) ==> nap == Backoff(Power2(attempt') as real)
    {
      over, attempt', rateAttempt', nap := true, attempt, rateAttempt, Pace(0.0);
      if a.Got? {
        return;
      }
      if a.error.RateLimited? {
        rateAttempt' := rateAttempt' + 1;
        over := RetryExhausted(rateAttempt', rateLimitRetries);
        if !over {
          nap := SleepRateLimit(client, a.error.retryAfter);
        }
      } else if Retryable(a.error) {
        attempt' := attempt' + 1;
        over := attempt' > maxRetries;
        if !over {
          nap := Backoff(Power2(attempt') as real);
          client.Sleep(nap);
        }
      }
    }

    /** One turn of the loop: a request, and what is made of it. */
    method Turn(client: CatalogClient, attempt: nat, rateAttempt: nat,
                ghost c: Setting, ghost taken: seq<Reply>, ghost naps: seq<Nap>, op: Operation)
      returns (over: bool, a: Answer, attempt': nat, rateAttempt': nat, ghost r: Reply, ghost more: seq<Nap>)
      requires client.Valid() && c == Begins(client, op).(delay := c.delay)
      requires Trying(c, taken, naps, client.limiter.delay, attempt, rateAttempt)
      modifies client, client.limiter
      ensures client.Valid() && client.calls == old(client.calls) + [r] && client.naps == old(client.naps) + more
      ensures r == (if old(client.replies) == [] then FINE else old(client.replies)[0])
      ensures client.replies == (if old(client.replies) == [] then [] else old(client.replies)[1..])
      ensures over ==> Through(c, taken + [r], naps + more, client.limiter.delay, a)
      ensures !over ==> Trying(c, taken + [r], naps + more, client.limiter.delay, attempt', rateAttempt')
      ensures client.temps == old(client.temps) + if op == DownloadStream && a.Got? then 1 else 0
      ensures !over ==> a.Raises? && old(client.replies) != []
    {
      hide Trying, Through, Answered, AdjustedAll, PauseFor, ErrorOf, SignalsOf;
      r := if client.replies == [] then FINE else client.replies[0];
      ghost var delay := client.limiter.delay;
      FineEnds(op);
      a := client.Request(op);
      var nap: Nap;
      over, attempt', rateAttempt', nap := Handle(client, a, attempt, rateAttempt);
      if over {
        more := [Pace(delay)];
        LastRequest(c, taken, naps, delay, attempt, rateAttempt, r, client.limiter.delay);
      } else {
        more := [Pace(delay)] + [nap];
        assert naps + more == naps + [Pace(delay)] + [nap];
        NextRequest(c, taken, naps, delay, attempt, rateAttempt, r, client.limiter.delay, nap);
      }
    }

    /**
     * The call ends with the first answer that ends it, whatever the interleaving; before that every rate limit
     * and every fault was slept off, and the limiter followed the signals. `taken` is what the network brought.
     */
    method Execute(client: CatalogClient, op: Operation) returns (a: Answer, ghost taken: seq<Reply>)
      requires client.Valid()
      modifies client, client.limiter
      ensures client.Valid()
      ensures taken <= old(client.replies) + [FINE] && client.calls == old(client.calls) + taken
      ensures old(client.naps) <= client.naps
      ensures Through(old(Begins(client, op)), taken, client.naps[|old(client.naps)|..], client.limiter.delay, a)
      ensures rateLimitRetries >= 0 ==>
        var m, asked := Max(0, maxRetries), Asked(Answers(op, taken));
        Slept(client.naps[|old(client.naps)|..]) <= MostSleep(m, rateLimitRetries, client.limiter.maxDelay, asked)
      ensures
        var backoffs := Backoffs(client.naps[|old(client.naps)|..]);
        && |backoffs| == Faults(Answers(op, taken[..|taken| - 1]))
        && (backoffs != [] ==> backoffs[0] == 2.0)
        && forall j :: 1 <= j < |backoffs| ==> backoffs[j] == backoffs[j - 1] + backoffs[j - 1]
      ensures client.temps == old(client.temps) + if op == DownloadStream && a.Got? then 1 else 0
    {
      var attempt, rateAttempt: nat := 0, 0;
      ghost var c, replies0, calls0, naps0 := Begins(client, op), client.replies, client.calls, client.naps;
      ghost var naps: seq<Nap> := [];
      taken, a := [], Raises(Unexpected);
      TryingStarts(c);
      var over := false;
      while !over
        invariant client.Valid() && Grown(client.calls, calls0, taken, client.naps, naps0, naps)
        invariant client.temps == old(client.temps) + if over && op == DownloadStream && a.Got? then 1 else 0
        invariant Consumed(replies0, taken, client.replies, over)
        invariant !over ==> Trying(c, taken, naps, client.limiter.delay, attempt, rateAttempt)
        invariant over ==> Through(c, taken, naps, client.limiter.delay, a)
        decreases !over, |client.replies|
      {
        hide Trying, Through, Consumed, Grown, FINE, CatalogClient.Valid;
        ghost var r: Reply, more: seq<Nap>;
        ghost var before, calls, slept := client.replies, client.calls, client.naps;
        over, a, attempt, rateAttempt, r, more := Turn(client, attempt, rateAttempt, c, taken, naps, op);
        ConsumeOne(replies0, taken, before, over);
        GrowOn(calls, calls0, taken, r, slept, naps0, naps, more);
        taken, naps := taken + [r], naps + more;
      }
      assert client.naps[|naps0|..] == naps;
      BackoffsOfCall(c, taken, naps, client.limiter.delay, a);
      if rateLimitRetries >= 0 {
        hide Through;
        TotalSleep(c, taken, naps, client.limiter.delay, a);
      }
    }
  }

  lemma FineEnds(op: Operation)
    ensures Answered(op, FINE).Got?
  {
  }

  /** Every one of these answers is a rate limit or a fault. */
  predicate AllRetried(answers: seq<Answer>) {
    answers == [] ||
    (AllRetried(answers[..|answers| - 1]) && (IsLimit(answers[|answers| - 1]) || IsFault(answers[|answers| - 1])))
  }

  lemma {:induction false} GoesOnMeans(answers: seq<Answer>, maxRetries: int, limitRetries: int)
    ensures GoesOn(answers, maxRetries, limitRetries) <==>
            && AllRetried(answers)
            && (limitRetries >= 0 ==> Limits(answers) <= limitRetries)
            && Faults(answers) <= Max(0, maxRetries)
    ensures AllRetried(answers) ==> Limits(answers) + Faults(answers) == |answers|
  {
    if answers != [] {
      var prefix, last := answers[..|answers| - 1], answers[|answers| - 1];
      GoesOnMeans(prefix, maxRetries, limitRetries);
    }
  }

  /**
   * When a call ends: every answer before the last was a rate limit or a fault within its budget, and the last
   * is a result, another exception, the rate limit after the last one allowed or the fault after the last one
   * allowed.
   */
  lemma StopsExactly(answers: seq<Answer>, maxRetries: int, limitRetries: int)
    requires answers != []
    ensures
      var prefix, last := answers[..|answers| - 1], answers[|answers| - 1];
      StopsAt(answers, maxRetries, limitRetries) <==>
        && AllRetried(prefix)
        && (limitRetries >= 0 ==> Limits(prefix) <= limitRetries)
        && Faults(prefix) <= Max(0, maxRetries)
        && (IsLimit(last) ==> limitRetries >= 0 && Limits(answers) == limitRetries + 1)
        && (IsFault(last) ==> Faults(answers) == Max(0, maxRetries) + 1)
  {
    GoesOnMeans(answers[..|answers| - 1], maxRetries, limitRetries);
  }

  /** So it ends once: of two beginnings of the same answers at most one ends it. */
  lemma StopsOnce(answers: seq<Answer>, more: seq<Answer>, maxRetries: int, limitRetries: int)
    requires StopsAt(answers, maxRetries, limitRetries) && StopsAt(answers + more, maxRetries, limitRetries)
    ensures more == []
  {
    if more != [] {
      var all := answers + more;
      assert all[..|all| - 1] == answers + more[..|more| - 1];
      GoesOnBefore(answers, more[..|more| - 1], maxRetries, limitRetries);
    }
  }

  lemma {:induction false} GoesOnBefore(answers: seq<Answer>, more: seq<Answer>, maxRetries: int, limitRetries: int)
    requires GoesOn(answers + more, maxRetries, limitRetries)
    ensures GoesOn(answers, maxRetries, limitRetries)
  {
    if more == [] {
      assert answers + more == answers;
    } else {
      var all := answers + more;
      assert all[..|all| - 1] == answers + more[..|more| - 1];
      GoesOnBefore(answers, more[..|more| - 1], maxRetries, limitRetries);
    }
  }

  /** With both budgets finite, a call makes at most M + L + 1 requests. */
  lemma RequestsBounded(answers: seq<Answer>, maxRetries: int, limitRetries: int)
    requires StopsAt(answers, maxRetries, limitRetries) && limitRetries >= 0
    ensures |answers| <= Max(0, maxRetries) + limitRetries + 1
  {
    GoesOnMeans(answers[..|answers| - 1], maxRetries, limitRetries);
  }

  /** The waits the API asked for in its 429 answers, negative ones counting for nothing. */
  function Asked(answers: seq<Answer>): real {
    if answers == [] then 0.0
    else
      var a := answers[|answers| - 1];
      Asked(answers[..|answers| - 1]) + if IsLimit(a) then MaxReal(0.0, a.error.retryAfter as real) else 0.0
  }

  lemma AnswersLength(op: Operation, replies: seq<Reply>)
    ensures |Answers(op, replies)| == |replies|
    ensures replies != [] ==> Answers(op, replies)[..|replies| - 1] == Answers(op, replies[..|replies| - 1])
  {
  }

  /** n limiter delays of hi each. */
  function Paces(n: nat, hi: real): real {
    n as real * hi
  }

  lemma PacesGrow(j: nat, k: nat, hi: real)
    requires j <= k && 0.0 <= hi
    ensures Paces(j, hi) <= Paces(k, hi) && Paces(j + 1, hi) == Paces(j, hi) + hi
  {
    assert (j + 1) as real * hi == j as real * hi + hi;
  }

  /** What the naps after these answers may take: n paces, every backoff so far, and the pauses asked for. */
  function Allowed(n: nat, answers: seq<Answer>, hi: real): real {
    Paces(n, hi) + (2 * Power2(Faults(answers)) - 2) as real + 1.15 * Asked(answers)
  }

  lemma NapAllowed(pace: Nap, nap: Nap, n: nat, answers: seq<Answer>, hi: real)
    requires answers != [] && (IsLimit(answers[|answers| - 1]) || IsFault(answers[|answers| - 1]))
    requires NapAfter(nap, answers) && 0.0 <= pace.secs <= hi
    ensures Allowed(n, answers[..|answers| - 1], hi) + Lasts(pace) + Lasts(nap) <= Allowed(n + 1, answers, hi)
  {
    PacesGrow(n, n, hi);
    hide Paces;
  }

  lemma SleptTwo(naps: seq<Nap>)
    requires |naps| >= 2
    ensures Slept(naps) == Slept(naps[..|naps| - 2]) + Lasts(naps[|naps| - 2]) + Lasts(naps[|naps| - 1])
  {
    assert naps[..|naps| - 1][..|naps| - 2] == naps[..|naps| - 2];
  }

  /** How long the naps after n continued requests last altogether. */
  lemma {:induction false} NapsBounded(naps: seq<Nap>, op: Operation, replies: seq<Reply>, d: real, lo: real, hi: real)
    requires Napped(naps, op, replies, d, lo, hi) && 0.0 <= lo <= d <= hi
    requires AllRetried(Answers(op, replies))
    ensures Slept(naps) <= Allowed(|replies|, Answers(op, replies), hi)
  {
    if replies == [] {
      assert Allowed(0, [], hi) == 0.0;
    } else {
      var n, k := |replies| - 1, |naps| - 2;
      AnswersLength(op, replies);
      hide Answers, NapAfter, Lasts, Signals, Allowed, Slept, IsLimit, IsFault;
      NapsBounded(naps[..k], op, replies[..n], d, lo, hi);
      SleptTwo(naps);
      StaysInRange(d, Signals(op, replies[..n]), lo, hi);
      NapAllowed(naps[k], naps[k + 1], n, Answers(op, replies), hi);
    }
  }

  /** The backoffs among these naps. */
  function Backoffs(naps: seq<Nap>): seq<real> {
    if naps == [] then []
    else Backoffs(naps[..|naps| - 1]) +
         (match naps[|naps| - 1] case Backoff(secs) => [secs] case Pace(_) => [] case Pause(_, _) => [])
  }

  /** 2, 4, 8, ... k terms. */
  function Doublings(k: nat): seq<real> {
    if k == 0 then [] else Doublings(k - 1) + [Power2(k) as real]
  }

  lemma {:induction false} DoublingsAt(k: nat, j: nat)
    requires j < k
    ensures |Doublings(k)| == k && Doublings(k)[j] == Power2(j + 1) as real
  {
    if j < k - 1 {
      DoublingsAt(k - 1, j);
    } else if k > 1 {
      DoublingsAt(k - 1, 0);
    }
  }

  /** The j-th backoff of a call lasts 2^j seconds, however rate limits come between. */
  lemma {:induction false} BackoffsDouble(naps: seq<Nap>, op: Operation, replies: seq<Reply>, d: real, lo: real, hi: real)
    requires Napped(naps, op, replies, d, lo, hi) && AllRetried(Answers(op, replies))
    ensures Backoffs(naps) == Doublings(Faults(Answers(op, replies)))
  {
    if replies != [] {
      hide Answers, DelayAfter, Backoffs, NapAfter, IsLimit, IsFault, Power2;
      var n, k := |replies| - 1, |naps| - 2;
      AnswersLength(op, replies);
      BackoffsStep(naps, Answers(op, replies));
      BackoffsDouble(naps[..k], op, replies[..n], d, lo, hi);
      DoublingsStep(Answers(op, replies));
    } else {
      assert Answers(op, replies) == [];
    }
  }

  /** The first backoff is two seconds, and each later one twice the one before. */
  predicate Doubling(backoffs: seq<real>) {
    (backoffs != [] ==> backoffs[0] == 2.0)
    && forall j :: 1 <= j < |backoffs| ==> backoffs[j] == backoffs[j - 1] + backoffs[j - 1]
  }

  lemma {:induction false} DoublingsDouble(k: nat)
    ensures |Doublings(k)| == k && Doubling(Doublings(k))
    ensures k > 0 ==> Doublings(k)[k - 1] == Power2(k) as real
  {
    if k > 0 {
      DoublingsDouble(k - 1);
      if k == 1 {
        assert Power2(1) == 2;
      }
    }
  }

  /** Power2(k) is 2^k. */
  lemma Power2Is(k: nat)
    ensures Power2(0) == 1 && Power2(k + 1) == Power2(k) + Power2(k)
  {
  }

  /** The backoffs of one call: two seconds, four, eight, one for each fault that did not end it. */
  lemma BackoffsOfCall(c: Setting, taken: seq<Reply>, naps: seq<Nap>, delay: real, a: Answer)
    requires Through(c, taken, naps, delay, a)
    ensures Doubling(Backoffs(naps))
    ensures |Backoffs(naps)| == Faults(Answers(c.op, taken[..|taken| - 1]))
  {
    var n := |taken| - 1;
    AnswersLength(c.op, taken);
    GoesOnMeans(Answers(c.op, taken[..n]), c.maxRetries, c.limitRetries);
    hide Napped, Answers, Ends, GoesOn, AllRetried, AdjustedAll, Doubling;
    BackoffsDouble(naps[..|naps| - 1], c.op, taken[..n], c.delay, c.lo, c.hi);
    DoublingsDouble(Faults(Answers(c.op, taken[..n])));
    assert Backoffs(naps) == Backoffs(naps[..|naps| - 1]);
  }

  lemma DoublingsStep(answers: seq<Answer>)
    requires answers != []
    ensures Doublings(Faults(answers)) ==
      Doublings(Faults(answers[..|answers| - 1]))
      + if IsFault(answers[|answers| - 1]) then [Power2(Faults(answers)) as real] else []
  {
    hide Power2, IsFault, Doublings;
    DoublingsNext(Faults(answers[..|answers| - 1]));
  }

  lemma DoublingsNext(k: nat)
    ensures Doublings(k + 1) == Doublings(k) + [Power2(k + 1) as real]
  {
    hide Power2;
  }

  lemma BackoffsStep(naps: seq<Nap>, answers: seq<Answer>)
    requires |naps| >= 2 && naps[|naps| - 2].Pace? && answers != [] && NapAfter(naps[|naps| - 1], answers)
    requires IsLimit(answers[|answers| - 1]) || IsFault(answers[|answers| - 1])
    ensures Backoffs(naps) ==
      Backoffs(naps[..|naps| - 2]) + if IsFault(answers[|answers| - 1]) then [Power2(Faults(answers)) as real] else []
  {
    hide PauseFor, Faults, Power2;
    var butLast := naps[..|naps| - 1];
    assert butLast[..|naps| - 2] == naps[..|naps| - 2];
  }

  lemma Power2Grows(j: nat, k: nat)
    requires j <= k
    ensures Power2(j) <= Power2(k)
  {
  }

  /**
   * The most that one call may sleep: m + l + 1 limiter delays at the top of the range, the full series of
   * backoffs, and 1.15 times what the 429 answers asked for.
   */
  function MostSleep(m: nat, l: nat, hi: real, asked: real): real {
    Paces(m + l + 1, hi) + (Power2(m + 1) - 2) as real + 1.15 * asked
  }

  /** With budgets of 3 and 5, a delay of at most 10 s and nothing asked for: 90 s of pace, 2 + 4 + 8 s of backoffs. */
  lemma MostSleepInstance()
    ensures MostSleep(3, 5, 10.0, 0.0) == 104.0
    ensures MostSleep(3, 5, 10.0, 60.0) == 173.0
  {
    assert Power2(4) == 16;
    assert Paces(9, 10.0) == 90.0;
  }

  /** However the API behaves, no call sleeps longer than that. */
  lemma TotalSleep(c: Setting, taken: seq<Reply>, naps: seq<Nap>, delay: real, a: Answer)
    requires Through(c, taken, naps, delay, a)
    requires 0.0 <= c.lo <= c.delay <= c.hi && c.limitRetries >= 0
    ensures Slept(naps) <= MostSleep(Max(0, c.maxRetries), c.limitRetries, c.hi, Asked(Answers(c.op, taken)))
  {
    var n, m := |taken| - 1, Max(0, c.maxRetries);
    var answers, prefix := Answers(c.op, taken), Answers(c.op, taken[..n]);
    AnswersLength(c.op, taken);
    GoesOnMeans(prefix, c.maxRetries, c.limitRetries);
    RequestsBounded(answers, c.maxRetries, c.limitRetries);
    hide Answers, Napped, Ends, GoesOn, AllRetried, AdjustedAll, Signals, Faults, Limits, Asked, Allowed,
         MostSleep, Answered;
    NapsBounded(naps[..|naps| - 1], c.op, taken[..n], c.delay, c.lo, c.hi);
    StaysInRange(c.delay, Signals(c.op, taken[..n]), c.lo, c.hi);
    AllowedCap(prefix, answers, n, m, c.limitRetries, c.hi);
  }

  lemma AllowedCap(prefix: seq<Answer>, answers: seq<Answer>, n: nat, m: nat, l: nat, hi: real)
    requires answers != [] && prefix == answers[..|answers| - 1]
    requires n <= m + l && Faults(prefix) <= m && 0.0 <= hi
    ensures Allowed(n, prefix, hi) + hi <= MostSleep(m, l, hi, Asked(answers))
  {
    Power2Grows(Faults(prefix), m);
    PacesGrow(n, n, hi);
    PacesGrow(n + 1, m + l + 1, hi);
    hide Paces, Faults, IsLimit;
    assert Asked(prefix) <= Asked(answers);
  }
}
