/**
 * The watchdog's sweeps. LIMIT picks any SWEEP_LIMIT of the eligible rows; whatever it picks, and whatever else
 * happens between sweeps, the backlog goes down by a full sweep each time until it is empty.
 */
module Drain {
  import opened Basics
  import opened Tasks
  import opened Protocol

  datatype Sweep = StuckSweep | BlockedSweep

  function Eligible(s: State, k: Sweep): set<TaskId> {
    match k
    case StuckSweep => Stuck(s)
    case BlockedSweep => Releasable(s)
  }

  function SweepEvent(k: Sweep, picked: set<TaskId>): Event {
    match k
    case StuckSweep => ReclaimStuck(picked)
    case BlockedSweep => ReclaimBlocked(picked)
  }

  predicate IsSweep(ev: Event, k: Sweep) {
    match k
    case StuckSweep => ev.ReclaimStuck?
    case BlockedSweep => ev.ReclaimBlocked?
  }

  /**
   * Which rows a sweep may take: RUNNING ones whose heartbeat is more than five minutes old, or BLOCKED ones whose
   * deadline has passed, in microseconds and to the microsecond.
   */
  lemma EligibleMeans(s: State, t: TaskId)
    ensures t in Eligible(s, StuckSweep) <==>
            && t in s.tasks && s.tasks[t].row.status == Running && s.tasks[t].row.lastHeartbeat.Some?
            && s.clock - s.tasks[t].row.lastHeartbeat.value > 300_000_000
    ensures t in Eligible(s, BlockedSweep) <==>
            && t in s.tasks && s.tasks[t].row.status == Blocked && s.tasks[t].row.blockedUntil.Some?
            && s.clock > s.tasks[t].row.blockedUntil.value
    ensures SweepEvent(StuckSweep, {t}) == ReclaimStuck({t}) && SweepEvent(BlockedSweep, {t}) == ReclaimBlocked({t})
  {
  }

  /** A sweep takes twenty rows at most: of twenty-five eligible rows exactly twenty. */
  lemma TwentyAtMost(s: State, k: Sweep, picked: set<TaskId>)
    requires Enabled(s, SweepEvent(k, picked))
    ensures |picked| <= 20 && (|Eligible(s, k)| == 25 ==> |picked| == 20)
    ensures |Eligible(s, k)| <= 20 ==> |picked| == |Eligible(s, k)|
  {
  }

  /** A row given back to PENDING keeps its counts, its attempts and its error. */
  predicate Returned(r: Row, r': Row) {
    && r'.status == Pending && r'.workerId == None && r'.blockedUntil == None && r'.blockReason == None
    && r'.lastHeartbeat == (if r.status == Running then None else r.lastHeartbeat)
    && r'.received == r.received && r'.processed == r.processed && r'.attempts == r.attempts
    && r'.error == r.error && r'.startedAt == r.startedAt && r'.finishedAt == r.finishedAt
  }

  /** From s to s' the rows in `picked` were returned, each with a message to send, and nothing else happened. */
  ghost predicate OnlyReturned(s: State, s': State, picked: set<TaskId>) {
    && s'.tasks.Keys == s.tasks.Keys
    && (forall t :: t in s.tasks ==>
          if t in picked then Returned(s.tasks[t].row, s'.tasks[t].row) else s'.tasks[t] == s.tasks[t])
    && s'.senders == s.senders + (set t | t in picked :: Message(s.nextMsg, t))
    && s'.files == s.files && s'.ledger == s.ledger && s'.store == s.store
    && s'.execs == s.execs && s'.queue == s.queue && s'.clock == s.clock
  }

  ghost function Moved(s: State, s': State): set<TaskId> {
    set t | t in s.tasks && t in s'.tasks && s'.tasks[t] != s.tasks[t]
  }

  lemma SweepReturns(s: State, picked: set<TaskId>, back: Row -> Row)
    requires picked <= s.tasks.Keys && forall t :: t in picked ==> Returned(s.tasks[t].row, back(s.tasks[t].row))
    ensures OnlyReturned(s, AfterSweep(s, picked, back), picked)
  {
    hide Returned;
  }

  lemma ReturnedLeaveBacklog(s: State, s': State, picked: set<TaskId>, k: Sweep)
    requires OnlyReturned(s, s', picked) && picked <= Eligible(s, k)
    ensures Moved(s, s') == picked && Eligible(s', k) == Eligible(s, k) - picked
  {
    forall t | t in s.tasks
      ensures t in Moved(s, s') <==> t in picked
      ensures t in Eligible(s', k) <==> t in Eligible(s, k) && t !in picked
    {
    }
  }

  /**
   * One sweep returns exactly min(limit, eligible) distinct eligible rows to PENDING, each with a message to
   * send, and touches no other row, no file and no execution.
   */
  lemma SweepMovesExactly(s: State, k: Sweep, picked: set<TaskId>)
    requires Enabled(s, SweepEvent(k, picked))
    ensures
      var s' := Apply(s, SweepEvent(k, picked));
      && OnlyReturned(s, s', picked)
      && Moved(s, s') == picked && picked <= Eligible(s, k) && |picked| == Min(SWEEP_LIMIT, |Eligible(s, k)|)
      && Eligible(s', k) == Eligible(s, k) - picked
  {
    var s' := Apply(s, SweepEvent(k, picked));
    assert forall t :: t in picked ==> t in s.tasks;
    SweepReturns(s, picked, if k == StuckSweep then StuckReturned else BlockedReleased);
    hide OnlyReturned, Moved, AfterSweep;
    ReturnedLeaveBacklog(s, s', picked, k);
  }

  /** How many of the events are sweeps of kind k. */
  function Sweeps(evs: seq<Event>, k: Sweep): nat {
    if evs == [] then 0
    else Sweeps(evs[..|evs| - 1], k) + if IsSweep(evs[|evs| - 1], k) then 1 else 0
  }

  /** No step of the run makes a further row eligible. */
  ghost predicate NoneNewlyEligible(s: State, evs: seq<Event>, k: Sweep)
    requires Legal(s, evs)
  {
    evs == [] ||
    (NoneNewlyEligible(s, evs[..|evs| - 1], k)
     && Eligible(After(s, evs), k) <= Eligible(After(s, evs[..|evs| - 1]), k))
  }

  lemma SubsetSize<T>(a: set<T>, b: set<T>)
    requires a <= b
    ensures |a| <= |b| && |b - a| == |b| - |a|
  {
    assert b == a + (b - a);
  }

  lemma StepShrinks(s: State, ev: Event, k: Sweep)
    requires Enabled(s, ev) && Eligible(Apply(s, ev), k) <= Eligible(s, k)
    ensures |Eligible(Apply(s, ev), k)| <= |Eligible(s, k)|
    ensures IsSweep(ev, k) ==> |Eligible(Apply(s, ev), k)| == Max(0, |Eligible(s, k)| - SWEEP_LIMIT)
  {
    SubsetSize(Eligible(Apply(s, ev), k), Eligible(s, k));
    if IsSweep(ev, k) {
      assert ev == SweepEvent(k, ev.picked);
      SweepMovesExactly(s, k, ev.picked);
      SubsetSize(ev.picked, Eligible(s, k));
    }
  }

  /** After j sweeps at most n - 20 j of the n rows are left, whatever runs in between. */
  lemma {:induction false} BacklogShrinks(s: State, evs: seq<Event>, k: Sweep)
    requires Legal(s, evs) && NoneNewlyEligible(s, evs, k)
    ensures |Eligible(After(s, evs), k)| <= Max(0, |Eligible(s, k)| - SWEEP_LIMIT * Sweeps(evs, k))
  {
    hide Eligible, IsSweep, Enabled, Apply;
    if evs != [] {
      var prefix := evs[..|evs| - 1];
      BacklogShrinks(s, prefix, k);
      StepShrinks(After(s, prefix), evs[|evs| - 1], k);
    }
  }

  /** ceil(n / limit) sweeps drain a backlog of n. */
  lemma Drained(s: State, evs: seq<Event>, k: Sweep)
    requires Legal(s, evs) && NoneNewlyEligible(s, evs, k)
    requires Sweeps(evs, k) >= (|Eligible(s, k)| + SWEEP_LIMIT - 1) / SWEEP_LIMIT
    ensures Eligible(After(s, evs), k) == {}
  {
    BacklogShrinks(s, evs, k);
  }

  /** And no fewer do: sweeps alone, on a still clock, take exactly min(20 j, n) rows in j sweeps. */
  lemma {:induction false} SweepsAlone(s: State, evs: seq<Event>, k: Sweep)
    requires Legal(s, evs) && forall i :: 0 <= i < |evs| ==> IsSweep(evs[i], k) || evs[i].Send?
    ensures |Eligible(After(s, evs), k)| == Max(0, |Eligible(s, k)| - SWEEP_LIMIT * Sweeps(evs, k))
  {
    hide OnlyReturned, Moved, AfterSweep;
    if evs != [] {
      var prefix, last := evs[..|evs| - 1], evs[|evs| - 1];
      var p := After(s, prefix);
      assert forall i :: 0 <= i < |prefix| ==> prefix[i] == evs[i];
      SweepsAlone(s, prefix, k);
      if IsSweep(last, k) {
        assert last == SweepEvent(k, last.picked);
        SweepMovesExactly(p, k, last.picked);
        StepShrinks(p, last, k);
      } else {
        assert Apply(p, last).tasks == p.tasks && Apply(p, last).clock == p.clock;
        assert Eligible(Apply(p, last), k) == Eligible(p, k);
      }
    }
  }
}
