/**
 * Ownership under the lease assumption: one holder per task, the row RUNNING under it, the row's fields in step
 * with its status, the attempts law, and rows that nobody may change.
 */
module Leases {
  import opened Basics
  import opened Tasks
  import opened Protocol
  import opened Pairing

  /** How a row's fields go with its status, and its attempts with its returns to PENDING. */
  ghost predicate RowOk(r: Row, reclaims: int) {
    && (r.status == Running ==> r.lastHeartbeat.Some?)
    && (r.status != Pending <==> r.workerId.Some?)
    && (r.status != Pending ==> r.startedAt.Some?)
    && (r.status == Blocked <==> r.blockedUntil.Some?)
    && (Terminal(r.status) <==> r.finishedAt.Some?)
    && r.attempts == reclaims + (if r.status == Pending then 0 else 1)
  }

  /** The holder's own copy of the row agrees with the table on what only a claim may change. */
  ghost predicate BaseFits(base: Row, row: Row, reclaims: int) {
    && RowOk(base, reclaims) && base.status != Pending
    && base.attempts == row.attempts && base.workerId == row.workerId && base.startedAt == row.startedAt
    && base.lastHeartbeat.Some? && row.lastHeartbeat.Some?
    && row.lastHeartbeat.value <= base.lastHeartbeat.value
  }

  /** The row is RUNNING under this execution, with the heartbeat it last persisted. */
  ghost predicate Tied(s: State, e: ExecId)
    requires e in s.execs
  {
    var x := s.execs[e];
    var t := x.msg.task;
    && t in s.tasks
    && s.tasks[t].row.status == Running
    && s.tasks[t].row.workerId == Some(x.host)
    && s.tasks[t].row.lastHeartbeat == Some(x.lease)
    && (x.phase == Working ==> BaseFits(x.base, s.tasks[t].row, s.tasks[t].reclaims))
  }

  ghost predicate Holder(s: State, e: ExecId) {
    e in s.execs && Holding(s.execs[e])
  }

  ghost predicate OneHolder(s: State) {
    forall e, d :: Holder(s, e) && Holder(s, d) && s.execs[e].msg.task == s.execs[d].msg.task ==> e == d
  }

  ghost predicate LeaseInv(s: State) {
    && (forall e :: Holder(s, e) ==> Tied(s, e))
    && OneHolder(s)
    && (forall t :: t in s.tasks ==> RowOk(s.tasks[t].row, s.tasks[t].reclaims))
  }

  /** What the execution's own step does to its own tie and row. */
  lemma DoKeepsTie(s: State, e: ExecId, w: Work)
    requires CanDo(s, e, w) && s.execs[e].msg.task in s.tasks
    requires Holder(s, e) ==> Tied(s, e)
    requires var task := s.tasks[s.execs[e].msg.task]; RowOk(task.row, task.reclaims)
    ensures
      var s' := Do(s, e, w);
      var t := s.execs[e].msg.task;
      && (Holder(s', e) ==> Tied(s', e) && (Holder(s, e) || s.tasks[t].row.status == Pending))
      && t in s'.tasks && RowOk(s'.tasks[t].row, s'.tasks[t].reclaims)
      && (s'.tasks[t] != s.tasks[t] ==> Holder(s, e) || s.tasks[t].row.status == Pending)
  {
    if w.Claim? {
      ClaimTies(s, e);
      hide AfterClaim, Tied, RowOk;
    } else if w.Save? && w.ok {
      SaveKeepsTie(s, e, w.row);
      hide AfterSave, Tied, RowOk;
    } else {
      hide RowOk;
    }
  }

  lemma ClaimTies(s: State, e: ExecId)
    requires e in s.execs && s.execs[e].phase == Waiting && s.execs[e].msg.task in s.tasks
    requires var task := s.tasks[s.execs[e].msg.task]; RowOk(task.row, task.reclaims)
    ensures
      var s', t := AfterClaim(s, e), s.execs[e].msg.task;
      && (Holder(s', e) ==> Tied(s', e))
      && t in s'.tasks && RowOk(s'.tasks[t].row, s'.tasks[t].reclaims)
      && (s'.tasks[t] != s.tasks[t] || Holder(s', e) ==> s.tasks[t].row.status == Pending)
  {
  }

  lemma SaveKeepsTie(s: State, e: ExecId, row: Row)
    requires Holder(s, e) && Tied(s, e) && s.execs[e].phase == Working && Evolves(s.execs[e].base, row, s.clock)
    ensures
      var s', t := AfterSave(s, e, row), s.execs[e].msg.task;
      && (Holder(s', e) ==> Tied(s', e))
      && t in s'.tasks && RowOk(s'.tasks[t].row, s'.tasks[t].reclaims)
  {
  }

  /** A holder's row is RUNNING, and the tie lasts while neither its record nor its row changes. */
  lemma TieLasts(s: State, s': State, d: ExecId)
    requires d in s.execs && d in s'.execs && s'.execs[d] == s.execs[d] && Tied(s, d)
    ensures
      var t := s.execs[d].msg.task;
      && t in s.tasks && s.tasks[t].row.status == Running
      && (t in s'.tasks && s'.tasks[t] == s.tasks[t] ==> Tied(s', d))
  {
    hide BaseFits;
  }

  lemma DoKeepsTies(s: State, e: ExecId, w: Work, d: ExecId)
    requires Sane(s) && LeaseInv(s) && CanDo(s, e, w) && Holder(Do(s, e, w), d)
    ensures Tied(Do(s, e, w), d)
  {
    DoKeepsOtherExecs(s, e, w);
    DoKeepsOtherTasks(s, e, w);
    DoKeepsTie(s, e, w);
    hide Do, CanDo, RowOk, Sane, Tied;
    if d != e {
      assert Holder(s, d);
      TieLasts(s, Do(s, e, w), d);
      assert Holder(s, e) ==> s.execs[e].msg.task != s.execs[d].msg.task;
    }
  }

  lemma DoKeepsOneHolder(s: State, e: ExecId, w: Work)
    requires Sane(s) && LeaseInv(s) && CanDo(s, e, w)
    ensures OneHolder(Do(s, e, w))
  {
    var s' := Do(s, e, w);
    DoKeepsOtherExecs(s, e, w);
    DoKeepsIdentity(s, e, w);
    DoKeepsTie(s, e, w);
    hide Do, CanDo, RowOk, BaseFits, Sane;
    forall d, c | Holder(s', d) && Holder(s', c) && s'.execs[d].msg.task == s'.execs[c].msg.task
      ensures d == c
    {
      assert d != e ==> Holder(s, d) && Tied(s, d);
      assert c != e ==> Holder(s, c) && Tied(s, c);
    }
  }

  lemma DoKeepsLeaseInv(s: State, e: ExecId, w: Work)
    requires Sane(s) && LeaseInv(s) && CanDo(s, e, w)
    ensures LeaseInv(Do(s, e, w))
  {
    forall d | Holder(Do(s, e, w), d)
      ensures Tied(Do(s, e, w), d)
    {
      DoKeepsTies(s, e, w, d);
    }
    DoKeepsOneHolder(s, e, w);
    DoKeepsOtherTasks(s, e, w);
    DoKeepsTie(s, e, w);
    hide Do, CanDo, RowOk, OneHolder, Tied, Sane;
  }

  lemma SweepKeepsLeaseInv(s: State, picked: set<TaskId>, back: Row -> Row)
    requires LeaseInv(s) && picked <= s.tasks.Keys
    requires forall t :: t in picked ==> RowOk(back(s.tasks[t].row), s.tasks[t].reclaims + 1)
    requires forall e :: Holder(s, e) ==> s.execs[e].msg.task !in picked
    ensures LeaseInv(AfterSweep(s, picked, back))
  {
    var s' := AfterSweep(s, picked, back);
    hide RowOk, BaseFits;
    forall e | Holder(s', e)
      ensures Tied(s', e)
    {
      assert Holder(s, e) && Tied(s, e);
    }
    forall e, d | Holder(s', e) && Holder(s', d) && s'.execs[e].msg.task == s'.execs[d].msg.task
      ensures e == d
    {
      assert Holder(s, e) && Holder(s, d);
    }
  }

  lemma StuckSweepKeepsLeaseInv(s: State, picked: set<TaskId>)
    requires LeaseInv(s) && Leased(s) && picked <= Stuck(s)
    ensures LeaseInv(AfterSweep(s, picked, StuckReturned))
  {
    forall e | Holder(s, e)
      ensures s.execs[e].msg.task !in picked
    {
      assert Tied(s, e);
    }
    SweepKeepsLeaseInv(s, picked, StuckReturned);
  }

  lemma BlockedSweepKeepsLeaseInv(s: State, picked: set<TaskId>)
    requires LeaseInv(s) && picked <= Releasable(s)
    ensures LeaseInv(AfterSweep(s, picked, BlockedReleased))
  {
    forall e | Holder(s, e)
      ensures s.execs[e].msg.task !in picked
    {
      assert Tied(s, e);
    }
    SweepKeepsLeaseInv(s, picked, BlockedReleased);
  }

  /** Steps of producers, broker and clock: nothing held changes, a new task is in order. */
  lemma OuterKeepsLeaseInv(s: State, s': State)
    requires LeaseInv(s)
    requires forall t :: t in s.tasks ==> t in s'.tasks && s'.tasks[t] == s.tasks[t]
    requires forall t :: t in s'.tasks && t !in s.tasks ==> s'.tasks[t] == Task(NEW_ROW, 0)
    requires forall e :: Holder(s', e) ==> e in s.execs && s'.execs[e] == s.execs[e]
    ensures LeaseInv(s')
  {
    forall e | Holder(s', e)
      ensures Tied(s', e)
    {
      assert Holder(s, e) && Tied(s, e);
    }
    forall e, d | Holder(s', e) && Holder(s', d) && s'.execs[e].msg.task == s'.execs[d].msg.task
      ensures e == d
    {
      assert Holder(s, e) && Holder(s, d);
    }
  }

  lemma StepKeepsLeaseInv(s: State, ev: Event)
    requires Sane(s) && LeaseInv(s) && Leased(s) && Enabled(s, ev)
    ensures LeaseInv(Apply(s, ev))
  {
    hide LeaseInv, Sane, Leased, Do, CanDo, AfterSweep, IsStuck, IsReleasable;
    match ev
    case Does(e, w) => DoKeepsLeaseInv(s, e, w);
    case ReclaimStuck(picked) => StuckSweepKeepsLeaseInv(s, picked);
    case ReclaimBlocked(picked) => BlockedSweepKeepsLeaseInv(s, picked);
    case Tick(_) => OuterKeepsLeaseInv(s, Apply(s, ev));
    case Start(_) => OuterKeepsLeaseInv(s, Apply(s, ev));
    case Send(_) => OuterKeepsLeaseInv(s, Apply(s, ev));
    case Drop(_) => OuterKeepsLeaseInv(s, Apply(s, ev));
    case Deliver(_, _, _) => OuterKeepsLeaseInv(s, Apply(s, ev));
    case Redeliver(_) => OuterKeepsLeaseInv(s, Apply(s, ev));
  }

  lemma {:induction false} RunKeepsLeaseInv(evs: seq<Event>)
    requires LeasedRun(EMPTY, evs)
    ensures LeaseInv(After(EMPTY, evs))
  {
    if evs != [] {
      var prefix := evs[..|evs| - 1];
      RunKeepsLeaseInv(prefix);
      RunKeepsPaired(prefix);
      StepKeepsLeaseInv(After(EMPTY, prefix), evs[|evs| - 1]);
    }
  }

  /** Lease safety: at most one live execution holds a task, and the row is RUNNING under it. */
  lemma LeaseSafety(evs: seq<Event>)
    requires LeasedRun(EMPTY, evs)
    ensures
      var s := After(EMPTY, evs);
      && OneHolder(s)
      && (forall e :: Holder(s, e) ==>
            var x := s.execs[e];
            && x.msg.task in s.tasks
            && s.tasks[x.msg.task].row.status == Running
            && s.tasks[x.msg.task].row.workerId == Some(x.host))
  {
    RunKeepsLeaseInv(evs);
    var s := After(EMPTY, evs);
    hide LeasedRun, Legal, After, BaseFits, RowOk;
    assert forall e :: Holder(s, e) ==> Tied(s, e);
  }

  /** The row invariant and the attempts law. */
  lemma RowsInOrder(evs: seq<Event>, t: TaskId)
    requires LeasedRun(EMPTY, evs) && t in After(EMPTY, evs).tasks
    ensures RowOk(After(EMPTY, evs).tasks[t].row, After(EMPTY, evs).tasks[t].reclaims)
  {
    RunKeepsLeaseInv(evs);
  }

  predicate Edge(a: Status, b: Status) {
    || a == b
    || (a == Pending && b == Running)
    || (a == Running && b != Running)
    || (a == Blocked && b == Pending)
  }

  /** A closed row is nobody's to write. */
  lemma ClosedRowStays(s: State, e: ExecId, w: Work)
    requires Sane(s) && LeaseInv(s) && CanDo(s, e, w)
    ensures
      var t := s.execs[e].msg.task;
      && t in s.tasks && t in Do(s, e, w).tasks
      && (s.tasks[t].row.status !in {Pending, Running} ==> Do(s, e, w).tasks[t] == s.tasks[t])
  {
    DoKeepsTie(s, e, w);
    if Holder(s, e) {
      TieLasts(s, s, e);
    }
    hide Do, CanDo, RowOk, Tied;
  }

  lemma DoFollowsEdges(s: State, e: ExecId, w: Work)
    requires Sane(s) && LeaseInv(s) && CanDo(s, e, w)
    ensures
      var s' := Do(s, e, w);
      forall t :: t in s.tasks ==>
        t in s'.tasks && Edge(s.tasks[t].row.status, s'.tasks[t].row.status)
        && (s.tasks[t].row.status !in {Pending, Running} ==> s'.tasks[t] == s.tasks[t])
  {
    DoKeepsOtherTasks(s, e, w);
    ClosedRowStays(s, e, w);
    DoMovesAlongEdge(s, e, w);
    hide Do, CanDo, LeaseInv, Sane;
  }

  lemma DoMovesAlongEdge(s: State, e: ExecId, w: Work)
    requires CanDo(s, e, w) && s.execs[e].msg.task in s.tasks && (Holder(s, e) ==> Tied(s, e))
    ensures
      var t := s.execs[e].msg.task;
      t in Do(s, e, w).tasks && Edge(s.tasks[t].row.status, Do(s, e, w).tasks[t].row.status)
  {
    hide BaseFits;
  }

  /** Each step takes each row along an edge of the status graph; closed rows do not change at all. */
  lemma StatusFollowsEdges(evs: seq<Event>, ev: Event, t: TaskId)
    requires LeasedRun(EMPTY, evs) && Enabled(After(EMPTY, evs), ev) && t in After(EMPTY, evs).tasks
    ensures
      var s := After(EMPTY, evs);
      var s' := Apply(s, ev);
      && t in s'.tasks
      && Edge(s.tasks[t].row.status, s'.tasks[t].row.status)
      && (Terminal(s.tasks[t].row.status) ==> s'.tasks[t] == s.tasks[t])
      && (s.tasks[t].row.status == Blocked && !IsReleasable(s.tasks[t].row, s.clock) ==> s'.tasks[t] == s.tasks[t])
  {
    RunKeepsPaired(evs);
    RunKeepsLeaseInv(evs);
    var s := After(EMPTY, evs);
    hide LeasedRun, Legal, After, LeaseInv, Sane, Do, CanDo;
    if ev.Does? {
      DoFollowsEdges(s, ev.e, ev.w);
    }
  }

  /** Nothing may yet touch the row: it is closed for good, or blocked and its deadline not passed. */
  predicate Settled(r: Row, now: Time) {
    Terminal(r.status) || (r.status == Blocked && r.blockedUntil.Some? && now <= r.blockedUntil.value)
  }

  lemma ClockOnlyAdvances(s: State, ev: Event)
    requires Enabled(s, ev)
    ensures s.clock <= Apply(s, ev).clock
  {
    hide Do, CanDo;
    if ev.Does? {
      DoKeepsOtherExecs(s, ev.e, ev.w);
    }
  }

  /**
   * Once a row is SUCCESS or FAILED it never changes again; once it is BLOCKED until u it does not change, and
   * so cannot be claimed, in any state whose clock has not passed u.
   */
  lemma {:induction false} SettledStays(evs: seq<Event>, k: nat, t: TaskId)
    requires k <= |evs| && LeasedRun(EMPTY, evs) && LeasedRun(EMPTY, evs[..k])
    requires t in After(EMPTY, evs[..k]).tasks
    requires Settled(After(EMPTY, evs[..k]).tasks[t].row, After(EMPTY, evs).clock)
    ensures After(EMPTY, evs[..k]).clock <= After(EMPTY, evs).clock
    ensures t in After(EMPTY, evs).tasks && After(EMPTY, evs).tasks[t] == After(EMPTY, evs[..k]).tasks[t]
    decreases |evs|
  {
    if k == |evs| {
      assert evs[..k] == evs;
    } else {
      var prefix := evs[..|evs| - 1];
      assert prefix[..k] == evs[..k];
      ClockOnlyAdvances(After(EMPTY, prefix), evs[|evs| - 1]);
      SettledStays(prefix, k, t);
      StatusFollowsEdges(prefix, evs[|evs| - 1], t);
    }
  }
}
