/**
 * Lost wakeups. A PENDING task can be claimed only through a message, and nothing sweeps PENDING rows, so a
 * task whose last message is lost stays PENDING for ever.
 */
module Wakeups {
  import opened Basics
  import opened Tasks
  import opened Protocol
  import opened Pairing

  ghost predicate IsPending(s: State, t: TaskId) {
    t in s.tasks && s.tasks[t].row.status == Pending
  }

  /** A message for t is queued, or delivered and not yet tried by a claim, or about to be sent. */
  ghost predicate Woken(s: State, t: TaskId) {
    || (exists m :: m in s.queue && m.task == t)
    || (exists m :: m in s.senders && m.task == t)
    || (exists e :: e in s.execs && s.execs[e].msg.task == t && s.execs[e].phase == Waiting)
  }

  /** The two ways a message can vanish: its producer never sends it, or the claim raises and it is acknowledged. */
  predicate Loses(s: State, ev: Event, t: TaskId) {
    match ev
    case Drop(m) => m.task == t
    case Does(e, w) => w.ClaimRaises? && e in s.execs && s.execs[e].msg.task == t
    case _ => false
  }

  ghost predicate NeverLoses(s: State, evs: seq<Event>, t: TaskId)
    requires Legal(s, evs)
  {
    evs == [] ||
    (NeverLoses(s, evs[..|evs| - 1], t) && !Loses(After(s, evs[..|evs| - 1]), evs[|evs| - 1], t))
  }

  lemma DoKeepsWoken(s: State, e: ExecId, w: Work, t: TaskId)
    requires CanDo(s, e, w) && !Loses(s, Does(e, w), t)
    requires IsPending(s, t) ==> Woken(s, t)
    ensures IsPending(Do(s, e, w), t) ==> Woken(Do(s, e, w), t)
  {
    var s' := Do(s, e, w);
    DoKeepsOtherExecs(s, e, w);
    DoKeepsOtherTasks(s, e, w);
    if IsPending(s', t) {
      DoNeverMakesPending(s, e, w, t);
      if exists m :: m in s.queue && m.task == t {
        var m :| m in s.queue && m.task == t;
        assert m in s'.queue;
      } else if exists m :: m in s.senders && m.task == t {
        var m :| m in s.senders && m.task == t;
        assert m in s'.senders;
      } else {
        var d :| d in s.execs && s.execs[d].msg.task == t && s.execs[d].phase == Waiting;
        WaitingStays(s, e, w, d);
        assert (d in s'.execs && s'.execs[d] == s.execs[d]) || s.execs[d].msg in s'.queue;
      }
    }
  }

  lemma DoNeverMakesPending(s: State, e: ExecId, w: Work, t: TaskId)
    requires CanDo(s, e, w) && IsPending(Do(s, e, w), t)
    ensures IsPending(s, t)
  {
    DoKeepsOtherTasks(s, e, w);
  }

  /** A waiting execution only stops waiting by a crash, a raising claim, or a claim that leaves the row not PENDING. */
  lemma WaitingStays(s: State, e: ExecId, w: Work, d: ExecId)
    requires CanDo(s, e, w) && d in s.execs && s.execs[d].phase == Waiting
    requires !Loses(s, Does(e, w), s.execs[d].msg.task)
    ensures
      var s' := Do(s, e, w);
      || (d in s'.execs && s'.execs[d] == s.execs[d])
      || s.execs[d].msg in s'.queue
      || !IsPending(s', s.execs[d].msg.task)
  {
    DoKeepsOtherExecs(s, e, w);
    hide Evolves;
  }

  lemma SweepKeepsWoken(s: State, picked: set<TaskId>, back: Row -> Row, t: TaskId)
    requires IsPending(s, t) ==> Woken(s, t)
    ensures IsPending(AfterSweep(s, picked, back), t) ==> Woken(AfterSweep(s, picked, back), t)
  {
    var s' := AfterSweep(s, picked, back);
    if IsPending(s', t) {
      if t in picked {
        assert Message(s.nextMsg, t) in s'.senders;
      } else {
        assert IsPending(s, t);
        if exists m :: m in s.senders && m.task == t {
          var m :| m in s.senders && m.task == t;
          assert m in s'.senders;
        }
      }
    }
  }

  lemma StepKeepsWoken(s: State, ev: Event, t: TaskId)
    requires Enabled(s, ev) && !Loses(s, ev, t)
    requires IsPending(s, t) ==> Woken(s, t)
    ensures IsPending(Apply(s, ev), t) ==> Woken(Apply(s, ev), t)
  {
    if ev.Does? {
      hide IsPending, Woken, Do, CanDo, Loses;
      DoKeepsWoken(s, ev.e, ev.w, t);
    } else if ev.ReclaimStuck? {
      hide IsPending, Woken, AfterSweep, Stuck;
      SweepKeepsWoken(s, ev.picked, StuckReturned, t);
    } else if ev.ReclaimBlocked? {
      hide IsPending, Woken, AfterSweep, Releasable;
      SweepKeepsWoken(s, ev.picked, BlockedReleased, t);
    } else {
      OuterKeepsWoken(s, ev, t);
    }
  }

  lemma OuterKeepsWoken(s: State, ev: Event, t: TaskId)
    requires Enabled(s, ev) && !Loses(s, ev, t) && !ev.Does? && !ev.ReclaimStuck? && !ev.ReclaimBlocked?
    requires IsPending(s, t) ==> Woken(s, t)
    ensures IsPending(Apply(s, ev), t) ==> Woken(Apply(s, ev), t)
  {
    hide Do, CanDo, AfterSweep, Stuck, Releasable;
    var s' := Apply(s, ev);
    if IsPending(s, t) {
      if exists m :: m in s.queue && m.task == t {
        var m :| m in s.queue && m.task == t;
        assert m in s'.queue || (ev.Deliver? && ev.e in s'.execs && s'.execs[ev.e].msg == m);
      } else if exists m :: m in s.senders && m.task == t {
        var m :| m in s.senders && m.task == t;
        assert m in s'.senders || m in s'.queue;
      } else {
        var d :| d in s.execs && s.execs[d].msg.task == t && s.execs[d].phase == Waiting;
        assert d in s'.execs && s'.execs[d] == s.execs[d];
      }
    } else if IsPending(s', t) {
      assert ev == Start(t);
      assert Message(s.nextMsg, t) in s'.senders;
    }
  }

  /** No lost wakeup: whatever crashes, duplicates and reclaims happen, a PENDING task has a message under way. */
  lemma {:induction false} NoLostWakeup(evs: seq<Event>, t: TaskId)
    requires Legal(EMPTY, evs) && NeverLoses(EMPTY, evs, t)
    ensures IsPending(After(EMPTY, evs), t) ==> Woken(After(EMPTY, evs), t)
  {
    if evs != [] {
      var prefix := evs[..|evs| - 1];
      NoLostWakeup(prefix, t);
      hide IsPending, Woken, Loses;
      StepKeepsWoken(After(EMPTY, prefix), evs[|evs| - 1], t);
    }
  }

  /** Some message for t still exists anywhere, if only unacknowledged. */
  ghost predicate Stirred(s: State, t: TaskId) {
    || (exists m :: m in s.queue && m.task == t)
    || (exists m :: m in s.senders && m.task == t)
    || (exists e :: e in s.execs && s.execs[e].msg.task == t)
  }

  /** The row can still leave PENDING in some legal continuation. */
  ghost predicate CanMove(s: State, t: TaskId) {
    exists evs :: Legal(s, evs) && !IsPending(After(s, evs), t)
  }

  lemma StepKeepsStill(s: State, ev: Event, t: TaskId)
    requires Enabled(s, ev) && IsPending(s, t) && !Stirred(s, t)
    ensures IsPending(Apply(s, ev), t) && !Stirred(Apply(s, ev), t)
  {
    if ev.Does? {
      DoKeepsOtherExecs(s, ev.e, ev.w);
      DoKeepsIdentity(s, ev.e, ev.w);
      DoKeepsOtherTasks(s, ev.e, ev.w);
      assert s.execs[ev.e].msg.task != t;
    }
    hide Do, CanDo;
  }

  lemma {:induction false} StillForEver(s: State, evs: seq<Event>, t: TaskId)
    requires Legal(s, evs) && IsPending(s, t) && !Stirred(s, t)
    ensures IsPending(After(s, evs), t) && !Stirred(After(s, evs), t)
  {
    if evs != [] {
      var prefix := evs[..|evs| - 1];
      StillForEver(s, prefix, t);
      hide IsPending, Stirred;
      StepKeepsStill(After(s, prefix), evs[|evs| - 1], t);
    }
  }

  lemma {:induction false} FreshExec(used: set<ExecId>) returns (bound: int)
    ensures forall e :: e in used ==> e.number < bound
  {
    if used == {} {
      bound := 0;
    } else {
      var e :| e in used;
      var rest := FreshExec(used - {e});
      bound := Max(rest, e.number + 1);
    }
  }

  /** One more step towards the claim. */
  lemma MovesAfter(s: State, ev: Event, t: TaskId)
    requires Enabled(s, ev) && CanMove(Apply(s, ev), t)
    ensures CanMove(s, t)
  {
    var evs :| Legal(Apply(s, ev), evs) && !IsPending(After(Apply(s, ev), evs), t);
    ConsRun(s, ev, evs);
  }

  lemma {:induction false} ConsRun(s: State, ev: Event, evs: seq<Event>)
    requires Enabled(s, ev) && Legal(Apply(s, ev), evs)
    ensures Legal(s, [ev] + evs) && After(s, [ev] + evs) == After(Apply(s, ev), evs)
  {
    if evs == [] {
      LegalSnoc(s, [], ev);
      assert [ev] + [] == [] + [ev];
    } else {
      var prefix, last := evs[..|evs| - 1], evs[|evs| - 1];
      ConsRun(s, ev, prefix);
      LegalSnoc(s, [ev] + prefix, last);
      assert [ev] + evs == ([ev] + prefix) + [last];
    }
  }

  lemma WaitingMoves(s: State, e: ExecId, t: TaskId)
    requires IsPending(s, t) && e in s.execs && s.execs[e].phase == Waiting && s.execs[e].msg.task == t
    ensures CanMove(s, t)
  {
    LegalSnoc(s, [], Does(e, Claim));
    assert [] + [Does(e, Claim)] == [Does(e, Claim)];
    assert !IsPending(After(s, [Does(e, Claim)]), t);
  }

  lemma QueuedMoves(s: State, m: Message, t: TaskId)
    requires IsPending(s, t) && m in s.queue && m.task == t
    ensures CanMove(s, t)
  {
    var bound := FreshExec(s.execs.Keys);
    var ev := Deliver(ExecId(bound), m, "");
    WaitingMoves(Apply(s, ev), ExecId(bound), t);
    MovesAfter(s, ev, t);
  }

  /** A PENDING task can ever be claimed again if and only if some message for it still exists. */
  lemma MovesIffStirred(s: State, t: TaskId)
    requires IsPending(s, t)
    ensures CanMove(s, t) <==> Stirred(s, t)
  {
    if CanMove(s, t) && !Stirred(s, t) {
      var evs :| Legal(s, evs) && !IsPending(After(s, evs), t);
      StillForEver(s, evs, t);
    }
    if exists m :: m in s.queue && m.task == t {
      var m :| m in s.queue && m.task == t;
      QueuedMoves(s, m, t);
    } else if exists m :: m in s.senders && m.task == t {
      var m :| m in s.senders && m.task == t;
      QueuedMoves(Apply(s, Send(m)), m, t);
      MovesAfter(s, Send(m), t);
    } else if exists e :: e in s.execs && s.execs[e].msg.task == t {
      var e :| e in s.execs && s.execs[e].msg.task == t;
      QueuedMoves(Apply(s, Redeliver(e)), s.execs[e].msg, t);
      MovesAfter(s, Redeliver(e), t);
    }
  }

  /** The loss is real: a producer that commits and never sends leaves its task PENDING for ever. */
  lemma ProducerLoss(t: TaskId)
    ensures
      var evs := [Start(t), Drop(Message(0, t))];
      Legal(EMPTY, evs) && IsPending(After(EMPTY, evs), t) && !CanMove(After(EMPTY, evs), t)
  {
    var m := Message(0, t);
    LegalSnoc(EMPTY, [], Start(t));
    assert [] + [Start(t)] == [Start(t)];
    LegalSnoc(EMPTY, [Start(t)], Drop(m));
    assert [Start(t)] + [Drop(m)] == [Start(t), Drop(m)];
    MovesIffStirred(After(EMPTY, [Start(t), Drop(m)]), t);
  }

  /** So is the other one: a claim that raises is acknowledged, and its task stays PENDING for ever. */
  lemma ClaimErrorLoss(t: TaskId, e: ExecId, host: string)
    ensures
      var evs := [Start(t), Send(Message(0, t)), Deliver(e, Message(0, t), host), Does(e, ClaimRaises)];
      Legal(EMPTY, evs) && IsPending(After(EMPTY, evs), t) && !CanMove(After(EMPTY, evs), t)
  {
    var m := Message(0, t);
    var evs := [Start(t), Send(m), Deliver(e, m, host), Does(e, ClaimRaises)];
    LegalSnoc(EMPTY, [], Start(t));
    assert evs[..1] == [] + [Start(t)];
    LegalSnoc(EMPTY, evs[..1], Send(m));
    assert evs[..2] == evs[..1] + [Send(m)];
    LegalSnoc(EMPTY, evs[..2], Deliver(e, m, host));
    assert evs[..3] == evs[..2] + [Deliver(e, m, host)];
    LegalSnoc(EMPTY, evs[..3], Does(e, ClaimRaises));
    assert evs == evs[..3] + [Does(e, ClaimRaises)];
    MovesIffStirred(After(EMPTY, evs), t);
  }

  /** And the third: a sweep returns a row whose last message is gone, and its own message is lost. */
  lemma SweepLosses(s: State, ev: Event, t: TaskId)
    requires Enabled(s, ev) && ((ev.ReclaimStuck? && t in ev.picked) || (ev.ReclaimBlocked? && t in ev.picked))
    requires t in s.tasks && !Stirred(s, t)
    ensures
      var m := Message(s.nextMsg, t);
      && Enabled(Apply(s, ev), Drop(m))
      && IsPending(Apply(Apply(s, ev), Drop(m)), t) && !CanMove(Apply(Apply(s, ev), Drop(m)), t)
  {
    var s1 := Apply(s, ev);
    var m := Message(s.nextMsg, t);
    assert m in s1.senders;
    var s2 := Apply(s1, Drop(m));
    forall n | n in s2.senders
      ensures n.task != t
    {
      assert n in s.senders || n.id == s.nextMsg;
    }
    assert !Stirred(s2, t);
    MovesIffStirred(s2, t);
  }

  /** One event more of a run. */
  lemma OneMore(evs: seq<Event>, k: nat, s: State)
    requires k < |evs| && Legal(EMPTY, evs[..k]) && After(EMPTY, evs[..k]) == s && Enabled(s, evs[k])
    ensures Legal(EMPTY, evs[..k + 1]) && After(EMPTY, evs[..k + 1]) == Apply(s, evs[k])
  {
    LegalSnoc(EMPTY, evs[..k], evs[k]);
    assert evs[..k + 1] == evs[..k] + [evs[k]];
  }

  const CLAIMED_ROW := ClaimedRow(NEW_ROW, "", 0)

  /** The claimed row after a block of 61 seconds. */
  const PARKED_ROW := CLAIMED_ROW.(
    status := Blocked, blockedUntil := Some(61 * SECOND), blockReason := Some(""), error := Some(BlockError("")))

  function ReleaseLossRun(t: TaskId, e: ExecId): seq<Event> {
    [Start(t), Send(Message(0, t)), Deliver(e, Message(0, t), ""), Does(e, Claim),
     Does(e, Work.Load), Does(e, Save(PARKED_ROW, true)), Does(e, Exit), Tick(62 * SECOND),
     ReclaimBlocked({t}), Drop(Message(1, t))]
  }

  /** After the claim. */
  function ClaimedState(t: TaskId, e: ExecId): State {
    EMPTY.(tasks := map[t := Task(CLAIMED_ROW, 0)], nextMsg := 1,
           execs := map[e := Exec(Message(0, t), "", Claimed, CLAIMED_ROW, 0, {})])
  }

  /** The message queued. */
  function QueuedState(t: TaskId): State {
    EMPTY.(tasks := map[t := Task(NEW_ROW, 0)], queue := {Message(0, t)}, nextMsg := 1)
  }

  lemma RunToQueue(t: TaskId, e: ExecId)
    ensures
      var evs := ReleaseLossRun(t, e);
      Legal(EMPTY, evs[..2]) && After(EMPTY, evs[..2]) == QueuedState(t)
  {
    var evs := ReleaseLossRun(t, e);
    NoRun(evs);
    hide Legal, After;
    OneMore(evs, 0, EMPTY);
    var s1 := Apply(EMPTY, evs[0]);
    OneMore(evs, 1, s1);
    assert Apply(s1, evs[1]) == QueuedState(t);
  }

  lemma RunToClaim(t: TaskId, e: ExecId)
    ensures
      var evs := ReleaseLossRun(t, e);
      Legal(EMPTY, evs[..4]) && After(EMPTY, evs[..4]) == ClaimedState(t, e)
  {
    var evs, s2 := ReleaseLossRun(t, e), QueuedState(t);
    RunToQueue(t, e);
    hide Legal, After;
    OneMore(evs, 2, s2);
    var s3 := Apply(s2, evs[2]);
    OneMore(evs, 3, s3);
    assert Apply(s3, evs[3]) == ClaimedState(t, e);
  }

  lemma NoRun(evs: seq<Event>)
    ensures Legal(EMPTY, evs[..0]) && After(EMPTY, evs[..0]) == EMPTY
  {
  }

  /** After the block, with nobody left and the deadline over. */
  function ParkedState(t: TaskId): State {
    EMPTY.(clock := 62 * SECOND, tasks := map[t := Task(PARKED_ROW, 0)], nextMsg := 1)
  }

  lemma RunToSave(t: TaskId, e: ExecId)
    ensures
      var evs := ReleaseLossRun(t, e);
      Legal(EMPTY, evs[..6]) && After(EMPTY, evs[..6]) == SavedState(t, e)
  {
    var evs, s4 := ReleaseLossRun(t, e), ClaimedState(t, e);
    RunToClaim(t, e);
    hide Legal, After;
    OneMore(evs, 4, s4);
    var s5 := Apply(s4, evs[4]);
    OneMore(evs, 5, s5);
    assert Apply(s5, evs[5]) == SavedState(t, e);
  }

  /** The block persisted, not yet acknowledged. */
  function SavedState(t: TaskId, e: ExecId): State {
    EMPTY.(tasks := map[t := Task(PARKED_ROW, 0)], nextMsg := 1,
           execs := map[e := Exec(Message(0, t), "", Closed, PARKED_ROW, 0, {})])
  }

  lemma RunToDeadline(t: TaskId, e: ExecId)
    ensures
      var evs := ReleaseLossRun(t, e);
      Legal(EMPTY, evs[..8]) && After(EMPTY, evs[..8]) == ParkedState(t)
  {
    var evs, s6 := ReleaseLossRun(t, e), SavedState(t, e);
    RunToSave(t, e);
    hide Legal, After;
    OneMore(evs, 6, s6);
    var s7 := Apply(s6, evs[6]);
    OneMore(evs, 7, s7);
    assert Apply(s7, evs[7]) == ParkedState(t);
  }

  /** A run of that kind: a task blocked, its attempt acknowledged, released in time, and never woken again. */
  lemma ReleaseLoss(t: TaskId, e: ExecId)
    ensures
      var evs := ReleaseLossRun(t, e);
      Legal(EMPTY, evs) && IsPending(After(EMPTY, evs), t) && !CanMove(After(EMPTY, evs), t)
  {
    var evs, s8 := ReleaseLossRun(t, e), ParkedState(t);
    RunToDeadline(t, e);
    hide Legal, After;
    assert Releasable(s8) == {t};
    SweepLosses(s8, ReclaimBlocked({t}), t);
    OneMore(evs, 8, s8);
    OneMore(evs, 9, Apply(s8, evs[8]));
    assert evs[..10] == evs;
  }
}
