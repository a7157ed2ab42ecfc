/** Why the lease is needed: once a holder's heartbeat is too old, its task can be given to a second holder. */
module Expiry {
  import opened Basics
  import opened Protocol
  import opened Leases
  import opened Wakeups
  import opened Drain

  /** LIMIT may pick any given eligible row. */
  lemma {:induction false} SomePickHas(eligible: set<TaskId>, t: TaskId, n: nat) returns (picked: set<TaskId>)
    requires t in eligible && 1 <= n <= |eligible|
    ensures t in picked && picked <= eligible && |picked| == n
  {
    if n == 1 {
      picked := {t};
    } else {
      var rest := SomePickHas(eligible, t, n - 1);
      SubsetSize(rest, eligible);
      var u :| u in eligible - rest;
      picked := rest + {u};
    }
  }

  /** A PENDING row with an unsent message can be claimed in three steps, whatever else holds. */
  lemma NextHolder(s: State, t: TaskId, m: Message) returns (evs: seq<Event>, d: ExecId)
    requires IsPending(s, t) && m in s.senders && m.task == t
    ensures d !in s.execs && Legal(s, evs)
    ensures
      var s' := After(s, evs);
      Holder(s', d) && s'.execs[d].msg.task == t && forall e :: e in s.execs ==> e in s'.execs && s'.execs[e] == s.execs[e]
  {
    var bound := FreshExec(s.execs.Keys);
    d := ExecId(bound);
    var s1 := Apply(s, Send(m));
    LegalSnoc(s, [], Send(m));
    var s2 := Apply(s1, Deliver(d, m, ""));
    LegalSnoc(s, [] + [Send(m)], Deliver(d, m, ""));
    LegalSnoc(s, [] + [Send(m)] + [Deliver(d, m, "")], Does(d, Claim));
    evs := [] + [Send(m)] + [Deliver(d, m, "")] + [Does(d, Claim)];
    assert After(s, evs) == Apply(s2, Does(d, Claim));
  }

  /**
   * The lease assumption cannot be weakened: in any state where a holder's persisted heartbeat is more than five
   * minutes old, some legal continuation gives the task a second live holder.
   */
  lemma ExpiredLeaseIsLost(s: State, e: ExecId)
    requires Holder(s, e) && Tied(s, e) && s.clock > s.execs[e].lease + MAX_HEARTBEAT_AGE
    ensures exists evs :: Legal(s, evs) && !OneHolder(After(s, evs))
  {
    var t := s.execs[e].msg.task;
    assert t in Stuck(s);
    SubsetSize({t}, Stuck(s));
    var picked := SomePickHas(Stuck(s), t, Min(SWEEP_LIMIT, |Stuck(s)|));
    var ev := ReclaimStuck(picked);
    var m := Message(s.nextMsg, t);
    hide Legal, After;
    assert m in Apply(s, ev).senders && IsPending(Apply(s, ev), t);
    var evs, d := NextHolder(Apply(s, ev), t, m);
    ConsRun(s, ev, evs);
    var s' := After(s, [ev] + evs);
    assert Holder(s', e) && Holder(s', d) && s'.execs[e].msg.task == s'.execs[d].msg.task;
    assert Legal(s, [ev] + evs) && !OneHolder(After(s, [ev] + evs));
  }
}
