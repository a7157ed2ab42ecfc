/**
 * Files rows and ledger rows stay paired, and counters stay ordered, in every legal run: any number of workers,
 * stale ones included, crashing, failing to commit and cleaning up in any order. No lease is assumed.
 */
module Pairing {
  import opened Basics
  import opened Tasks
  import opened Protocol

  /** Every message and execution has its task, no heartbeat is in the future and no count is out of order. */
  ghost predicate Sane(s: State) {
    && (forall m :: m in s.queue ==> m.task in s.tasks)
    && (forall m :: m in s.senders ==> m.task in s.tasks)
    && (forall e :: e in s.execs ==> s.execs[e].msg.task in s.tasks && RowSane(s.execs[e].base, s.clock))
    && (forall t :: t in s.tasks ==> RowSane(s.tasks[t].row, s.clock))
  }

  ghost predicate RowSane(r: Row, now: Time) {
    CountersOk(r) && (r.lastHeartbeat.Some? ==> r.lastHeartbeat.value <= now)
  }

  ghost predicate FilePaired(s: State, f: FileId)
    requires f in s.files
  {
    var k := Entry(s.files[f].task, s.files[f].filename);
    k in s.ledger && s.ledger[k] == LedgerRow(s.files[f].hash, f, s.files[f].size)
  }

  ghost predicate EntryPaired(s: State, k: Entry)
    requires k in s.ledger
  {
    var f := s.ledger[k].partner;
    f in s.files && s.files[f].filename == k.name && s.files[f].task == k.task
  }

  /** What an execution has made is there, and belongs to its task. */
  ghost predicate MadeOk(s: State, e: ExecId)
    requires e in s.execs
  {
    forall f :: f in s.execs[e].made ==> f in s.files && s.files[f].task == s.execs[e].msg.task
  }

  /** No two executions have made the same files row. */
  ghost predicate MadeApart(s: State) {
    forall e, e' :: e in s.execs && e' in s.execs && e != e' ==> s.execs[e].made !! s.execs[e'].made
  }

  ghost predicate Paired(s: State) {
    && (forall f :: f in s.files ==> FilePaired(s, f))
    && (forall k :: k in s.ledger ==> EntryPaired(s, k))
    && (forall e :: e in s.execs ==> MadeOk(s, e))
    && MadeApart(s)
  }

  /** From s to s' execution e has written at most its own record and its task's row. */
  ghost predicate WritesOwn(s: State, s': State, e: ExecId)
    requires e in s.execs
  {
    var x := s.execs[e];
    && s'.clock == s.clock && s'.senders == s.senders && s'.nextMsg == s.nextMsg
    && (s'.queue == s.queue || s'.queue == s.queue + {x.msg})
    && (s'.execs == s.execs - {e}
        || (e in s'.execs && s'.execs == s.execs[e := s'.execs[e]]
            && s'.execs[e].msg == x.msg && s'.execs[e].host == x.host))
    && (s'.tasks == s.tasks
        || (x.msg.task in s.tasks && x.msg.task in s'.tasks
            && s'.tasks == s.tasks[x.msg.task := s'.tasks[x.msg.task]]
            && s'.tasks[x.msg.task].reclaims == s.tasks[x.msg.task].reclaims))
  }

  lemma ClaimWritesOwn(s: State, e: ExecId)
    requires e in s.execs
    ensures WritesOwn(s, AfterClaim(s, e), e)
  {
    hide ClaimedRow;
  }

  lemma SaveWritesOwn(s: State, e: ExecId, row: Row)
    requires e in s.execs && s.execs[e].msg.task in s.tasks
    ensures WritesOwn(s, AfterSave(s, e, row), e)
  {
  }

  lemma DoWritesOwn(s: State, e: ExecId, w: Work)
    requires CanDo(s, e, w)
    ensures WritesOwn(s, Do(s, e, w), e)
  {
    hide Evolves;
    if w.Claim? {
      ClaimWritesOwn(s, e);
      hide AfterClaim, WritesOwn;
    } else if w.Save? && w.ok {
      SaveWritesOwn(s, e, w.row);
      hide AfterSave, WritesOwn;
    } else {
      OtherWritesOwn(s, e, w);
      hide WritesOwn;
    }
  }

  lemma OtherWritesOwn(s: State, e: ExecId, w: Work)
    requires CanDo(s, e, w) && !w.Claim? && !(w.Save? && w.ok)
    ensures WritesOwn(s, Do(s, e, w), e)
  {
    hide Evolves, AfterClaim, AfterSave;
  }

  /** So it changes no other execution, neither the clock nor what producers have yet to send. */
  lemma DoKeepsOtherExecs(s: State, e: ExecId, w: Work)
    requires CanDo(s, e, w)
    ensures
      var s' := Do(s, e, w);
      && s'.clock == s.clock && s'.senders == s.senders && s'.nextMsg == s.nextMsg
      && (s'.queue == s.queue || s'.queue == s.queue + {s.execs[e].msg})
      && (forall d :: d != e ==> ((d in s'.execs) <==> (d in s.execs)) && (d in s.execs ==> s'.execs[d] == s.execs[d]))
  {
    DoWritesOwn(s, e, w);
    hide Do;
  }

  lemma DoKeepsIdentity(s: State, e: ExecId, w: Work)
    requires CanDo(s, e, w)
    ensures
      var s' := Do(s, e, w);
      e in s'.execs ==> s'.execs[e].msg == s.execs[e].msg && s'.execs[e].host == s.execs[e].host
  {
    DoWritesOwn(s, e, w);
    hide Do;
  }

  /** ... and no other task's row. */
  lemma DoKeepsOtherTasks(s: State, e: ExecId, w: Work)
    requires CanDo(s, e, w)
    ensures
      var s' := Do(s, e, w);
      var t := s.execs[e].msg.task;
      && s'.tasks.Keys == s.tasks.Keys
      && (forall u :: u in s.tasks && u != t ==> s'.tasks[u] == s.tasks[u])
      && (t in s.tasks ==> s'.tasks[t].reclaims == s.tasks[t].reclaims)
  {
    DoWritesOwn(s, e, w);
    hide Do;
  }

  lemma DoKeepsRowsSane(s: State, e: ExecId, w: Work)
    requires Sane(s) && CanDo(s, e, w)
    ensures
      var s' := Do(s, e, w);
      var t := s.execs[e].msg.task;
      && (t in s'.tasks ==> RowSane(s'.tasks[t].row, s.clock))
      && (e in s'.execs ==> RowSane(s'.execs[e].base, s.clock))
  {
    assert RowSane(s.execs[e].base, s.clock) && RowSane(s.tasks[s.execs[e].msg.task].row, s.clock);
    hide Sane;
  }

  lemma DoKeepsSane(s: State, e: ExecId, w: Work)
    requires Sane(s) && CanDo(s, e, w)
    ensures Sane(Do(s, e, w))
  {
    DoKeepsOtherExecs(s, e, w);
    DoKeepsIdentity(s, e, w);
    DoKeepsOtherTasks(s, e, w);
    DoKeepsRowsSane(s, e, w);
    SaneFrame(s, Do(s, e, w), e);
  }

  lemma SaneFrame(s: State, s': State, e: ExecId)
    requires Sane(s) && e in s.execs
    requires s'.clock == s.clock && s'.senders == s.senders && s'.tasks.Keys == s.tasks.Keys
    requires s'.queue == s.queue || s'.queue == s.queue + {s.execs[e].msg}
    requires forall d :: d != e && d in s'.execs ==> d in s.execs && s'.execs[d] == s.execs[d]
    requires e in s'.execs ==> s'.execs[e].msg == s.execs[e].msg && RowSane(s'.execs[e].base, s.clock)
    requires forall u :: u in s.tasks && u != s.execs[e].msg.task ==> s'.tasks[u] == s.tasks[u]
    requires s.execs[e].msg.task in s'.tasks ==> RowSane(s'.tasks[s.execs[e].msg.task].row, s.clock)
    ensures Sane(s')
  {
    hide RowSane;
  }

  lemma SweepKeepsSane(s: State, picked: set<TaskId>, back: Row -> Row)
    requires Sane(s) && picked <= s.tasks.Keys
    requires forall t :: t in picked ==> RowSane(back(s.tasks[t].row), s.clock)
    ensures Sane(AfterSweep(s, picked, back))
  {
    hide RowSane;
  }

  lemma RowStaysSane(r: Row, now: Time, later: Time)
    requires RowSane(r, now) && now <= later
    ensures RowSane(r, later)
  {
  }

  /** Time, producers and broker. */
  lemma OuterKeepsSane(s: State, ev: Event)
    requires Sane(s) && Enabled(s, ev) && (ev.Tick? || ev.Start? || ev.Send? || ev.Drop? || ev.Deliver? || ev.Redeliver?)
    ensures Sane(Apply(s, ev))
  {
    hide Do, CanDo, AfterSweep, RowSane;
    var s' := Apply(s, ev);
    assert RowSane(NEW_ROW, s.clock) by {
      NewRowSane(s.clock);
    }
    forall r | RowSane(r, s.clock)
      ensures RowSane(r, s'.clock)
    {
      RowStaysSane(r, s.clock, s'.clock);
    }
  }

  lemma NewRowSane(now: Time)
    ensures RowSane(NEW_ROW, now)
  {
  }

  lemma StepKeepsSane(s: State, ev: Event)
    requires Sane(s) && Enabled(s, ev)
    ensures Sane(Apply(s, ev))
  {
    if ev.Does? {
      DoKeepsSane(s, ev.e, ev.w);
    } else if ev.ReclaimStuck? {
      SweepKeepsSane(s, ev.picked, StuckReturned);
    } else if ev.ReclaimBlocked? {
      SweepKeepsSane(s, ev.picked, BlockedReleased);
    } else {
      OuterKeepsSane(s, ev);
    }
    hide Do, CanDo, AfterSweep, Sane;
  }

  /** Steps that touch no pair; executions may come, with nothing made, and go. */
  lemma PairedFrame(s: State, s': State)
    requires Paired(s)
    requires s'.files == s.files && s'.ledger == s.ledger
    requires forall e :: e in s'.execs && s'.execs[e].made != {} ==>
      e in s.execs && s'.execs[e].msg == s.execs[e].msg && s'.execs[e].made == s.execs[e].made
    ensures Paired(s')
  {
    forall f | f in s'.files
      ensures FilePaired(s', f)
    {
      assert FilePaired(s, f);
    }
    forall k | k in s'.ledger
      ensures EntryPaired(s', k)
    {
      assert EntryPaired(s, k);
    }
    forall e | e in s'.execs
      ensures MadeOk(s', e)
    {
      assert s'.execs[e].made != {} ==> MadeOk(s, e);
    }
  }

  lemma RecordPairsFiles(s: State, e: ExecId, f: FileId, file: FileRow)
    requires Paired(s) && e in s.execs && f !in s.files && Entry(file.task, file.filename) !in s.ledger
    ensures var s' := AfterRecord(s, e, f, file); forall g :: g in s'.files ==> FilePaired(s', g)
  {
    var s' := AfterRecord(s, e, f, file);
    forall g | g in s'.files
      ensures FilePaired(s', g)
    {
      assert g != f ==> FilePaired(s, g);
    }
  }

  lemma RecordPairsEntries(s: State, e: ExecId, f: FileId, file: FileRow)
    requires Paired(s) && e in s.execs && f !in s.files
    ensures var s' := AfterRecord(s, e, f, file); forall k :: k in s'.ledger ==> EntryPaired(s', k)
  {
    var s' := AfterRecord(s, e, f, file);
    forall k | k in s'.ledger
      ensures EntryPaired(s', k)
    {
      assert k != Entry(file.task, file.filename) ==> EntryPaired(s, k);
    }
  }

  lemma RecordKeepsMade(s: State, e: ExecId, f: FileId, file: FileRow)
    requires Paired(s) && e in s.execs && f !in s.files && file.task == s.execs[e].msg.task
    ensures var s' := AfterRecord(s, e, f, file); (forall d :: d in s'.execs ==> MadeOk(s', d)) && MadeApart(s')
  {
    var s' := AfterRecord(s, e, f, file);
    hide FilePaired, EntryPaired;
    forall d | d in s'.execs
      ensures MadeOk(s', d) && (d != e ==> f !in s.execs[d].made)
    {
      assert MadeOk(s, d);
    }
  }

  lemma RecordKeepsPaired(s: State, e: ExecId, f: FileId, file: FileRow)
    requires Paired(s) && CanDo(s, e, Record(f, file, true))
    ensures Paired(AfterRecord(s, e, f, file))
  {
    RecordPairsFiles(s, e, f, file);
    RecordPairsEntries(s, e, f, file);
    RecordKeepsMade(s, e, f, file);
    hide AfterRecord, FilePaired, EntryPaired, MadeOk, MadeApart, CanDo;
  }

  lemma EraseKeepsPaired(s: State, e: ExecId, f: FileId, name: Name)
    requires Paired(s) && CanDo(s, e, Erase(f, name, true))
    ensures Paired(AfterErase(s, e, f, name))
  {
    var s' := AfterErase(s, e, f, name);
    assert MadeOk(s, e) && FilePaired(s, f);
    forall g | g in s'.files
      ensures FilePaired(s', g)
    {
      assert FilePaired(s, g);
    }
    forall k | k in s'.ledger
      ensures EntryPaired(s', k)
    {
      assert EntryPaired(s, k);
    }
    forall d | d in s'.execs
      ensures MadeOk(s', d)
    {
      assert MadeOk(s, d);
    }
  }

  /** Apart from a committed Record or Erase, an execution's step leaves files, ledger and made alone. */
  lemma DoKeepsPairs(s: State, e: ExecId, w: Work)
    requires CanDo(s, e, w)
    requires !((w.Record? || w.Erase?) && w.ok)
    ensures
      var s' := Do(s, e, w);
      s'.files == s.files && s'.ledger == s.ledger && (e in s'.execs ==> s'.execs[e].made == s.execs[e].made)
  {
  }

  lemma DoKeepsPaired(s: State, e: ExecId, w: Work)
    requires Paired(s) && CanDo(s, e, w)
    ensures Paired(Do(s, e, w))
  {
    hide Paired;
    if w.Record? && w.ok {
      RecordKeepsPaired(s, e, w.f, w.file);
    } else if w.Erase? && w.ok {
      EraseKeepsPaired(s, e, w.f, w.name);
    } else {
      DoKeepsOtherExecs(s, e, w);
      DoKeepsIdentity(s, e, w);
      DoKeepsPairs(s, e, w);
      hide Do, CanDo;
      PairedFrame(s, Do(s, e, w));
    }
  }

  lemma StepKeepsPaired(s: State, ev: Event)
    requires Paired(s) && Enabled(s, ev)
    ensures Paired(Apply(s, ev))
  {
    hide Paired, Do, CanDo;
    if ev.Does? {
      DoKeepsPaired(s, ev.e, ev.w);
    } else {
      PairedFrame(s, Apply(s, ev));
    }
  }

  lemma {:induction false} RunKeepsPaired(evs: seq<Event>)
    requires Legal(EMPTY, evs)
    ensures Sane(After(EMPTY, evs)) && Paired(After(EMPTY, evs))
  {
    if evs != [] {
      var prefix := evs[..|evs| - 1];
      RunKeepsPaired(prefix);
      StepKeepsSane(After(EMPTY, prefix), evs[|evs| - 1]);
      StepKeepsPaired(After(EMPTY, prefix), evs[|evs| - 1]);
    }
  }

  /** The files rows called n, and the ledger rows for n. */
  ghost function FilesNamed(s: State, n: Name): set<FileId> {
    set f | f in s.files && s.files[f].filename == n
  }

  ghost function EntriesNamed(s: State, n: Name): set<Entry> {
    set k | k in s.ledger && k.name == n
  }

  lemma {:induction false} SameSize(s: State, a: set<FileId>, b: set<Entry>)
    requires b <= s.ledger.Keys
    requires forall k :: k in b ==> s.ledger[k].partner in a
    requires forall k, l :: k in b && l in b && s.ledger[k].partner == s.ledger[l].partner ==> k == l
    requires forall f :: f in a ==> exists k :: k in b && s.ledger[k].partner == f
    ensures |a| == |b|
  {
    if b == {} {
      assert a == {};
    } else {
      var k :| k in b;
      var f := s.ledger[k].partner;
      forall g | g in a - {f}
        ensures exists l :: l in b - {k} && s.ledger[l].partner == g
      {
        var l :| l in b && s.ledger[l].partner == g;
        assert l in b - {k};
      }
      SameSize(s, a - {f}, b - {k});
    }
  }

  /** In every reachable state each name has as many files rows as ledger rows. */
  lemma CountsAgree(evs: seq<Event>, n: Name)
    requires Legal(EMPTY, evs)
    ensures |FilesNamed(After(EMPTY, evs), n)| == |EntriesNamed(After(EMPTY, evs), n)|
  {
    RunKeepsPaired(evs);
    var s := After(EMPTY, evs);
    var a, b := FilesNamed(s, n), EntriesNamed(s, n);
    forall k | k in b
      ensures EntryPaired(s, k)
    {
    }
    forall f | f in a
      ensures exists k :: k in b && s.ledger[k].partner == f
    {
      assert FilePaired(s, f);
      assert Entry(s.files[f].task, n) in b;
    }
    SameSize(s, a, b);
  }

  /** A cleanup removes one pair, the one its own execution inserted, and nothing else. */
  lemma EraseRemovesOwnPair(evs: seq<Event>, e: ExecId, f: FileId, name: Name)
    requires Legal(EMPTY, evs) && CanDo(After(EMPTY, evs), e, Erase(f, name, true))
    ensures
      var s := After(EMPTY, evs);
      var k := Entry(s.execs[e].msg.task, name);
      var s' := Do(s, e, Erase(f, name, true));
      && f in s.files && s.files[f].filename == name && s.files[f].task == s.execs[e].msg.task
      && k in s.ledger && s.ledger[k] == LedgerRow(s.files[f].hash, f, s.files[f].size)
      && s'.files == s.files - {f} && s'.ledger == s.ledger - {k} && s'.tasks == s.tasks
      && (forall d :: d in s.execs && d != e ==> f !in s.execs[d].made && s'.execs[d] == s.execs[d])
  {
    RunKeepsPaired(evs);
    var s := After(EMPTY, evs);
    assert MadeOk(s, e) && FilePaired(s, f);
  }

  /** Every persisted row, of every task at every moment, has processed at most received. */
  lemma CountersStayOrdered(evs: seq<Event>, t: TaskId)
    requires Legal(EMPTY, evs) && t in After(EMPTY, evs).tasks
    ensures 0 <= After(EMPTY, evs).tasks[t].row.processed <= After(EMPTY, evs).tasks[t].row.received
  {
    RunKeepsPaired(evs);
  }

  /** A files row that no live execution has made. */
  ghost predicate Orphaned(s: State, f: FileId) {
    f in s.files && forall e :: e in s.execs ==> f !in s.execs[e].made
  }

  lemma DoKeepsOrphan(s: State, e: ExecId, w: Work, f: FileId)
    requires CanDo(s, e, w) && Orphaned(s, f)
    ensures Orphaned(Do(s, e, w), f) && Do(s, e, w).files[f] == s.files[f]
  {
    DoKeepsOtherExecs(s, e, w);
    hide Evolves, ClaimedRow;
    var s' := Do(s, e, w);
    if w.Record? && w.ok {
      assert f != w.f;
    }
  }

  lemma StepKeepsOrphan(s: State, ev: Event, f: FileId)
    requires Enabled(s, ev) && Orphaned(s, f)
    ensures Orphaned(Apply(s, ev), f) && Apply(s, ev).files[f] == s.files[f]
  {
    hide Do, CanDo;
    if ev.Does? {
      DoKeepsOrphan(s, ev.e, ev.w, f);
    }
  }

  /** A maker that leaves, by an acknowledgement or a crash, leaves its rows to nobody. */
  lemma LeavingOrphans(s: State, e: ExecId, w: Work, f: FileId)
    requires Paired(s) && CanDo(s, e, w) && (w.Exit? || w.Crash?) && f in s.execs[e].made
    ensures Orphaned(Do(s, e, w), f) && Do(s, e, w).files[f] == s.files[f]
  {
    assert MadeOk(s, e);
  }

  /** Durability: once its maker has left, a pair is never changed or removed, whatever happens. */
  lemma {:induction false} PairOutlivesMaker(s: State, evs: seq<Event>, f: FileId)
    requires Paired(s) && Orphaned(s, f) && Legal(s, evs)
    ensures
      var s' := After(s, evs);
      && Orphaned(s', f) && s'.files[f] == s.files[f]
      && var k := Entry(s.files[f].task, s.files[f].filename);
      k in s.ledger && k in s'.ledger && s'.ledger[k] == s.ledger[k]
    ensures Paired(After(s, evs))
  {
    assert FilePaired(s, f);
    if evs != [] {
      var prefix, last := evs[..|evs| - 1], evs[|evs| - 1];
      PairOutlivesMaker(s, prefix, f);
      hide Enabled, Apply, Orphaned;
      StepKeepsOrphan(After(s, prefix), last, f);
      StepKeepsPaired(After(s, prefix), last);
      assert FilePaired(After(s, evs), f);
    }
  }
}
