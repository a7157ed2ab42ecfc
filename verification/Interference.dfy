/**
 * What an execution can rely on while others run: the views it has of the shared state, and the proof that no
 * step of anyone else disturbs them.
 */
module Interference {
  import opened Basics
  import opened Tasks
  import opened Protocol
  import opened Pairing
  import opened Leases

  /** The rows of one task in a ledger, by name. */
  function OfTask(ledger: map<Entry, LedgerRow>, t: TaskId): map<Name, LedgerRow> {
    map k | k in ledger && k.task == t :: k.name := ledger[k]
  }

  lemma OfTaskAt(ledger: map<Entry, LedgerRow>, t: TaskId, n: Name)
    ensures n in OfTask(ledger, t) <==> Entry(t, n) in ledger
    ensures n in OfTask(ledger, t) ==> OfTask(ledger, t)[n] == ledger[Entry(t, n)]
  {
    if Entry(t, n) in ledger {
      assert Entry(t, n).name in OfTask(ledger, t);
    }
  }

  lemma OfTaskSame(a: map<Entry, LedgerRow>, b: map<Entry, LedgerRow>, t: TaskId)
    requires forall k: Entry :: k.task == t ==> (k in a <==> k in b) && (k in a ==> a[k] == b[k])
    ensures OfTask(a, t) == OfTask(b, t)
  {
    hide OfTask;
    forall n
      ensures n in OfTask(a, t) <==> n in OfTask(b, t)
      ensures n in OfTask(a, t) ==> OfTask(a, t)[n] == OfTask(b, t)[n]
    {
      OfTaskAt(a, t, n);
      OfTaskAt(b, t, n);
    }
  }

  lemma OfTaskAdd(ledger: map<Entry, LedgerRow>, t: TaskId, n: Name, row: LedgerRow)
    ensures OfTask(ledger[Entry(t, n) := row], t) == OfTask(ledger, t)[n := row]
  {
    hide OfTask;
    var was, now := OfTask(ledger, t), OfTask(ledger[Entry(t, n) := row], t);
    forall m
      ensures m in now <==> m in was || m == n
      ensures m in now ==> now[m] == if m == n then row else was[m]
    {
      OfTaskAt(ledger[Entry(t, n) := row], t, m);
      OfTaskAt(ledger, t, m);
    }
  }

  lemma OfTaskRemove(ledger: map<Entry, LedgerRow>, t: TaskId, n: Name)
    ensures OfTask(ledger - {Entry(t, n)}, t) == OfTask(ledger, t) - {n}
  {
    hide OfTask;
    var was, now := OfTask(ledger, t), OfTask(ledger - {Entry(t, n)}, t);
    forall m
      ensures m in now <==> m in was && m != n
      ensures m in now ==> now[m] == was[m]
    {
      OfTaskAt(ledger - {Entry(t, n)}, t, m);
      OfTaskAt(ledger, t, m);
    }
  }

  /** The files rows inserted for one task, and the files rows with the given ids. */
  function ByTask(files: map<FileId, FileRow>, t: TaskId): map<FileId, FileRow> {
    map f | f in files && files[f].task == t :: files[f]
  }

  function Among(files: map<FileId, FileRow>, ids: set<FileId>): map<FileId, FileRow> {
    map f | f in files && f in ids :: files[f]
  }

  lemma FilesAdd(files: map<FileId, FileRow>, t: TaskId, ids: set<FileId>, f: FileId, file: FileRow)
    requires f !in files && file.task == t
    ensures ByTask(files[f := file], t) == ByTask(files, t)[f := file]
    ensures Among(files[f := file], ids + {f}) == Among(files, ids)[f := file]
  {
  }

  lemma FilesRemove(files: map<FileId, FileRow>, t: TaskId, ids: set<FileId>, f: FileId)
    ensures ByTask(files - {f}, t) == ByTask(files, t) - {f}
    ensures Among(files - {f}, ids - {f}) == Among(files, ids) - {f}
  {
  }

  /** Task t's downloaded_files rows by name. */
  function LedgerOf(s: State, t: TaskId): map<Name, LedgerRow> {
    OfTask(s.ledger, t)
  }

  /** The files rows inserted for task t. */
  function FilesOf(s: State, t: TaskId): map<FileId, FileRow> {
    ByTask(s.files, t)
  }

  /** The files rows that execution e inserted and has not deleted. */
  function MadeBy(s: State, e: ExecId): map<FileId, FileRow>
    requires e in s.execs
  {
    Among(s.files, s.execs[e].made)
  }

  /** The stored objects of the given names. */
  function Shelf(s: State, names: set<Name>): map<Name, Content> {
    map n | n in s.store && n in names :: s.store[n]
  }

  /**
   * From a to b nothing that execution me relies on has changed: its own record, the rows it inserted, the
   * objects named in `apart`; and, under the lease, its task's row, ledger and files.
   */
  ghost predicate Undisturbed(a: State, b: State, me: ExecId, leased: bool, apart: set<Name>) {
    && me in a.execs && me in b.execs
    && b.execs[me] == a.execs[me] && a.clock <= b.clock
    && MadeBy(b, me) == MadeBy(a, me)
    && Shelf(b, apart) == Shelf(a, apart)
    && (leased ==>
          var t := a.execs[me].msg.task;
          && t in a.tasks && t in b.tasks && b.tasks[t] == a.tasks[t]
          && LedgerOf(b, t) == LedgerOf(a, t) && FilesOf(b, t) == FilesOf(a, t))
  }

  /** A step of somebody else that leaves the objects in `apart` alone. */
  predicate Foreign(ev: Event, me: ExecId, apart: set<Name>) {
    ev.Does? ==> ev.e != me && (ev.w.Upload? || ev.w.Remove? ==> ev.w.name !in apart)
  }

  /** No other step removes a files row that me has made. */
  lemma MadeRowsStay(s: State, e: ExecId, w: Work, ids: set<FileId>)
    requires CanDo(s, e, w) && ids <= s.files.Keys && ids !! s.execs[e].made
    ensures forall f :: f in ids ==> f in Do(s, e, w).files && Do(s, e, w).files[f] == s.files[f]
  {
    hide Evolves, ClaimedRow;
  }

  /** Anybody but me may do anything, but for the objects in `apart`. */
  lemma ForeignMeans(ev: Event, me: ExecId, apart: set<Name>)
    ensures Foreign(ev, me, apart) <==>
      match ev
      case Does(e, Upload(n, _)) => e != me && n !in apart
      case Does(e, Remove(n)) => e != me && n !in apart
      case Does(e, _) => e != me
      case _ => true
  {
  }

  lemma ForeignDoKeepsMade(s: State, e: ExecId, w: Work, me: ExecId)
    requires Paired(s) && me in s.execs && e != me && CanDo(s, e, w)
    ensures me in Do(s, e, w).execs && MadeBy(Do(s, e, w), me) == MadeBy(s, me)
  {
    var s' := Do(s, e, w);
    DoKeepsOtherExecs(s, e, w);
    assert MadeOk(s, me) && MadeApart(s);
    hide Do, Paired, Among;
    MadeRowsStay(s, e, w, s.execs[me].made);
    AmongSame(s'.files, s.files, s.execs[me].made);
  }

  lemma AmongSame(a: map<FileId, FileRow>, b: map<FileId, FileRow>, ids: set<FileId>)
    requires forall f :: f in ids ==> f in a && f in b && a[f] == b[f]
    ensures Among(a, ids) == Among(b, ids)
  {
  }

  lemma ForeignDoKeepsShelf(s: State, e: ExecId, w: Work, apart: set<Name>)
    requires CanDo(s, e, w)
    requires w.Upload? || w.Remove? ==> w.name !in apart
    ensures Shelf(Do(s, e, w), apart) == Shelf(s, apart)
  {
    hide Evolves;
  }

  /** Steps for one task leave the ledger and the files of every other task alone. */
  lemma ForeignDoKeepsTask(s: State, e: ExecId, w: Work, t: TaskId)
    requires Paired(s) && CanDo(s, e, w)
    requires s.execs[e].phase == Working ==> s.execs[e].msg.task != t
    ensures var s' := Do(s, e, w); LedgerOf(s', t) == LedgerOf(s, t) && FilesOf(s', t) == FilesOf(s, t)
  {
    assert MadeOk(s, e);
    ForeignDoKeepsRows(s, e, w, t);
    hide Do, CanDo, OfTask, ByTask, Paired;
    OfTaskSame(Do(s, e, w).ledger, s.ledger, t);
    ByTaskSame(Do(s, e, w).files, s.files, t);
  }

  lemma ByTaskSame(a: map<FileId, FileRow>, b: map<FileId, FileRow>, t: TaskId)
    requires forall f :: f in a && a[f].task == t ==> f in b && a[f] == b[f]
    requires forall f :: f in b && b[f].task == t ==> f in a && a[f] == b[f]
    ensures ByTask(a, t) == ByTask(b, t)
  {
  }

  lemma ForeignDoKeepsRows(s: State, e: ExecId, w: Work, t: TaskId)
    requires CanDo(s, e, w) && MadeOk(s, e)
    requires s.execs[e].phase == Working ==> s.execs[e].msg.task != t
    ensures
      var s' := Do(s, e, w);
      && (forall k: Entry :: k.task == t ==>
            (k in s'.ledger <==> k in s.ledger) && (k in s'.ledger ==> s'.ledger[k] == s.ledger[k]))
      && (forall f :: f in s'.files && s'.files[f].task == t ==> f in s.files && s'.files[f] == s.files[f])
      && (forall f :: f in s.files && s.files[f].task == t ==> f in s'.files && s'.files[f] == s.files[f])
  {
    hide Evolves;
  }

  lemma ForeignDoDisturbsNothing(s: State, e: ExecId, w: Work, me: ExecId, leased: bool, apart: set<Name>)
    requires Sane(s) && Paired(s) && CanDo(s, e, w) && Foreign(Does(e, w), me, apart)
    requires me in s.execs && (leased ==> LeaseInv(s) && Holder(s, me))
    ensures Undisturbed(s, Do(s, e, w), me, leased, apart)
  {
    DoKeepsOtherExecs(s, e, w);
    ForeignDoKeepsMade(s, e, w, me);
    ForeignDoKeepsShelf(s, e, w, apart);
    if leased {
      var t := s.execs[me].msg.task;
      assert Tied(s, me);
      assert Holder(s, e) ==> s.execs[e].msg.task != t;
      ForeignDoKeepsTask(s, e, w, t);
      DoKeepsOtherTasks(s, e, w);
      if s.execs[e].msg.task == t {
        DoKeepsTie(s, e, w);
      }
    }
    hide Do, CanDo, LeaseInv, Paired, Sane;
  }

  lemma SweepDisturbsNothing(s: State, picked: set<TaskId>, back: Row -> Row, me: ExecId, leased: bool, apart: set<Name>)
    requires me in s.execs
    requires leased ==> s.execs[me].msg.task in s.tasks && s.execs[me].msg.task !in picked
    ensures Undisturbed(s, AfterSweep(s, picked, back), me, leased, apart)
  {
  }

  lemma StepDisturbsNothing(s: State, ev: Event, me: ExecId, leased: bool, apart: set<Name>)
    requires Sane(s) && Paired(s) && Enabled(s, ev) && Foreign(ev, me, apart)
    requires me in s.execs && (leased ==> LeaseInv(s) && Leased(s) && Holder(s, me))
    ensures Undisturbed(s, Apply(s, ev), me, leased, apart)
  {
    hide Do, CanDo, AfterSweep, Paired, Undisturbed, BaseFits, RowOk;
    if ev.Does? {
      ForeignDoDisturbsNothing(s, ev.e, ev.w, me, leased, apart);
    } else if ev.ReclaimStuck? {
      assert leased ==> Tied(s, me);
      SweepDisturbsNothing(s, ev.picked, StuckReturned, me, leased, apart);
    } else if ev.ReclaimBlocked? {
      assert leased ==> Tied(s, me);
      SweepDisturbsNothing(s, ev.picked, BlockedReleased, me, leased, apart);
    } else {
      assert leased ==> Tied(s, me);
      OuterDisturbsNothing(s, Apply(s, ev), me, leased, apart);
    }
  }

  lemma OuterDisturbsNothing(s: State, s': State, me: ExecId, leased: bool, apart: set<Name>)
    requires me in s.execs && me in s'.execs && s'.execs[me] == s.execs[me] && s.clock <= s'.clock
    requires s'.files == s.files && s'.ledger == s.ledger && s'.store == s.store
    requires leased ==> var t := s.execs[me].msg.task; t in s.tasks && t in s'.tasks && s'.tasks[t] == s.tasks[t]
    ensures Undisturbed(s, s', me, leased, apart)
  {
  }

  lemma UndisturbedTransitive(a: State, b: State, c: State, me: ExecId, leased: bool, apart: set<Name>)
    requires Undisturbed(a, b, me, leased, apart) && Undisturbed(b, c, me, leased, apart)
    ensures Undisturbed(a, c, me, leased, apart)
  {
    hide MadeBy, Shelf, LedgerOf, FilesOf;
  }

  /** A message waits with its producer until it is sent or dropped. */
  lemma SendersStay(s: State, ev: Event)
    requires Enabled(s, ev)
    ensures forall m :: m in s.senders && !((ev.Send? || ev.Drop?) && ev.m == m) ==> m in Apply(s, ev).senders
  {
    hide Do, CanDo;
    if ev.Does? {
      DoKeepsOtherExecs(s, ev.e, ev.w);
    }
  }

  /** From s to s' execution e took a step that changed neither its task's row nor the objects. */
  ghost predicate OnlyPairsMoved(s: State, s': State, e: ExecId, names: set<Name>) {
    && e in s.execs && e in s'.execs
    && s'.clock == s.clock && s'.tasks == s.tasks && Shelf(s', names) == Shelf(s, names)
    && s'.execs[e] == s.execs[e].(made := s'.execs[e].made)
  }

  /** Recording and erasing, table by table. */
  lemma PairsMove(s: State, e: ExecId, w: Work, names: set<Name>)
    requires CanDo(s, e, w) && (w.Record? || w.Erase?) && w.ok
    ensures
      var s', x := Do(s, e, w), s.execs[e];
      && OnlyPairsMoved(s, s', e, names)
      && (w.Record? ==>
            && s'.files == s.files[w.f := w.file]
            && s'.ledger == s.ledger[Entry(x.msg.task, w.file.filename) := LedgerRow(w.file.hash, w.f, w.file.size)]
            && s'.execs[e].made == x.made + {w.f})
      && (w.Erase? ==>
            && s'.files == s.files - {w.f}
            && s'.ledger == s.ledger - {Entry(x.msg.task, w.name)}
            && s'.execs[e].made == x.made - {w.f})
  {
  }

  lemma RecordEffect(s: State, e: ExecId, f: FileId, file: FileRow, names: set<Name>)
    requires Paired(s) && CanDo(s, e, Record(f, file, true))
    ensures
      var s' := Do(s, e, Record(f, file, true));
      var t := s.execs[e].msg.task;
      && OnlyPairsMoved(s, s', e, names)
      && f !in MadeBy(s, e) && MadeBy(s', e) == MadeBy(s, e)[f := file]
      && f !in FilesOf(s, t) && FilesOf(s', t) == FilesOf(s, t)[f := file]
      && file.filename !in LedgerOf(s, t)
      && LedgerOf(s', t) == LedgerOf(s, t)[file.filename := LedgerRow(file.hash, f, file.size)]
  {
    var x := s.execs[e];
    assert f !in s.files && file.task == x.msg.task && Entry(x.msg.task, file.filename) !in s.ledger;
    PairsMove(s, e, Record(f, file, true), names);
    OfTaskAt(s.ledger, x.msg.task, file.filename);
    OfTaskAdd(s.ledger, x.msg.task, file.filename, LedgerRow(file.hash, f, file.size));
    FilesAdd(s.files, x.msg.task, x.made, f, file);
    assert f !in MadeBy(s, e) && f !in FilesOf(s, x.msg.task);
    hide OfTask, ByTask, Among, Paired, Do, CanDo;
  }

  lemma EraseEffect(s: State, e: ExecId, f: FileId, name: Name, names: set<Name>)
    requires Paired(s) && CanDo(s, e, Erase(f, name, true))
    ensures
      var s' := Do(s, e, Erase(f, name, true));
      var t := s.execs[e].msg.task;
      && OnlyPairsMoved(s, s', e, names)
      && MadeBy(s', e) == MadeBy(s, e) - {f} && FilesOf(s', t) == FilesOf(s, t) - {f}
      && LedgerOf(s', t) == LedgerOf(s, t) - {name}
  {
    PairsMove(s, e, Erase(f, name, true), names);
    OfTaskRemove(s.ledger, s.execs[e].msg.task, name);
    FilesRemove(s.files, s.execs[e].msg.task, s.execs[e].made, f);
    hide OfTask, ByTask, Among, Paired, Do, CanDo;
  }

  /** Uploading or removing one object leaves all the tables alone. */
  lemma ObjectEffect(s: State, e: ExecId, w: Work, names: set<Name>)
    requires CanDo(s, e, w) && (w.Upload? || w.Remove?)
    ensures
      var s' := Do(s, e, w);
      && s'.clock == s.clock && s'.tasks == s.tasks && s'.execs == s.execs
      && MadeBy(s', e) == MadeBy(s, e)
      && (forall t :: LedgerOf(s', t) == LedgerOf(s, t))
      && (forall t :: FilesOf(s', t) == FilesOf(s, t))
      && Shelf(s', names) ==
           if w.Remove? then Shelf(s, names) - {w.name}
           else if w.name in names then Shelf(s, names)[w.name := w.content]
           else Shelf(s, names)
  {
  }

  /** Reading or writing the task's row leaves files, ledger and objects alone. */
  lemma RowEffect(s: State, e: ExecId, w: Work, names: set<Name>)
    requires CanDo(s, e, w) && (w.Load? || w.Save?)
    ensures
      var s' := Do(s, e, w);
      && s'.clock == s.clock && e in s'.execs
      && s'.execs[e].msg == s.execs[e].msg && s'.execs[e].host == s.execs[e].host
      && MadeBy(s', e) == MadeBy(s, e)
      && (forall t :: LedgerOf(s', t) == LedgerOf(s, t))
      && (forall t :: FilesOf(s', t) == FilesOf(s, t))
      && Shelf(s', names) == Shelf(s, names)
  {
    hide Evolves;
    assert Do(s, e, w).ledger == s.ledger && Do(s, e, w).files == s.files && Do(s, e, w).store == s.store;
  }

  /** An execution's own step never breaks the lease assumption. */
  lemma OwnStepKeepsLease(s: State, e: ExecId, w: Work)
    requires Sane(s) && LeaseInv(s) && Leased(s) && CanDo(s, e, w)
    ensures Leased(Do(s, e, w))
  {
    DoKeepsOtherExecs(s, e, w);
    OwnLeaseMoves(s, e, w);
    hide Do, CanDo, LeaseInv, Sane;
  }

  lemma OwnLeaseMoves(s: State, e: ExecId, w: Work)
    requires LeaseInv(s) && Leased(s) && CanDo(s, e, w)
    ensures
      var s' := Do(s, e, w);
      e in s'.execs && Holding(s'.execs[e]) ==>
        s'.clock <= s'.execs[e].lease + MAX_HEARTBEAT_AGE
  {
    assert Holder(s, e) ==> Tied(s, e);
    hide LeaseInv;
  }

  /**
   * What execution e sees of the shared tables and objects: the rows it made, the objects set apart for it and,
   * under the lease, its task's ledger and files.
   */
  datatype View = View(
    made: map<FileId, FileRow>,
    shelf: map<Name, Content>,
    ledger: map<Name, LedgerRow>,
    files: map<FileId, FileRow>)
  {
    function Add(f: FileId, file: FileRow, leased: bool): View {
      if leased then
        View(made[f := file], shelf, ledger[file.filename := LedgerRow(file.hash, f, file.size)], files[f := file])
      else
        this.(made := made[f := file])
    }

    function Drop(f: FileId, name: Name, leased: bool): View {
      if leased then View(made - {f}, shelf, ledger - {name}, files - {f}) else this.(made := made - {f})
    }

    function Put(name: Name, content: Content, apart: set<Name>): View {
      if name in apart then this.(shelf := shelf[name := content]) else this
    }

    function Take(name: Name): View {
      this.(shelf := shelf - {name})
    }
  }

  function ViewOf(s: State, e: ExecId, leased: bool, apart: set<Name>): View
    requires e in s.execs
  {
    var t := s.execs[e].msg.task;
    View(MadeBy(s, e), Shelf(s, apart),
         if leased then LedgerOf(s, t) else map[], if leased then FilesOf(s, t) else map[])
  }

  lemma UndisturbedView(a: State, b: State, me: ExecId, leased: bool, apart: set<Name>)
    requires Undisturbed(a, b, me, leased, apart)
    ensures ViewOf(b, me, leased, apart) == ViewOf(a, me, leased, apart)
  {
    hide MadeBy, Shelf, LedgerOf, FilesOf;
  }

  /** How each step of an execution changes its own view. */
  lemma OwnView(s: State, e: ExecId, w: Work, leased: bool, apart: set<Name>)
    requires Sane(s) && Paired(s) && CanDo(s, e, w) && e in Do(s, e, w).execs && s.execs[e].phase != Waiting
    ensures
      var v := ViewOf(s, e, leased, apart);
      ViewOf(Do(s, e, w), e, leased, apart) ==
        if w.Record? && w.ok then v.Add(w.f, w.file, leased)
        else if w.Erase? && w.ok then v.Drop(w.f, w.name, leased)
        else if w.Upload? then v.Put(w.name, w.content, apart)
        else if w.Remove? then v.Take(w.name)
        else v
  {
    if w.Record? && w.ok {
      RecordEffect(s, e, w.f, w.file, apart);
    } else if w.Erase? && w.ok {
      EraseEffect(s, e, w.f, w.name, apart);
    } else if w.Upload? || w.Remove? {
      ObjectEffect(s, e, w, apart);
    } else if w.Load? || w.Save? {
      RowEffect(s, e, w, apart);
    }
    hide MadeBy, Shelf, LedgerOf, FilesOf, Paired, Sane, Evolves;
  }

  /** An execution in its handler can erase what it sees it has made, and go on. */
  lemma CanErase(s: State, e: ExecId, f: FileId, name: Name, leased: bool, apart: set<Name>)
    requires e in s.execs && s.execs[e].phase == Working
    requires var made := ViewOf(s, e, leased, apart).made; f in made && made[f].filename == name
    ensures
      var w := Erase(f, name, true);
      && CanDo(s, e, w) && e in Do(s, e, w).execs
      && Do(s, e, w).execs[e] == s.execs[e].(made := s.execs[e].made - {f})
  {
  }

  /** It can record a name that is not listed, under a fresh id, and go on. */
  lemma CanRecord(s: State, e: ExecId, f: FileId, file: FileRow)
    requires e in s.execs && s.execs[e].phase == Working && f !in s.files
    requires file.task == s.execs[e].msg.task && Entry(file.task, file.filename) !in s.ledger
    ensures
      var w := Work.Record(f, file, true);
      && CanDo(s, e, w) && e in Do(s, e, w).execs
      && Do(s, e, w).execs[e] == s.execs[e].(made := s.execs[e].made + {f})
  {
  }

  lemma FreshIsUnseen(s: State, e: ExecId, f: FileId, name: Name, leased: bool, apart: set<Name>)
    requires e in s.execs && f !in s.files
    ensures
      var v := ViewOf(s, e, leased, apart);
      && f !in v.made
      && (leased ==> f !in v.files && (name in v.ledger <==> Entry(s.execs[e].msg.task, name) in s.ledger))
  {
    OfTaskAt(s.ledger, s.execs[e].msg.task, name);
  }
}
