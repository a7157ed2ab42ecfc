/**
 * The download-task protocol as a labelled transition system: the tables, the broker, the object store, the
 * clock and every live execution of a worker. Each event is one statement together with its commit, one call
 * to the broker or the object store, or one thing that happens to a process.
 */
module Protocol {
  import opened Basics
  import opened Tasks

  /** A files row; `task` is auxiliary and says for which task it was inserted. */
  datatype FileRow = FileRow(filename: Name, size: nat, hash: Hash, task: TaskId)

  /** The unique key of downloaded_files. */
  datatype Entry = Entry(task: TaskId, name: Name)

  /**
   * A downloaded_files row; `partner` and `size` are auxiliary and are those of the files row inserted in the same
   * commit.
   */
  datatype LedgerRow = LedgerRow(hash: Hash, partner: FileId, size: nat)

  /** A task's row and (auxiliary) how often it went back to PENDING. */
  datatype Task = Task(row: Row, reclaims: int)

  /** A process_files_task message; the broker may deliver the same one more than once. */
  datatype Message = Message(id: int, task: TaskId)

  /**
   * Waiting: the message is delivered, the claim not yet tried. Claimed: the claim has committed. Working: the
   * handler has read the task. Closed: a final status is persisted, the message not yet acknowledged.
   */
  datatype Phase = Waiting | Claimed | Working | Closed

  /**
   * One execution of process_files_task. `base` is the row it last read or handed to the repository, `lease`
   * the heartbeat it last persisted, `made` the file rows it inserted and has not deleted.
   */
  datatype Exec = Exec(msg: Message, host: string, phase: Phase, base: Row, lease: Time, made: set<FileId>)

  /** `senders` holds the messages of producers that have committed a PENDING row and not yet sent them. */
  datatype State = State(
    clock: Time,
    tasks: map<TaskId, Task>,
    files: map<FileId, FileRow>,
    ledger: map<Entry, LedgerRow>,
    store: map<Name, Content>,
    queue: set<Message>,
    senders: set<Message>,
    nextMsg: int,
    execs: map<ExecId, Exec>)

  const EMPTY := State(0, map[], map[], map[], map[], {}, {}, 0, map[])

  /** What one execution does, or what happens to it. */
  datatype Work =
    | Claim                                            // the guarded UPDATE and its commit
    | ClaimRaises                                      // an error there; the message is still acknowledged
    | Load                                             // the handler reads the task
    | Save(row: Row, ok: bool)                         // the whole row is written, or the commit fails
    | Upload(name: Name, content: Content)
    | Remove(name: Name)
    | Record(f: FileId, file: FileRow, ok: bool)       // files row and ledger row in one commit
    | Erase(f: FileId, name: Name, ok: bool)           // both deleted in one commit
    | Exit                                             // the message is acknowledged
    | Crash                                            // the worker is lost and its message redelivered

  datatype Event =
    | Tick(d: nat)                                     // time passes
    | Start(t: TaskId)                                 // a producer commits a new PENDING row
    | Send(m: Message)                                 // a producer's send_task reaches the broker
    | Drop(m: Message)                                 // a producer dies, or send_task raises, before that
    | Deliver(e: ExecId, m: Message, host: string)     // the broker hands a message to a worker
    | Redeliver(e: ExecId)                             // the broker queues an unacknowledged message again
    | Does(e: ExecId, w: Work)
    | ReclaimStuck(picked: set<TaskId>)                // the watchdog's UPDATE of the rows that LIMIT picked
    | ReclaimBlocked(picked: set<TaskId>)

  const MAX_HEARTBEAT_AGE: Time := 300 * SECOND
  const SWEEP_LIMIT := 20

  predicate Holding(x: Exec) {
    x.phase == Claimed || x.phase == Working
  }

  predicate IsStuck(r: Row, now: Time) {
    r.status == Running && r.lastHeartbeat.Some? && r.lastHeartbeat.value < now - MAX_HEARTBEAT_AGE
  }

  predicate IsReleasable(r: Row, now: Time) {
    r.status == Blocked && r.blockedUntil.Some? && r.blockedUntil.value < now
  }

  function Stuck(s: State): set<TaskId> {
    set t | t in s.tasks && IsStuck(s.tasks[t].row, s.clock)
  }

  function Releasable(s: State): set<TaskId> {
    set t | t in s.tasks && IsReleasable(s.tasks[t].row, s.clock)
  }

  function ClaimedRow(r: Row, host: string, now: Time): Row {
    r.(status := Running, workerId := Some(host), startedAt := Some(now), lastHeartbeat := Some(now),
       attempts := r.attempts + 1, error := None, blockedUntil := None, blockReason := None)
  }

  function StuckReturned(r: Row): Row {
    r.(status := Pending, workerId := None, lastHeartbeat := None, blockedUntil := None, blockReason := None)
  }

  function BlockedReleased(r: Row): Row {
    r.(status := Pending, workerId := None, blockedUntil := None, blockReason := None)
  }

  predicate CanDo(s: State, e: ExecId, w: Work) {
    e in s.execs &&
    var x := s.execs[e];
    var t := x.msg.task;
    match w
    case Claim => x.phase == Waiting
    case ClaimRaises => x.phase == Waiting
    case Load => x.phase == Claimed && t in s.tasks
    case Save(row, _) => x.phase == Working && t in s.tasks && Evolves(x.base, row, s.clock)
    case Upload(_, _) => x.phase == Working
    case Remove(_) => x.phase == Working
    case Record(f, file, ok) =>
      x.phase == Working && file.task == t && f !in s.files
      && (ok ==> Entry(t, file.filename) !in s.ledger)  // UNIQUE (task_id, file_name)
    case Erase(f, name, _) => x.phase == Working && f in x.made && f in s.files && s.files[f].filename == name
    case Exit => x.phase != Waiting
    case Crash => true
  }

  predicate Enabled(s: State, ev: Event) {
    match ev
    case Tick(_) => true
    case Start(t) => t !in s.tasks
    case Send(m) => m in s.senders
    case Drop(m) => m in s.senders
    case Deliver(e, m, _) => m in s.queue && e !in s.execs
    case Redeliver(e) => e in s.execs
    case Does(e, w) => CanDo(s, e, w)
    case ReclaimStuck(picked) => picked <= Stuck(s) && |picked| == Min(SWEEP_LIMIT, |Stuck(s)|)
    case ReclaimBlocked(picked) => picked <= Releasable(s) && |picked| == Min(SWEEP_LIMIT, |Releasable(s)|)
  }

  function SetExec(s: State, e: ExecId, x: Exec): State {
    s.(execs := s.execs[e := x])
  }

  function SetRow(s: State, t: TaskId, row: Row): State
    requires t in s.tasks
  {
    s.(tasks := s.tasks[t := s.tasks[t].(row := row)])
  }

  function AfterClaim(s: State, e: ExecId): State
    requires e in s.execs
  {
    var x := s.execs[e];
    var t := x.msg.task;
    if t in s.tasks && s.tasks[t].row.status == Pending then
      var row := ClaimedRow(s.tasks[t].row, x.host, s.clock);
      SetExec(SetRow(s, t, row), e, x.(phase := Claimed, base := row, lease := s.clock))
    else
      s.(execs := s.execs - {e})
  }

  function AfterSave(s: State, e: ExecId, row: Row): State
    requires e in s.execs && s.execs[e].msg.task in s.tasks
  {
    var x := s.execs[e];
    SetExec(SetRow(s, x.msg.task, row), e,
            x.(base := row,
               lease := if row.lastHeartbeat.Some? then row.lastHeartbeat.value else x.lease,
               phase := if row.status == Running then Working else Closed))
  }

  function AfterRecord(s: State, e: ExecId, f: FileId, file: FileRow): State
    requires e in s.execs
  {
    var x := s.execs[e];
    s.(files := s.files[f := file],
       ledger := s.ledger[Entry(file.task, file.filename) := LedgerRow(file.hash, f, file.size)],
       execs := s.execs[e := x.(made := x.made + {f})])
  }

  function AfterErase(s: State, e: ExecId, f: FileId, name: Name): State
    requires e in s.execs
  {
    var x := s.execs[e];
    s.(files := s.files - {f},
       ledger := s.ledger - {Entry(x.msg.task, name)},
       execs := s.execs[e := x.(made := x.made - {f})])
  }

  function Do(s: State, e: ExecId, w: Work): State
    requires CanDo(s, e, w)
  {
    var x := s.execs[e];
    match w
    case Claim => AfterClaim(s, e)
    case ClaimRaises => s.(execs := s.execs - {e})
    case Load => SetExec(s, e, x.(phase := Working, base := s.tasks[x.msg.task].row))
    case Save(row, ok) => if ok then AfterSave(s, e, row) else SetExec(s, e, x.(base := row))
    case Upload(name, content) => s.(store := s.store[name := content])
    case Remove(name) => s.(store := s.store - {name})
    case Record(f, file, ok) => if ok then AfterRecord(s, e, f, file) else s
    case Erase(f, name, ok) => if ok then AfterErase(s, e, f, name) else s
    case Exit => s.(execs := s.execs - {e})
    case Crash => s.(execs := s.execs - {e}, queue := s.queue + {x.msg})
  }

  function AfterSweep(s: State, picked: set<TaskId>, back: Row -> Row): State {
    s.(tasks := map t | t in s.tasks ::
         if t in picked then Task(back(s.tasks[t].row), s.tasks[t].reclaims + 1) else s.tasks[t],
       senders := s.senders + (set t | t in picked :: Message(s.nextMsg, t)),
       nextMsg := s.nextMsg + 1)
  }

  function Apply(s: State, ev: Event): State
    requires Enabled(s, ev)
  {
    match ev
    case Tick(d) => s.(clock := s.clock + d)
    case Start(t) =>
      s.(tasks := s.tasks[t := Task(NEW_ROW, 0)],
         senders := s.senders + {Message(s.nextMsg, t)},
         nextMsg := s.nextMsg + 1)
    case Send(m) => s.(senders := s.senders - {m}, queue := s.queue + {m})
    case Drop(m) => s.(senders := s.senders - {m})
    case Deliver(e, m, host) =>
      SetExec(s.(queue := s.queue - {m}), e, Exec(m, host, Waiting, NEW_ROW, s.clock, {}))
    case Redeliver(e) => s.(queue := s.queue + {s.execs[e].msg})
    case Does(e, w) => Do(s, e, w)
    case ReclaimStuck(picked) => AfterSweep(s, picked, StuckReturned)
    case ReclaimBlocked(picked) => AfterSweep(s, picked, BlockedReleased)
  }

  /** A new task: nothing received or processed, never attempted, and a message of its own to be sent. */
  lemma StartMeans(s: State, t: TaskId)
    requires Enabled(s, Start(t))
    ensures
      var s', m := Apply(s, Start(t)), Message(s.nextMsg, t);
      && s'.tasks == s.tasks[t := Task(Row(Pending, 0, 0, None, None, None, None, None, 0, None, None), 0)]
      && s'.senders == s.senders + {m} && s'.nextMsg == s.nextMsg + 1
      && s'.queue == s.queue && s'.execs == s.execs && s'.clock == s.clock
  {
  }

  /**
   * What may happen at any time: time passes, a message is delivered, twice or more, sent or lost, a worker dies. An
   * execution that waits may claim or fail to; one in its handler may store and remove objects.
   */
  lemma AnyTime(s: State, e: ExecId, m: Message, d: nat, n: Name, content: Content)
    ensures Enabled(s, Tick(d)) && Apply(s, Tick(d)) == s.(clock := s.clock + d)
    ensures m in s.senders ==> Enabled(s, Send(m)) && Enabled(s, Drop(m))
    ensures m in s.queue && e !in s.execs ==> Enabled(s, Deliver(e, m, ""))
    ensures e in s.execs ==> Enabled(s, Redeliver(e)) && Enabled(s, Does(e, Crash))
    ensures e in s.execs ==> (Enabled(s, Does(e, Claim)) <==> s.execs[e].phase == Waiting)
    ensures e in s.execs ==> (Enabled(s, Does(e, ClaimRaises)) <==> s.execs[e].phase == Waiting)
    ensures e in s.execs && s.execs[e].phase == Working ==>
      Enabled(s, Does(e, Upload(n, content))) && Enabled(s, Does(e, Remove(n)))
  {
  }

  /** A commit that fails leaves every table as it was. */
  lemma FailedCommits(s: State, e: ExecId, w: Work)
    requires CanDo(s, e, w) && (w.Save? || w.Record? || w.Erase?) && !w.ok
    ensures
      var s' := Do(s, e, w);
      && s'.tasks == s.tasks && s'.files == s.files && s'.ledger == s.ledger && s'.store == s.store
      && s'.queue == s.queue && s'.senders == s.senders && s'.clock == s.clock
  {
  }

  /** An execution ends acknowledged, by a claim that raises too; or lost, and then its message is queued again. */
  lemma EndMeans(s: State, e: ExecId, w: Work)
    requires CanDo(s, e, w) && (w.Exit? || w.ClaimRaises? || w.Crash?)
    ensures
      var s' := Do(s, e, w);
      && s'.execs == s.execs - {e} && s'.queue == (if w.Crash? then s.queue + {s.execs[e].msg} else s.queue)
      && s'.tasks == s.tasks && s'.files == s.files && s'.ledger == s.ledger && s'.store == s.store
      && s'.senders == s.senders && s'.clock == s.clock
  {
  }

  /** A delivery: the message leaves the queue, and an execution on that host waits to claim its task. */
  lemma DeliveryMeans(s: State, e: ExecId, m: Message, host: string)
    requires Enabled(s, Deliver(e, m, host))
    ensures
      var s' := Apply(s, Deliver(e, m, host));
      && e !in s.execs && e in s'.execs && s'.queue == s.queue - {m}
      && s'.execs[e].msg == m && s'.execs[e].host == host && s'.execs[e].phase == Waiting && s'.execs[e].made == {}
      && s'.tasks == s.tasks && s'.execs - {e} == s.execs
  {
  }

  /**
   * A claim that finds the row PENDING makes it RUNNING under the claiming worker from now on, counts the attempt,
   * and clears what the last one left of an error or a block; what was received, processed or finished stays.
   */
  lemma ClaimMeans(s: State, e: ExecId)
    requires CanDo(s, e, Claim) && s.execs[e].msg.task in s.tasks
    requires s.tasks[s.execs[e].msg.task].row.status == Pending
    ensures
      var s', t := Do(s, e, Claim), s.execs[e].msg.task;
      && t in s'.tasks
      && var r, r' := s.tasks[t].row, s'.tasks[t].row;
      && r'.status == Running && r'.workerId == Some(s.execs[e].host)
      && r'.startedAt == Some(s.clock) && r'.lastHeartbeat == Some(s.clock) && r'.attempts == r.attempts + 1
      && r'.error == None && r'.blockedUntil == None && r'.blockReason == None
      && r'.received == r.received && r'.processed == r.processed && r'.finishedAt == r.finishedAt
      && s'.tasks - {t} == s.tasks - {t} && s'.tasks[t].reclaims == s.tasks[t].reclaims
      && s'.files == s.files && s'.ledger == s.ledger && s'.store == s.store
      && s'.queue == s.queue && s'.senders == s.senders && s'.clock == s.clock
  {
  }

  /** `evs` can happen one after the other from `s`. */
  predicate Legal(s: State, evs: seq<Event>)
    decreases evs, 0
  {
    evs == [] ||
    (Legal(s, evs[..|evs| - 1]) && Enabled(After(s, evs[..|evs| - 1]), evs[|evs| - 1]))
  }

  /** The state a legal run ends in. */
  function After(s: State, evs: seq<Event>): State
    requires Legal(s, evs)
    decreases evs, 1
  {
    if evs == [] then s else Apply(After(s, evs[..|evs| - 1]), evs[|evs| - 1])
  }

  lemma LegalSnoc(s: State, evs: seq<Event>, ev: Event)
    requires Legal(s, evs) && Enabled(After(s, evs), ev)
    ensures Legal(s, evs + [ev]) && After(s, evs + [ev]) == Apply(After(s, evs), ev)
  {
    assert (evs + [ev])[..|evs|] == evs;
  }

  /** The lease assumption: the clock has not passed a holder's persisted heartbeat by more than five minutes. */
  predicate Leased(s: State) {
    forall e :: e in s.execs && Holding(s.execs[e]) ==> s.clock <= s.execs[e].lease + MAX_HEARTBEAT_AGE
  }

  /** A legal run in which the lease assumption holds in every state. */
  ghost predicate LeasedRun(s: State, evs: seq<Event>) {
    Legal(s, evs) && Leased(After(s, evs)) && (evs == [] || LeasedRun(s, evs[..|evs| - 1]))
  }

  lemma LeasedSnoc(s: State, evs: seq<Event>, ev: Event)
    requires LeasedRun(s, evs) && Enabled(After(s, evs), ev) && Leased(Apply(After(s, evs), ev))
    ensures LeasedRun(s, evs + [ev]) && After(s, evs + [ev]) == Apply(After(s, evs), ev)
  {
    LegalSnoc(s, evs, ev);
    assert (evs + [ev])[..|evs|] == evs;
  }
}
