/** ProcessFilesHandler: the batch pipeline, run by one execution in the midst of all the others. */
module Handlers {
  import opened Basics
  import opened Tasks
  import opened Protocol
  import opened Interference
  import opened Worlds
  import opened Batches
  import opened Runs

  /** The moment a run began. */
  datatype Origin = Origin(msg: Message, clock: Time, trace: seq<Event>, row: Row, view: View, log: Log)

  /** How a run ended and, unless it succeeded, what was raised. */
  datatype Ending = Ending(end: RunEnd, why: Escape)

  /** Stands where nothing was raised. */
  const NO_ESCAPE := Escape(Fetching, Failure(""), 0)

  class ProcessFilesHandler {
    const world: World
    const me: ExecId
    const digest: Content -> Hash   // FileHash.compute

    constructor (world: World, me: ExecId, digest: Content -> Hash)
      ensures this.world == world && this.me == me && this.digest == digest
    {
      this.world, this.me, this.digest := world, me, digest;
    }

    /** The task in memory is RUNNING and is what the guarded methods made of the row last exchanged. */
    ghost predicate Carries(task: DownloadTask)
      reads world, task
    {
      && world.Ready(me)
      && task.status == Running
      && Evolves(world.s.execs[me].base, task.ToRow(), world.s.clock)
    }

    ghost function Sight(): View
      requires me in world.s.execs
      reads world
    {
      world.Sees(me)
    }

    method MaybeHeartbeat(task: DownloadTask, counter: nat) returns (o: Outcome)
      requires Carries(task)
      modifies world, task
      ensures Carries(task) && old(world.trace) <= world.trace && old(world.s.clock) <= world.s.clock
      ensures world.current == old(world.current) && world.fetches == old(world.fetches)
      ensures world.s.execs[me].msg == old(world.s.execs[me].msg) && Sight() == old(Sight())
      ensures SameButBeat(old(task.ToRow()), task.ToRow())
      ensures o == Ok ==> world.log == old(world.log).(saves := old(world.log).saves + Beats(counter, counter + 1))
      ensures o.Raised? ==>
        world.log == old(world.log).(saveFailures := old(world.log).saveFailures + 1)
      ensures o == Ok && counter % HEARTBEAT_INTERVAL == 0 ==>
        var t := world.s.execs[me].msg.task;
        && t in world.s.tasks && world.s.tasks[t].row == task.ToRow()
        && task.lastHeartbeat == Some(old(world.s.clock))
    {
      hide ViewOf, Legal, After, LeasedRun;
      o := Ok;
      if counter % HEARTBEAT_INTERVAL == 0 {
        world.BaseIsSane(me);
        o := task.Heartbeat(world.s.clock);
        o := world.Save(me, task.ToRow());
      }
    }

    /** The row in memory is the row in the table. */
    ghost predicate Saved(task: DownloadTask)
      reads world, task
    {
      && me in world.s.execs && world.s.execs[me].msg.task in world.s.tasks
      && world.s.tasks[world.s.execs[me].msg.task].row == task.ToRow()
    }

    /** The row's last write failed after the task was closed in memory; nothing more can be saved. */
    ghost predicate Stranded(task: DownloadTask)
      reads world, task
    {
      world.Ready(me) && task.status !in {Pending, Running}
    }

    /** The task in memory can go on, or is exactly as it was read; only without the lease is it not RUNNING. */
    ghost predicate Steady(task: DownloadTask)
      reads world, task
    {
      || Carries(task)
      || (world.Ready(me) && task.status != Running
          && world.s.execs[me].base == task.ToRow() && CountersOk(task.ToRow()))
    }

    /** A block longer than the threshold parks the task; `parked` tells the caller to return. */
    method HandleBlock(task: DownloadTask, retryAfter: int, text: string) returns (parked: bool, o: Outcome)
      requires Steady(task)
      modifies world, task
      ensures old(world.trace) <= world.trace && world.Underway(me)
      ensures world.s.execs[me].msg == old(world.s.execs[me].msg) && Sight() == old(Sight())
      ensures world.fetches == old(world.fetches) && old(world.s.clock) <= world.s.clock
      ensures retryAfter <= BLOCK_THRESHOLD_SECONDS ==> !parked && o == Ok
      ensures retryAfter <= BLOCK_THRESHOLD_SECONDS || old(task.status) != Running ==>
        && !parked && Steady(task) && task.ToRow() == old(task.ToRow()) && world.log == old(world.log)
      ensures retryAfter > BLOCK_THRESHOLD_SECONDS && old(task.status) != Running ==>
        o == Raised(TaskNotRunning(task.id, task.status))
      ensures retryAfter > BLOCK_THRESHOLD_SECONDS && old(task.status) == Running ==>
        && task.ToRow() == ParkedRow(old(task.ToRow()), ApiBlocked(retryAfter, text), old(world.s.clock))
        && parked == (o == Ok)
        && (parked ==> Saved(task) && world.log == old(world.log).(saves := old(world.log).saves + 1))
        && (!parked ==>
              Stranded(task) && world.log == old(world.log).(saveFailures := old(world.log).saveFailures + 1))
    {
      hide Legal, After, LeasedRun;
      parked, o := false, Ok;
      if retryAfter > BLOCK_THRESHOLD_SECONDS {
        o := task.Block(retryAfter, text, world.s.clock);
        if o == Ok {
          o := world.Save(me, task.ToRow());
          parked := o == Ok;
        }
      }
    }

    /** What every except-block does in the end: park the task on a long block, else raise again. */
    method Escalate(task: DownloadTask, exn: Exn) returns (parked: bool, o: Outcome)
      requires Steady(task)
      modifies world, task
      ensures old(world.trace) <= world.trace && world.Underway(me)
      ensures world.s.execs[me].msg == old(world.s.execs[me].msg) && Sight() == old(Sight())
      ensures world.fetches == old(world.fetches) && old(world.s.clock) <= world.s.clock
      ensures task.received == old(task.received) && task.processed == old(task.processed)
      ensures parked == (o == Ok)
      ensures LongBlock(exn) && old(task.status) == Running ==>
        && ParkedSince(task.ToRow(), exn, old(world.s.clock), world.s.clock)
        && (parked ==> Saved(task) && world.log == old(world.log).(saves := old(world.log).saves + 1))
        && (!parked ==>
              Stranded(task) && world.log == old(world.log).(saveFailures := old(world.log).saveFailures + 1))
      ensures !LongBlock(exn) || old(task.status) != Running ==>
        && !parked && Steady(task) && task.ToRow() == old(task.ToRow()) && world.log == old(world.log)
      ensures !LongBlock(exn) ==> o == Raised(exn)
    {
      hide Legal, After, LeasedRun, ViewOf;
      parked, o := false, Raised(exn);
      if exn.ApiBlocked? {
        ghost var at := world.s.clock;
        parked, o := HandleBlock(task, exn.retryAfter, exn.text);
        assert LongBlock(exn) && old(task.status) == Running ==> task.ToRow() == ParkedRow(task.ToRow(), exn, at);
        if !parked && o == Ok {
          o := Raised(exn);
        }
      }
    }

    /** Deletes one file's object, then its rows; a delete that raises is only counted. */
    method CleanupFile(file: Entity) returns (gone: bool, dropped: bool)
      requires world.Ready(me) && file.id in Sight().made && Sight().made[file.id].filename == file.name
      modifies world
      ensures world.Ready(me) && old(world.trace) <= world.trace && old(world.s.clock) <= world.s.clock
      ensures world.s.execs[me].msg == old(world.s.execs[me].msg) && world.s.execs[me].base == old(world.s.execs[me].base)
      ensures world.fetches == old(world.fetches)
      ensures world.log == DeletesTried(old(world.log), gone, dropped)
      ensures CleanedOne(Sight(), old(Sight()), file, gone, dropped, world.leased)
      ensures gone <==> ReplyAt(old(world.replies), 0).Fine?
      ensures dropped <==> ReplyAt(old(world.replies), 1).Fine?
      ensures dropped ==>
        world.trace != [] && world.trace[|world.trace| - 1] == Does(me, Work.Erase(file.id, file.name, true))
    {
      hide ViewOf, Legal, After, LeasedRun;
      var removed := world.Remove(me, file.name);
      var erased := world.Erase(me, file.id, file.name);
      gone, dropped := removed == Ok, erased == Ok;
    }

    /** Cleans up each of the given files in turn. */
    method CleanupBatchFiles(files: seq<Entity>)
      requires world.Ready(me) && Removable(files, Sight())
      modifies world
      ensures world.Ready(me) && old(world.trace) <= world.trace && old(world.s.clock) <= world.s.clock
      ensures world.s.execs[me].msg == old(world.s.execs[me].msg)
      ensures world.s.execs[me].base == old(world.s.execs[me].base)
      ensures world.fetches == old(world.fetches)
      ensures OnlyDeletesFailed(world.log, old(world.log))
      ensures Cleaned(Sight(), old(Sight()), files,
                      world.log.eraseFailures == old(world.log).eraseFailures,
                      world.log.removeFailures == old(world.log).removeFailures, world.leased)
      ensures files == [] ==> Sight() == old(Sight())
    {
      hide Cleaned, CleanedOne, Removable, ViewOf, Legal, After, LeasedRun, OnlyDeletesFailed;
      var rest := files;
      ghost var v0, log0, done := Sight(), world.log, [];
      ghost var erased, removed := true, true;
      CleanedStart(v0, world.leased);
      NoneTried(log0);
      while rest != []
        invariant world.Ready(me) && old(world.trace) <= world.trace && old(world.s.clock) <= world.s.clock
        invariant world.s.execs[me].msg == old(world.s.execs[me].msg)
        invariant world.s.execs[me].base == old(world.s.execs[me].base)
        invariant world.fetches == old(world.fetches)
        invariant OnlyDeletesFailed(world.log, log0)
        invariant erased == (world.log.eraseFailures == log0.eraseFailures)
        invariant removed == (world.log.removeFailures == log0.removeFailures)
        invariant done + rest == files
        invariant Cleaned(Sight(), v0, done, erased, removed, world.leased)
        invariant Removable(rest, Sight())
        invariant done == [] ==> Sight() == v0
      {
        ghost var u, log := Sight(), world.log;
        RemovableFirst(rest, u);
        var file := rest[0];
        var gone, dropped := CleanupFile(file);
        DeleteFails(world.log, log, log0, gone, dropped);
        CleanedStep(u, Sight(), v0, done, file, erased, removed, world.leased, gone, dropped);
        RemovableRest(Sight(), u, rest, gone, dropped, world.leased);
        erased, removed, done, rest := erased && dropped, removed && gone, done + [file], rest[1..];
      }
      assert done == files;
    }

    /** One member: skipped if the ledger lists it, else uploaded and recorded. */
    method ProcessMember(x: Extracted, entities: seq<Entity>, ghost v0: View)
      returns (o: Outcome, entities': seq<Entity>, ghost inflight: Option<Name>)
      requires world.Ready(me)
      requires Undoable(Sight(), v0, entities, None, world.leased)
      modifies world
      ensures world.Ready(me) && old(world.trace) <= world.trace && old(world.s.clock) <= world.s.clock
      ensures world.s.execs[me].msg == old(world.s.execs[me].msg) && world.s.execs[me].base == old(world.s.execs[me].base)
      ensures world.current == old(world.current) && world.fetches == old(world.fetches)
      ensures Undoable(Sight(), v0, entities', inflight, world.leased)
      ensures o == Ok ==>
        && inflight == None
        && world.log == old(world.log).(uploads := world.log.uploads)
        && (world.leased ==>
              StockOf(Sight()) == Receive(old(StockOf(Sight())), x, digest, world.apart))
      ensures entities' == entities ||
        (var f := FileRow(x.filename, x.size, digest(x.content), world.s.execs[me].msg.task);
         |entities'| == |entities| + 1 && entities <= entities'
         && entities'[|entities|].id in Sight().made && Sight().made[entities'[|entities|].id] == f
         && world.trace[|world.trace| - 1..] == [Does(me, Work.Record(entities'[|entities|].id, f, true))])
      ensures o.Raised? ==>
        && entities' == entities
        && world.log == old(world.log).(uploads := world.log.uploads,
                                        escaped := old(world.log).escaped + [Escape(InBatch, o.exn, world.s.clock)])
      ensures HangsOn(inflight, world.log, old(world.log))
      ensures old(world.log).uploads <= world.log.uploads
      ensures world.leased && x.filename in old(Sight()).ledger ==>
        entities' == entities && Sight() == old(Sight()) && world.log.uploads == old(world.log).uploads
        && inflight == None
    {
      hide Undoable, ViewOf, Legal, After, LeasedRun, StockOf, Receive;
      entities', inflight := entities, None;
      ghost var v := Sight();
      ghost var file := FileRow(x.filename, x.size, digest(x.content), world.s.execs[me].msg.task);
      var found: bool;
      o, found := world.FileExists(me, x.filename);
      if o.Raised? || found {
        RecordingReceives(v, x, FileId(0), file, digest, world.apart);
        return;
      }
      var hash := digest(x.content);
      UndoablePut(v, v0, entities, world.leased, x.filename, x.content, world.apart);
      o := world.Upload(me, x.filename, x.content);
      if o.Raised? {
        inflight := Some(x.filename);
        return;
      }
      var f: FileId;
      ghost var u := Sight();
      o, f := world.Record(me, x.filename, x.size, hash);
      if o.Raised? {
        inflight := Some(x.filename);
        return;
      }
      UndoableAdd(u, v0, entities, world.leased, f, file);
      RecordingReceives(v, x, f, file, digest, world.apart);
      entities' := entities + [Entity(f, x.filename)];
    }

    /** Nothing new came out of the archive, and nothing was done about it. */
    ghost predicate NothingNew(v: View, v0: View, entities: seq<Entity>, now: Log, was: Log) {
      world.leased && was.yielded <= now.yielded && AllListed(Taken(now, was), v0.ledger.Keys) ==>
        v == v0 && now.uploads == was.uploads && entities == []
    }

    /** The whole archive so far has been received. */
    ghost predicate Received(v: View, v0: View, now: Log, was: Log) {
      world.leased && was.yielded <= now.yielded ==>
        StockOf(v) == Absorb(StockOf(v0), Taken(now, was), digest, world.apart)
    }

    /** The body of the extraction loop: a heartbeat every 30 members, then the member itself. */
    method ExtractMember(task: DownloadTask, counter: nat, x: Extracted, entities: seq<Entity>, ghost v0: View)
      returns (o: Outcome, entities': seq<Entity>, ghost inflight: Option<Name>)
      requires Carries(task) && Undoable(Sight(), v0, entities, None, world.leased)
      modifies world, task
      ensures Carries(task) && old(world.trace) <= world.trace && old(world.s.clock) <= world.s.clock
      ensures world.s.execs[me].msg == old(world.s.execs[me].msg)
      ensures world.fetches == old(world.fetches) && world.current == old(world.current)
      ensures SameButBeat(old(task.ToRow()), task.ToRow())
      ensures Undoable(Sight(), v0, entities', inflight, world.leased)
      ensures o == Ok ==>
        && inflight == None
        && world.log == old(world.log).(uploads := world.log.uploads,
                                        saves := old(world.log).saves + Beats(counter, counter + 1))
        && (world.leased ==> StockOf(Sight()) == Receive(old(StockOf(Sight())), x, digest, world.apart))
      ensures o.Raised? ==>
        && RaisedBy(world.log, old(world.log), o.exn, world.s.clock)
        && world.log.yielded == old(world.log).yielded && world.log.marked == old(world.log).marked
        && entities' == entities
      ensures HangsOn(inflight, world.log, old(world.log))
      ensures old(world.log).uploads <= world.log.uploads
      ensures world.leased && x.filename in old(Sight()).ledger ==>
        entities' == entities && Sight() == old(Sight()) && world.log.uploads == old(world.log).uploads
    {
      hide Undoable, ViewOf, Legal, After, LeasedRun, Receive, StockOf;
      entities', inflight := entities, None;
      o := MaybeHeartbeat(task, counter);
      if o == Ok {
        o, entities', inflight := ProcessMember(x, entities, v0);
      }
    }

    /**
     * One turn of the extraction loop; `more` is false once the archive has ended or something has raised, and
     * `came` is what the archive handed out, one member at most.
     */
    method ExtractNext(task: DownloadTask, counter: nat, entities: seq<Entity>, ghost v0: View)
      returns (more: bool, o: Outcome, entities': seq<Entity>, counter': nat, ghost inflight: Option<Name>,
               ghost came: seq<Extracted>)
      requires Carries(task) && Undoable(Sight(), v0, entities, None, world.leased)
      modifies world, task
      ensures Carries(task) && old(world.trace) <= world.trace && old(world.s.clock) <= world.s.clock
      ensures world.s.execs[me].msg == old(world.s.execs[me].msg) && world.fetches == old(world.fetches)
      ensures SameButBeat(old(task.ToRow()), task.ToRow())
      ensures Undoable(Sight(), v0, entities', inflight, world.leased)
      ensures world.log.yielded == old(world.log).yielded + came
      ensures came + world.current.files == old(world.current).files && world.current.ending == old(world.current).ending
      ensures more ==> o == Ok && came != []
      ensures o == Ok && !more ==> old(world.current) == Archive([], None)
      ensures o == Ok ==>
        && Uneventful(world.log, old(world.log)) && inflight == None
        && counter' == counter + |came|
        && world.log.saves == old(world.log).saves + Beats(counter, counter')
        && (world.leased ==> StockOf(Sight()) == Absorb(old(StockOf(Sight())), came, digest, world.apart))
      ensures o.Raised? ==>
        !more && RaisedBy(world.log, old(world.log), o.exn, world.s.clock) && entities' == entities
      ensures HangsOn(inflight, world.log, old(world.log)) && old(world.log).uploads <= world.log.uploads
      ensures world.leased && AllListed(came, old(Sight()).ledger.Keys) ==>
        entities' == entities && Sight() == old(Sight()) && world.log.uploads == old(world.log).uploads
    {
      hide Undoable, ViewOf, Legal, After, LeasedRun, Receive;
      more, o, entities', counter', inflight, came := false, Ok, entities, counter, None, [];
      var next := world.NextMember(me);
      match next
      case End => return;
      case NextRaises(exn) =>
        o := Raised(exn);
      case Member(x) =>
        came := [x];
        ghost var v, mid := Sight(), world.log;
        o, entities', inflight := ExtractMember(task, counter, x, entities, v0);
        more := o == Ok;
        if more {
          counter' := counter + 1;
        }
        ReceivesOne(x, StockOf(v), v.ledger.Keys);
    }

    /** Receiving one member, as a list. */
    lemma ReceivesOne(x: Extracted, st: Stock, names: set<Name>)
      ensures Absorb(st, [x], digest, world.apart) == Receive(st, x, digest, world.apart)
      ensures AllListed([x], names) <==> x.filename in names
    {
      AbsorbSnoc(st, [], x, digest, world.apart);
      assert [] + [x] == [x];
    }

    /** The try-block of a batch: the download, and every member of the archive, with a heartbeat every 30. */
    method ExtractBatch(task: DownloadTask, batch: seq<Name>, counter: nat)
      returns (o: Outcome, entities: seq<Entity>, counter': nat, ghost inflight: Option<Name>)
      requires Carries(task)
      modifies world, task
      ensures Carries(task) && old(world.trace) <= world.trace && old(world.s.clock) <= world.s.clock
      ensures world.s.execs[me].msg == old(world.s.execs[me].msg) && world.fetches == old(world.fetches)
      ensures SameButBeat(old(task.ToRow()), task.ToRow())
      ensures Undoable(Sight(), old(Sight()), entities, inflight, world.leased)
      ensures old(world.log).yielded <= world.log.yielded
      ensures o == Ok ==>
        && ReadLog(world.log, old(world.log), batch) && inflight == None
        && world.log.openings == old(world.log).openings + [Opening(batch, ArchiveAt(old(world.archives), 0))]
        && counter' == counter + |Taken(world.log, old(world.log))|
        && world.log.saves == old(world.log).saves + Beats(counter, counter')
        && Received(Sight(), old(Sight()), world.log, old(world.log))
      ensures o.Raised? ==> RaisedBy(world.log, old(world.log), o.exn, world.s.clock)
      ensures HangsOn(inflight, world.log, old(world.log))
      ensures NothingNew(Sight(), old(Sight()), entities, world.log, old(world.log))
    {
      hide ViewOf, Legal, After, LeasedRun, Undoable, ReadLog, RaisedBy, Uneventful, Unread;
      ghost var v0, log0 := Sight(), world.log;
      entities, counter', inflight := [], counter, None;
      UndoableStart(v0, world.leased);
      assert Taken(log0, log0) == [];
      world.Download(me, batch);
      ghost var archive, logd := world.current, world.log;
      assert logd == AfterDownload(log0, batch, archive);
      UnreadStarts(archive, batch, log0);
      var more := true;
      o := Ok;
      while more
        invariant Carries(task) && old(world.trace) <= world.trace && old(world.s.clock) <= world.s.clock
        invariant world.s.execs[me].msg == old(world.s.execs[me].msg) && world.fetches == old(world.fetches)
        invariant SameButBeat(old(task.ToRow()), task.ToRow())
        invariant Undoable(Sight(), v0, entities, inflight, world.leased)
        invariant log0.yielded <= world.log.yielded
        invariant Unread(world.current, archive, world.log, log0)
        invariant o == Ok && !more ==> world.current == Archive([], None)
        invariant o == Ok ==>
          && Uneventful(world.log, logd) && inflight == None
          && counter' == counter + |Taken(world.log, log0)|
          && world.log.saves == log0.saves + Beats(counter, counter')
          && Received(Sight(), v0, world.log, log0)
        invariant o.Raised? ==> !more && RaisedBy(world.log, logd, o.exn, world.s.clock)
        invariant HangsOn(inflight, world.log, log0)
        invariant NothingNew(Sight(), v0, entities, world.log, log0)
        decreases more, |world.current.files|
      {
        hide Carries, Undoable, ViewOf, Legal, After, LeasedRun, SameButBeat, Uneventful, RaisedBy, Absorb, AllListed,
             StockOf, Received, NothingNew, HangsOn, Beats, Unread;
        ghost var rest := world.current;
        ghost var log1, row1, u, es, counter1 := world.log, task.ToRow(), Sight(), entities, counter';
        ghost var came: seq<Extracted>;
        more, o, entities, counter', inflight, came := ExtractNext(task, counter', entities, v0);
        SameButBeatTwice(old(task.ToRow()), row1, task.ToRow());
        LogsCompose(world.log, log1, logd, o, world.s.clock);
        HangsLater(inflight, world.log, log1, log0);
        MoreExtracted(Sight(), u, v0, entities, es, came, world.log, log1, log0);
        UnreadLess(world.current, rest, archive, came, world.log, log1, log0);
        BeatsAdd(counter, counter1, counter');
      }
      if o == Ok {
        ReadToEnd(world.log, log0, batch, archive);
      } else {
        RaisedAfterDownload(world.log, log0, batch, archive, o.exn, world.s.clock);
      }
    }

    lemma MoreExtracted(v: View, u: View, v0: View, entities': seq<Entity>, entities: seq<Entity>, came: seq<Extracted>,
                        now: Log, mid: Log, was: Log)
      requires was.yielded <= mid.yielded && now.yielded == mid.yielded + came
      requires NothingNew(u, v0, entities, mid, was)
      requires world.leased && AllListed(came, u.ledger.Keys) ==>
        entities' == entities && v == u && now.uploads == mid.uploads
      ensures Taken(now, was) == Taken(mid, was) + came
      ensures NothingNew(v, v0, entities', now, was)
      ensures Received(u, v0, mid, was)
              && (world.leased ==> StockOf(v) == Absorb(StockOf(u), came, digest, world.apart))
              ==> Received(v, v0, now, was)
    {
      assert Taken(now, was) == Taken(mid, was) + came;
      AllListedConcat(Taken(mid, was), came, v0.ledger.Keys);
      AbsorbConcat(StockOf(v0), Taken(mid, was), came, digest, world.apart);
    }

    /** The except-blocks of a batch: clean up, take back what was received but not confirmed, park or go on. */
    method FailBatch(task: DownloadTask, entities: seq<Entity>, taken: nat, exn: Exn,
                     ghost v0: View, ghost inflight: Option<Name>)
      returns (parked: bool, o: Outcome)
      requires Carries(task) && task.processed + taken <= task.received
      requires Undoable(Sight(), v0, entities, inflight, world.leased)
      modifies world, task
      ensures old(world.trace) <= world.trace && world.Underway(me)
      ensures old(world.s.clock) <= world.s.clock
      ensures world.s.execs[me].msg == old(world.s.execs[me].msg) && world.fetches == old(world.fetches)
      ensures task.received == old(task.received) - taken && task.processed == old(task.processed)
      ensures RolledBack(Sight(), v0, inflight, world.log.eraseFailures == old(world.log).eraseFailures,
                         world.log.removeFailures == old(world.log).removeFailures, world.leased)
      ensures entities == [] ==> Sight() == old(Sight())
      ensures LongBlock(exn) ==>
        && ParkedSince(task.ToRow(), exn, old(world.s.clock), world.s.clock) && parked == (o == Ok)
        && (if parked then Saved(task) else Stranded(task))
      ensures !LongBlock(exn) ==> !parked && o == Raised(exn) && Carries(task)
      ensures BatchUndone(world.log, old(world.log), exn, parked)
    {
      hide Undoable, Cleaned, RolledBack, Removable, ViewOf, Legal, After, LeasedRun, OnlyDeletesFailed, BatchUndone,
           ParkedRow;
      UndoableEntities(Sight(), v0, entities, inflight, world.leased);
      ghost var v, log0 := Sight(), world.log;
      CleanupBatchFiles(entities);
      CleanupUndoes(Sight(), v, v0, entities, inflight, world.log.eraseFailures == log0.eraseFailures,
                    world.log.removeFailures == log0.removeFailures, world.leased);
      task.DecreaseReceived(taken);
      ghost var mid := world.log;
      parked, o := Escalate(task, exn);
      UndoneLog(world.log, mid, log0, exn, parked);
    }

    /** mark_downloaded, and the count that follows it. */
    method ConfirmBatch(task: DownloadTask, batch: seq<Name>) returns (o: Outcome)
      requires Carries(task) && task.processed + |batch| <= task.received
      modifies world, task
      ensures Carries(task) && old(world.trace) <= world.trace && old(world.s.clock) <= world.s.clock
      ensures world.s.execs[me] == old(world.s.execs[me]) && world.fetches == old(world.fetches)
      ensures Sight() == old(Sight())
      ensures task.received == old(task.received)
      ensures o == Ok ==>
        && world.log == old(world.log).(confirmed := old(world.log).confirmed + [batch],
                                        kept := |old(world.log).yielded|, marked := |old(world.log).yielded|)
        && task.processed == old(task.processed) + |batch|
      ensures o.Raised? ==>
        && world.log == old(world.log).(escaped := old(world.log).escaped + [Escape(InBatch, o.exn, world.s.clock)],
                                        marked := world.log.marked)
        && (world.log.marked == old(world.log).marked || world.log.marked == |old(world.log).yielded|)
        && task.processed == old(task.processed)
    {
      hide ViewOf, Legal, After, LeasedRun;
      o := world.MarkDownloaded(me, batch);
      if o == Ok {
        o := task.IncreaseProcessed(|batch|);
      }
    }

    /** The two try-blocks of a batch: extract it, and have it confirmed. */
    method TryBatch(task: DownloadTask, batch: seq<Name>, counter: nat)
      returns (o: Outcome, entities: seq<Entity>, counter': nat, ghost inflight: Option<Name>)
      requires Carries(task) && task.processed + |batch| <= task.received
      modifies world, task
      ensures Carries(task) && old(world.trace) <= world.trace && old(world.s.clock) <= world.s.clock
      ensures world.s.execs[me].msg == old(world.s.execs[me].msg) && world.fetches == old(world.fetches)
      ensures task.received == old(task.received)
      ensures task.processed == old(task.processed) + if o == Ok then |batch| else 0
      ensures Undoable(Sight(), old(Sight()), entities, inflight, world.leased)
      ensures HangsOn(inflight, world.log, old(world.log)) && old(world.log).yielded <= world.log.yielded
      ensures o == Ok ==>
        && ConfirmedLog(world.log, old(world.log), batch)
        && counter' == counter + |Taken(world.log, old(world.log))|
        && world.log.saves == old(world.log).saves + Beats(counter, counter')
        && Received(Sight(), old(Sight()), world.log, old(world.log))
      ensures o.Raised? ==> RaisedBy(world.log, old(world.log), o.exn, world.s.clock)
      ensures NothingNew(Sight(), old(Sight()), entities, world.log, old(world.log))
    {
      hide Undoable, ViewOf, Legal, After, LeasedRun, Uneventful, ConfirmedLog, RaisedBy, Beats, Absorb, AllListed,
           ReadLog;
      ghost var log0 := world.log;
      o, entities, counter', inflight := ExtractBatch(task, batch, counter);
      if o == Ok {
        ghost var mid := world.log;
        o := ConfirmBatch(task, batch);
        ConfirmLogs(world.log, mid, log0, batch, o, world.s.clock);
      }
    }

    /**
     * One batch, from its download to the commit that follows its confirmation; `rest` names are still waiting.
     * `why` is the exception that ended the batch, if one did.
     */
    method ProcessBatch(task: DownloadTask, batch: seq<Name>, rest: nat, counter: nat)
      returns (end: BatchEnd, o: Outcome, counter': nat, ghost why: Escape)
      requires Carries(task) && task.processed + |batch| + rest <= task.received
      modifies world, task
      ensures old(world.trace) <= world.trace && world.Underway(me)
      ensures old(world.s.clock) <= world.s.clock
      ensures world.s.execs[me].msg == old(world.s.execs[me].msg) && world.fetches == old(world.fetches)
      ensures end == Done ==>
        && o == Ok && Carries(task) && Saved(task)
        && task.received == old(task.received) && task.processed == old(task.processed) + |batch|
      ensures end == Parked ==>
        o == Ok && LongBlock(why.exn) && Saved(task) && ParkedSince(task.ToRow(), why.exn, why.at, world.s.clock)
      ensures end == Broken ==> o.Raised? && (Carries(task) || Stranded(task))
      ensures BatchLog(end, o, why, batch, world.log, old(world.log))
      ensures end == Broken && world.log.saveFailures == old(world.log).saveFailures ==> Carries(task)
      ensures end == Done ==>
        && counter' == counter + |Taken(world.log, old(world.log))|
        && world.log.saves == old(world.log).saves + Beats(counter, counter') + 1
      ensures
        if world.log.confirmed == old(world.log).confirmed then
          && task.received == old(task.received) - |batch| - rest && task.processed == old(task.processed)
          && RolledBack(Sight(), old(Sight()), Hanging(world.log, old(world.log)),
                        world.log.eraseFailures == old(world.log).eraseFailures,
                        world.log.removeFailures == old(world.log).removeFailures, world.leased)
        else
          && task.received == old(task.received) && task.processed == old(task.processed) + |batch|
          && Received(Sight(), old(Sight()), world.log, old(world.log))
      ensures NothingNew(Sight(), old(Sight()), [], world.log, old(world.log))
    {
      hide Undoable, RolledBack, ViewOf, Legal, After, LeasedRun, BatchLog, BatchUndone, Received, NothingNew,
           ConfirmedLog, RaisedBy, Beats, HangsOn;
      ghost var v0, log0 := Sight(), world.log;
      end, why := Broken, NO_ESCAPE;
      var entities: seq<Entity>;
      ghost var inflight: Option<Name>;
      o, entities, counter', inflight := TryBatch(task, batch, counter);
      ghost var u, mid := Sight(), world.log;
      if o.Raised? {
        why := Escape(InBatch, o.exn, world.s.clock);
        var parked: bool;
        parked, o := FailBatch(task, entities, |batch| + rest, o.exn, v0, inflight);
        end := if parked then Parked else Broken;
        RaisedFacts(mid, log0, why.exn, why.at);
        UndoneFacts(world.log, mid, why.exn, parked);
        FailedBatchLog(world.log, mid, log0, parked, o, why, batch);
        RolledBackAfter(Sight(), v0, inflight, world.log, mid, log0, world.leased);
      } else {
        o := world.Save(me, task.ToRow());
        end := if o == Ok then Done else Broken;
        ConfirmedBatchLog(world.log, mid, log0, o, why, batch);
      }
      BatchIsQuiet(Sight(), u, v0, entities, world.log, mid, log0);
    }

    /** What follows the extraction, a cleanup apart, adds nothing. */
    lemma BatchIsQuiet(v: View, u: View, v0: View, entities: seq<Entity>, now: Log, mid: Log, was: Log)
      requires now.yielded == mid.yielded && now.uploads == mid.uploads && was.yielded <= mid.yielded
      requires NothingNew(u, v0, entities, mid, was) && (entities == [] ==> v == u)
      ensures NothingNew(v, v0, [], now, was)
      ensures v == u && Received(u, v0, mid, was) ==> Received(v, v0, now, was)
    {
    }

    /** The top of the loop: with fewer than three names waiting, ask for more. */
    method Refill(task: DownloadTask, pending: seq<Name>)
      returns (fill: Fill, o: Outcome, pending': seq<Name>, ghost why: Escape)
      requires Steady(task) && (pending != [] ==> Carries(task)) && task.processed + |pending| <= task.received
      modifies world, task
      ensures old(world.trace) <= world.trace && world.Underway(me)
      ensures old(world.s.clock) <= world.s.clock && world.s.execs[me].msg == old(world.s.execs[me].msg)
      ensures Sight() == old(Sight())
      ensures task.processed == old(task.processed) && old(task.received) <= task.received
      ensures fill == Enough ==>
        && o == Ok && old(task.status) == Running && Carries(task) && pending' != []
        && task.received == old(task.received) + |pending'| - |pending|
        && CountNames(world.fetches) + |pending'| == CountNames(old(world.fetches)) + |pending|
        && FillLog(pending', pending, world.log, old(world.log))
      ensures fill == Exhausted ==>
        && o == Ok && Steady(task) && pending == [] == pending' && task.ToRow() == old(task.ToRow())
        && world.log == old(world.log).(fetched := old(world.log).fetched + [[]])
      ensures why.site == Fetching
      ensures fill == Stopped ==>
        && |pending| < 3
        && (o == Ok ==> LongBlock(why.exn) && Saved(task)
                        && ParkedSince(task.ToRow(), why.exn, why.at, world.s.clock))
        && (o.Raised? ==> Steady(task) || Stranded(task))
        && StopLog(o, why, old(task.status) == Running, world.log, old(world.log))
      ensures fill == Stopped && old(task.status) == Running && world.log.saveFailures == old(world.log).saveFailures ==>
        task.received == old(task.received) && (o.Raised? ==> Carries(task))
    {
      hide ViewOf, Legal, After, LeasedRun, ParkedSince, LongBlock;
      ghost var log0 := world.log;
      fill, o, pending', why := Enough, Ok, pending, NO_ESCAPE;
      if |pending| >= 3 {
        return;
      }
      var reply := world.GetFileNames(me);
      match reply
      case FetchRaises(exn) =>
        fill, why := Stopped, Escape(Fetching, exn, world.s.clock);
        var parked: bool;
        parked, o := Escalate(task, exn);
      case Names(names) =>
        if names == [] {
          fill := if pending == [] then Exhausted else Enough;
          FillLogged(pending, names, world.log, log0);
        } else {
          pending' := pending + names;
          o := CountReceived(task, |names|);
          fill := if o == Ok then Enough else Stopped;
          if o == Ok {
            FillLogged(pending, names, world.log, log0);
          }
        }
    }

    /** New names are counted and the row is saved. */
    method CountReceived(task: DownloadTask, count: nat) returns (o: Outcome)
      requires Steady(task)
      modifies world, task
      ensures old(world.trace) <= world.trace && world.Underway(me)
      ensures old(world.s.clock) <= world.s.clock && world.s.execs[me].msg == old(world.s.execs[me].msg)
      ensures Sight() == old(Sight()) && world.fetches == old(world.fetches)
      ensures task.processed == old(task.processed) && Steady(task) && task.status == old(task.status)
      ensures task.received == old(task.received) + if old(task.status) == Running then count else 0
      ensures o == Ok ==>
        && old(task.status) == Running && Carries(task)
        && world.log == old(world.log).(saves := old(world.log).saves + 1)
      ensures o.Raised? ==>
        world.log == if old(task.status) == Running
                     then old(world.log).(saveFailures := old(world.log).saveFailures + 1) else old(world.log)
    {
      hide ViewOf, Legal, After, LeasedRun;
      o := task.IncreaseReceived(count);
      if o == Ok {
        o := world.Save(me, task.ToRow());
      }
    }

    lemma NothingNewTwice(v: View, u: View, v0: View, now: Log, mid: Log, was: Log)
      requires was.yielded <= mid.yielded <= now.yielded
      requires NothingNew(u, v0, [], mid, was) && NothingNew(v, u, [], now, mid)
      ensures NothingNew(v, v0, [], now, was)
    {
      assert Taken(now, was) == Taken(mid, was) + Taken(now, mid);
      AllListedConcat(Taken(mid, was), Taken(now, mid), v0.ledger.Keys);
    }

    lemma ReceivedTwice(v: View, u: View, v0: View, now: Log, mid: Log, was: Log)
      requires was.yielded <= mid.yielded <= now.yielded
      requires Received(u, v0, mid, was) && Received(v, u, now, mid)
      ensures Received(v, v0, now, was)
    {
      assert Taken(now, was) == Taken(mid, was) + Taken(now, mid);
      AbsorbConcat(StockOf(v0), Taken(mid, was), Taken(now, mid), digest, world.apart);
    }

    /** What a run leaves of the stock it began with. */
    ghost predicate Leaves(v: View, v0: View, now: Log, was: Log) {
      world.leased ==> Left(StockOf(v), StockOf(v0), now, was, digest, world.apart)
    }

    lemma LeavesWhole(v: View, v0: View, now: Log, was: Log)
      requires AllKept(now, was) && Received(v, v0, now, was)
      ensures Leaves(v, v0, now, was)
    {
      if world.leased {
        LeftWhole(StockOf(v), StockOf(v0), now, was, digest, world.apart);
      }
    }

    lemma LeavesRolledBack(v: View, u: View, v0: View, now: Log, mid: Log, was: Log)
      requires AllKept(mid, was) && mid.yielded <= now.yielded && now.kept == mid.kept
      requires mid.eraseFailures == was.eraseFailures && mid.removeFailures == was.removeFailures
      requires was.uploads <= mid.uploads && Received(u, v0, mid, was)
      requires RolledBack(v, u, Hanging(now, mid), now.eraseFailures == mid.eraseFailures,
                          now.removeFailures == mid.removeFailures, world.leased)
      ensures Leaves(v, v0, now, was)
    {
      if world.leased {
        LeftRolledBack(v, u, StockOf(v0), now, mid, was, digest, world.apart);
      }
    }

    /**
     * The loop invariant, `start` being the moment the run began with row `row0`, view `v0` and log `log0`: what
     * was received and not processed is what is pending plus the gap of the start.
     */
    ghost predicate Going(task: DownloadTask, cut: seq<seq<Name>>, pending: seq<Name>, counter: nat, from: Origin)
      reads world, task
    {
      && Steady(task) && (from.row.status == Running <==> task.status == Running) && (pending != [] ==> Carries(task))
      && world.s.execs[me].msg == from.msg && from.clock <= world.s.clock && from.trace <= world.trace
      && from.row.processed <= from.row.received
      && task.received - task.processed - |pending| == from.row.received - from.row.processed
      && CountsConfirmed(task.processed, from.row.processed, world.log, from.log)
      && Progressing(cut, pending, counter, world.log, from.log)
      && Received(Sight(), from.view, world.log, from.log)
      && NothingNew(Sight(), from.view, [], world.log, from.log)
    }

    /** What a run that is over has achieved. */
    ghost predicate Over(task: DownloadTask, o: Outcome, ending: Ending, cut: seq<seq<Name>>, from: Origin)
      reads world, task
    {
      && world.Underway(me)
      && world.s.execs[me].msg == from.msg && from.clock <= world.s.clock && from.trace <= world.trace
      && CountsConfirmed(task.processed, from.row.processed, world.log, from.log)
      && RunLog(ending.end, ending.why, o, from.row.status == Running, world.log, from.log)
      && InOrder(cut, world.log, from.log)
      && Leaves(Sight(), from.view, world.log, from.log)
      && NothingNew(Sight(), from.view, [], world.log, from.log)
      && match ending.end
         case Finished =>
           && o == Ok && task.status == Success && Saved(task) && Completed(cut, world.log, from.log)
           && FinishedWithin(task.ToRow(), from.clock, world.s.clock)
           && Received(Sight(), from.view, world.log, from.log)
           && task.received - task.processed == from.row.received - from.row.processed
         case Shelved =>
           && o == Ok && LongBlock(ending.why.exn) && Saved(task)
           && ParkedSince(task.ToRow(), ending.why.exn, ending.why.at, world.s.clock)
           && (from.row.status == Running && world.log.saveFailures == from.log.saveFailures ==>
                 GapKept(task, ending.why.site, from.row))
         case Aborted =>
           && o.Raised? && (Steady(task) || Stranded(task))
           && (from.row.status == Running && world.log.saveFailures == from.log.saveFailures ==>
                 Carries(task) && GapKept(task, ending.why.site, from.row))
    }

    /** A failed batch restores the gap between received and processed; a failed fetch widens it by two at most. */
    ghost predicate GapKept(task: DownloadTask, site: Site, row0: Row)
      reads task
    {
      var gap0, gap := row0.received - row0.processed, task.received - task.processed;
      gap0 <= gap <= (if site == InBatch then gap0 else gap0 + 2)
    }

    /** Cuts a batch off the names waiting and processes it. */
    method TakeBatch(task: DownloadTask, names: seq<Name>, counter: nat, ghost cut: seq<seq<Name>>, ghost from: Origin)
      returns (again: bool, o: Outcome, pending: seq<Name>, counter': nat, ghost cut': seq<seq<Name>>, ghost ending: Ending)
      requires Going(task, cut, names, counter, from) && names != [] && MayCut(cut, names, world.log, from.log)
      modifies world, task
      ensures again ==> Going(task, cut', pending, counter', from) && |pending| < |names|
      ensures world.fetches == old(world.fetches)
      ensures !again ==> Over(task, o, ending, cut', from)
    {
      hide Stranded, Saved, ViewOf, Legal, After, LeasedRun, MayCut, BatchLog, RunLog, InOrder, Completed, Received,
           NothingNew, RolledBack, Leaves, LongBlock, Progressing, StockOf, CountsConfirmed;
      ghost var mid, u, processed := world.log, Sight(), task.processed;
      ProgressFacts(cut, names, counter, mid, from.log);
      var batch := names[..Min(BATCH_SIZE, |names|)];
      pending := names[Min(BATCH_SIZE, |names|)..];
      var batchEnd: BatchEnd;
      ghost var why: Escape;
      batchEnd, o, counter', why := ProcessBatch(task, batch, |pending|, counter);
      cut', again := cut + [batch], batchEnd == Done;
      BatchLogFacts(batchEnd, o, why, batch, world.log, mid);
      CountsMore(processed, task.processed, from.row.processed, batch, world.log, mid, from.log);
      NothingNewTwice(Sight(), u, from.view, world.log, mid, from.log);
      if again {
        ProgressCuts(cut, names, batch, pending, counter, counter', world.log, mid, from.log, o, why);
        ReceivedTwice(Sight(), u, from.view, world.log, mid, from.log);
        ending := Ending(Aborted, why);
        return;
      }
      ending := Ending(if batchEnd == Parked then Shelved else Aborted, why);
      RunBreaks(cut, names, batch, counter, from.row.status == Running, batchEnd, o, why, world.log, mid, from.log);
      if world.log.confirmed == mid.confirmed {
        LeavesRolledBack(Sight(), u, from.view, world.log, mid, from.log);
      } else {
        ReceivedTwice(Sight(), u, from.view, world.log, mid, from.log);
        LeavesWhole(Sight(), from.view, world.log, from.log);
      }
    }

    lemma QuietlyOn(v: View, v0: View, now: Log, mid: Log, was: Log)
      requires now.yielded == mid.yielded && now.uploads == mid.uploads && was.yielded <= mid.yielded
      requires Received(v, v0, mid, was) && NothingNew(v, v0, [], mid, was)
      ensures Received(v, v0, now, was) && NothingNew(v, v0, [], now, was)
    {
    }

    /** The names are exhausted and nothing waits; `mid` is the log before the last, empty answer. */
    ghost predicate Spent(task: DownloadTask, cut: seq<seq<Name>>, counter: nat, from: Origin, mid: Log)
      reads world, task
    {
      && Steady(task) && (from.row.status == Running <==> task.status == Running)
      && world.s.execs[me].msg == from.msg && from.clock <= world.s.clock && from.trace <= world.trace
      && task.received - task.processed == from.row.received - from.row.processed
      && CountsConfirmed(task.processed, from.row.processed, world.log, from.log)
      && Progressing(cut, [], counter, mid, from.log) && world.log == mid.(fetched := mid.fetched + [[]])
      && Received(Sight(), from.view, world.log, from.log)
      && NothingNew(Sight(), from.view, [], world.log, from.log)
    }

    /** One pass of the loop. */
    method Pass(task: DownloadTask, pending: seq<Name>, counter: nat, ghost cut: seq<seq<Name>>, ghost from: Origin)
      returns (fill: Fill, o: Outcome, pending': seq<Name>, counter': nat, ghost cut': seq<seq<Name>>,
               ghost ending: Ending, ghost mid: Log)
      requires Going(task, cut, pending, counter, from)
      modifies world, task
      ensures fill == Enough ==>
        && Going(task, cut', pending', counter', from)
        && CountNames(world.fetches) + |pending'| < CountNames(old(world.fetches)) + |pending|
      ensures fill == Exhausted ==> Spent(task, cut', counter', from, mid)
      ensures fill == Stopped ==> Over(task, o, ending, cut', from)
    {
      hide Stranded, Saved, ViewOf, Legal, After, LeasedRun, MayCut, FillLog, StopLog, RunLog, InOrder, Completed, Received,
           NothingNew, RolledBack, Leaves, LongBlock, Progressing, StockOf, CountsConfirmed;
      mid := world.log;
      ghost var why: Escape;
      var names: seq<Name>;
      counter', cut', pending' := counter, cut, pending;
      fill, o, names, why := Refill(task, pending);
      ending := Ending(if o == Ok then Shelved else Aborted, why);
      ProgressFacts(cut, pending, counter, mid, from.log);
      if fill == Stopped {
        AskingIsQuiet(names, pending, o, why, from.row.status == Running, world.log, mid);
        CountsMore(task.processed, task.processed, from.row.processed, [], world.log, mid, from.log);
        QuietlyOn(Sight(), from.view, world.log, mid, from.log);
        RunStops(cut, pending, counter, from.row.status == Running, o, why, world.log, mid, from.log);
        LeavesWhole(Sight(), from.view, world.log, from.log);
      } else if fill == Exhausted {
        CountsMore(task.processed, task.processed, from.row.processed, [], world.log, mid, from.log);
        QuietlyOn(Sight(), from.view, world.log, mid, from.log);
      } else {
        AskingIsQuiet(names, pending, o, why, from.row.status == Running, world.log, mid);
        CountsMore(task.processed, task.processed, from.row.processed, [], world.log, mid, from.log);
        QuietlyOn(Sight(), from.view, world.log, mid, from.log);
        ProgressRefills(cut, pending, names, counter, world.log, mid, from.log);
        var again: bool;
        again, o, pending', counter', cut', ending := TakeBatch(task, names, counter, cut, from);
        fill := if again then Enough else Stopped;
      }
    }

    /** After the loop: complete the task and commit it. */
    method Finish(task: DownloadTask, ghost cut: seq<seq<Name>>, ghost counter: nat, ghost from: Origin, ghost mid: Log)
      returns (o: Outcome, ghost ending: Ending)
      requires Spent(task, cut, counter, from, mid)
      modifies world, task
      ensures Over(task, o, ending, cut, from)
    {
      hide ViewOf, Legal, After, LeasedRun, RunLog, InOrder, Completed, Received, NothingNew, RolledBack, Leaves, LongBlock,
           Progressing, StockOf, CountsConfirmed;
      ghost var asked := world.log;
      ProgressFacts(cut, [], counter, mid, from.log);
      o := task.Complete(world.s.clock);
      if o == Ok {
        o := world.Save(me, task.ToRow());
      }
      QuietlyOn(Sight(), from.view, world.log, asked, from.log);
      CountsMore(task.processed, task.processed, from.row.processed, [], world.log, asked, from.log);
      ending := Ending(if o == Ok then Finished else Aborted, NO_ESCAPE);
      RunEnds(cut, counter, from.row.status == Running, o, ending.why, world.log, mid, from.log);
      LeavesWhole(Sight(), from.view, world.log, from.log);
    }

    /** The whole pipeline: pass after pass until the names are exhausted, then the task is completed. */
    method Run(task: DownloadTask) returns (o: Outcome, ghost cut: seq<seq<Name>>, ghost ending: Ending, ghost from: Origin)
      requires Steady(task)
      modifies world, task
      ensures from == old(Origin(world.s.execs[me].msg, world.s.clock, world.trace, task.ToRow(), Sight(), world.log))
      ensures Over(task, o, ending, cut, from)
    {
      var pending: seq<Name> := [];
      var counter: nat := 0;
      cut, from := [], Origin(world.s.execs[me].msg, world.s.clock, world.trace, task.ToRow(), Sight(), world.log);
      ProgressStarts(world.log);
      CountsStart(task.processed, world.log);
      assert Going(task, cut, pending, counter, from) by {
        assert Taken(world.log, world.log) == [];
      }
      o, ending := Ok, Ending(Aborted, NO_ESCAPE);
      var fill := Enough;
      ghost var mid := world.log;
      hide *;
      while fill == Enough
        invariant fill == Enough ==> Going(task, cut, pending, counter, from)
        invariant fill == Exhausted ==> Spent(task, cut, counter, from, mid)
        invariant fill == Stopped ==> Over(task, o, ending, cut, from)
        decreases fill == Enough, CountNames(world.fetches) + |pending|
      {
        fill, o, pending, counter, cut, ending, mid := Pass(task, pending, counter, cut, from);
      }
      if fill == Exhausted {
        o, ending := Finish(task, cut, counter, from, mid);
      }
    }

    /** The handler's last word on a run that raised: mark the task FAILED. */
    method FailTask(task: DownloadTask, message: string) returns (o: Outcome)
      requires Steady(task) || Stranded(task)
      modifies world, task
      ensures old(world.trace) <= world.trace && world.Underway(me)
      ensures old(world.s.clock) <= world.s.clock && world.s.execs[me].msg == old(world.s.execs[me].msg)
      ensures Sight() == old(Sight())
      ensures o == Ok ==>
        && Saved(task) && world.log == old(world.log).(saves := old(world.log).saves + 1)
        && task.ToRow() == old(task.ToRow()).(status := Failed, error := Some(message),
                                              finishedAt := Some(old(world.s.clock)))
      ensures o.Raised? && old(task.status) in {Pending, Running} ==>
        world.log == old(world.log).(saveFailures := old(world.log).saveFailures + 1)
      ensures old(task.status) !in {Pending, Running} ==>
        o == Raised(InvalidTransition(task.status, Failed)) && world.log == old(world.log)
    {
      hide ViewOf, Legal, After, LeasedRun;
      o := task.Fail(message, world.s.clock);
      if o == Ok {
        o := world.Save(me, task.ToRow());
      }
    }

    /** A further commit of the row, or its failure, changes nothing of what a run has left. */
    lemma LeftUntouched(v: View, v0: View, cut: seq<seq<Name>>, now: Log, mid: Log, was: Log)
      requires now == mid.(saves := now.saves, saveFailures := now.saveFailures)
      requires InOrder(cut, mid, was) && was.yielded <= mid.yielded
      requires Leaves(v, v0, mid, was) && NothingNew(v, v0, [], mid, was)
      ensures InOrder(cut, now, was) && Leaves(v, v0, now, was) && NothingNew(v, v0, [], now, was)
    {
      InOrderStays(cut, now, mid, was);
      if world.leased {
        LeftStays(StockOf(v), StockOf(v0), now, mid, was, digest, world.apart);
      }
      hide InOrder, Left, StockOf, AllListed;
    }

    /** The run, and FAILED for whatever comes out of it. */
    method RunOrFail(task: DownloadTask) returns (o: Outcome, ghost cut: seq<seq<Name>>)
      requires Steady(task)
      modifies world, task
      ensures old(world.trace) <= world.trace && world.Underway(me)
      ensures world.s.execs[me].msg == old(world.s.execs[me].msg) && old(world.s.clock) <= world.s.clock
      ensures InOrder(cut, world.log, old(world.log))
      ensures Leaves(Sight(), old(Sight()), world.log, old(world.log))
      ensures NothingNew(Sight(), old(Sight()), [], world.log, old(world.log))
      ensures world.log.clashes == old(world.log).clashes && |old(world.log).escaped| <= |world.log.escaped|
      ensures old(task.status) == Running && world.log.saveFailures == old(world.log).saveFailures ==>
        && o == Ok && Saved(task)
        && Verdict(task.ToRow(), old(task.ToRow()), world.log, old(world.log), old(world.s.clock), world.s.clock)
        && (|world.log.escaped| == |old(world.log).escaped| ==> task.status == Success)
        && (task.status == Success ==>
              Completed(cut, world.log, old(world.log))
              && Received(Sight(), old(Sight()), world.log, old(world.log)))
    {
      hide Legal, After, LeasedRun, ViewOf, InOrder, Completed, Received, NothingNew, RolledBack, Leaves, StockOf, Verdict;
      ghost var from: Origin, ending: Ending;
      o, cut, ending, from := Run(task);
      ghost var mid, ran := world.log, o;
      if o.Raised? {
        o := FailTask(task, o.exn.Text());
      }
      LeftUntouched(Sight(), from.view, cut, world.log, mid, from.log);
      if from.row.status == Running && world.log.saveFailures == from.log.saveFailures {
        Judge(task.ToRow(), from.row, ending.end, ending.why, ran, world.log, mid, from.log, from.clock, world.s.clock);
      }
    }

    /**
     * The handler. Without failed commits of the row, and under the lease, the row it leaves is decided by what
     * escaped, and the ledger, files and objects by what was received. In any case each step it took is a step
     * of the protocol.
     */
    method Execute() returns (o: Outcome, ghost loaded: bool, ghost cut: seq<seq<Name>>)
      requires world.Valid() && me in world.s.execs && world.s.execs[me].phase == Claimed
      modifies world
      ensures old(world.trace) <= world.trace && world.Underway(me)
      ensures world.s.execs[me].msg == old(world.s.execs[me].msg) && old(world.s.clock) <= world.s.clock
      ensures loaded <==> ReplyAt(old(world.replies), 0).Fine?
      ensures !loaded ==> o.Raised? && world.log == old(world.log) && Sight() == old(Sight())
      ensures loaded ==>
        && InOrder(cut, world.log, old(world.log))
        && Leaves(Sight(), old(Sight()), world.log, old(world.log))
        && NothingNew(Sight(), old(Sight()), [], world.log, old(world.log))
      ensures loaded && world.leased && world.log.saveFailures == old(world.log).saveFailures ==>
        var t := world.s.execs[me].msg.task;
        && t in old(world.s.tasks) && t in world.s.tasks && o == Ok
        && Verdict(world.s.tasks[t].row, old(world.s.tasks[t].row), world.log, old(world.log),
                   old(world.s.clock), world.s.clock)
        && (world.s.tasks[t].row.status == Success ==>
              Completed(cut, world.log, old(world.log))
              && Received(Sight(), old(Sight()), world.log, old(world.log)))
      ensures world.leased && world.calm ==>
        var t := world.s.execs[me].msg.task;
        && loaded && world.log.saveFailures == old(world.log).saveFailures
        && t in world.s.tasks && world.s.tasks[t].row.status == Success
    {
      hide Legal, After, LeasedRun, ViewOf, InOrder, Completed, Received, NothingNew, RolledBack, Leaves, StockOf, Verdict;
      if world.leased && world.calm {
        world.CalmSoFar();
      }
      cut, loaded := [], false;
      o := world.Load(me);
      if o.Raised? {
        return;
      }
      loaded := true;
      var task := new DownloadTask.FromRow(world.s.execs[me].msg.task, world.s.execs[me].base);
      ghost var start, row0, log0 := world.s.clock, task.ToRow(), world.log;
      o, cut := RunOrFail(task);
      if world.leased && world.log.saveFailures == log0.saveFailures {
        VerdictFromEarlier(task.ToRow(), row0, world.log, log0, old(world.s.clock), start, world.s.clock);
      }
      if world.leased && world.calm {
        world.CalmSoFar();
      }
    }
  }
}
