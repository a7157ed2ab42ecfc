/**
 * Everything outside one worker process: the shared state, everybody else, and a scripted outcome for every
 * call. Each operation first lets the others run, then takes one step of the protocol.
 */
module Worlds {
  import opened Basics
  import opened Tasks
  import opened Protocol
  import opened Pairing
  import opened Leases
  import opened Interference

  /** One member of a downloaded archive. */
  datatype Extracted = Extracted(filename: Name, content: Content, size: nat)

  /** What get_file_names answers. */
  datatype FetchReply = Names(names: seq<Name>) | FetchRaises(exn: Exn)

  /** What iterating over a downloaded archive yields: some members, then the end or an exception. */
  datatype Archive = Archive(files: seq<Extracted>, ending: Option<Exn>)

  datatype Next = Member(file: Extracted) | End | NextRaises(exn: Exn)

  /** How any other call ends; one that raises may still have done its work, which is then said to have landed. */
  datatype Reply = Fine | Raises(exn: Exn, landed: bool)

  /** Where an exception came out of the pipeline: from get_file_names, or from the handling of a batch. */
  datatype Site = Fetching | InBatch

  datatype Escape = Escape(site: Site, exn: Exn, at: Time)

  /** A download: the names asked for, and the archive that came. */
  datatype Opening = Opening(asked: seq<Name>, archive: Archive)

  /** What has happened at the boundary so far. */
  datatype Log = Log(
    fetched: seq<seq<Name>>,      // the answers of get_file_names
    openings: seq<Opening>,        // the downloads
    yielded: seq<Extracted>,      // the archive members handed out
    confirmed: seq<seq<Name>>,    // the batches for which mark_downloaded has returned
    kept: nat,                    // how many members had been handed out when it last did
    marked: nat,                  // the same for when the API last marked a batch, whether or not the call returned
    uploads: seq<Name>,           // the calls of upload_stream
    escaped: seq<Escape>,         // exceptions raised, and when, other than by task-row commits and deletes
    clashes: nat,                 // how many of them, under the lease, an insert under a listed name
    saves: nat,                   // commits of the task's row
    saveFailures: nat,
    removeFailures: nat,          // deletes that raised: of objects, and of file and ledger rows
    eraseFailures: nat)

  const NOTHING_YET := Log([], [], [], [], 0, 0, [], [], 0, 0, 0, 0, 0)

  /** How the i-th call from now ends; calls beyond the script go through. */
  function ReplyAt(replies: seq<Reply>, i: nat): Reply {
    if i < |replies| then replies[i] else Fine
  }

  function FetchAt(fetches: seq<FetchReply>, i: nat): FetchReply {
    if i < |fetches| then fetches[i] else Names([])
  }

  function ArchiveAt(archives: seq<Archive>, i: nat): Archive {
    if i < |archives| then archives[i] else Archive([], None)
  }

  function Rest<T>(script: seq<T>): seq<T> {
    if script == [] then [] else script[1..]
  }

  /** No call in this script raises. */
  predicate RaisesNothing(fetches: seq<FetchReply>, archives: seq<Archive>, replies: seq<Reply>) {
    && (forall r :: r in fetches ==> r.Names?)
    && (forall a :: a in archives ==> a.ending == None)
    && (forall r :: r in replies ==> r.Fine?)
  }

  /** Nothing has raised so far but inserts under a listed name, and nothing will. */
  ghost predicate Peaceful(fetches: seq<FetchReply>, archives: seq<Archive>, current: Archive, replies: seq<Reply>,
                           log: Log)
  {
    && RaisesNothing(fetches, archives, replies) && current.ending == None
    && |log.escaped| == log.clashes && log.saveFailures == 0 && log.removeFailures == 0 && log.eraseFailures == 0
  }

  function CountNames(replies: seq<FetchReply>): nat {
    if replies == [] then 0
    else (match replies[0] case Names(names) => |names| case FetchRaises(_) => 0) + CountNames(replies[1..])
  }

  class World {
    const leased: bool       // whether the lease assumption is kept
    const apart: set<Name>   // names whose objects no other execution touches
    ghost const calm: bool   // whether the script it was built from raises nothing
    var s: State
    ghost var trace: seq<Event>
    ghost var log: Log
    var others: seq<seq<Event>>   // what the others try to do before each of our steps
    var fetches: seq<FetchReply>
    var archives: seq<Archive>
    var current: Archive
    var replies: seq<Reply>

    /** The state is the one that the whole history so far leads to. */
    ghost predicate Valid()
      reads this
    {
      && Legal(EMPTY, trace) && s == After(EMPTY, trace) && (leased ==> LeasedRun(EMPTY, trace))
      && log.kept <= log.marked <= |log.yielded|
      && (leased && calm ==> Peaceful(fetches, archives, current, replies, log))
    }

    /** A world in which nothing has happened yet. */
    constructor (leased: bool, apart: set<Name>, others: seq<seq<Event>>, fetches: seq<FetchReply>,
                 archives: seq<Archive>, replies: seq<Reply>)
      ensures Valid() && s == EMPTY && trace == [] && log == NOTHING_YET
      ensures this.leased == leased && this.apart == apart && this.others == others
      ensures this.fetches == fetches && this.archives == archives && this.replies == replies
      ensures calm <==> RaisesNothing(fetches, archives, replies)
    {
      this.calm := RaisesNothing(fetches, archives, replies);
      this.leased, this.apart, this.others := leased, apart, others;
      this.fetches, this.archives, this.replies := fetches, archives, replies;
      s, trace, log, current := EMPTY, [], NOTHING_YET, Archive([], None);
    }

    /** Execution me is in its handler. */
    ghost predicate Ready(me: ExecId)
      reads this
    {
      Valid() && me in s.execs && s.execs[me].phase == Working
    }

    /** Execution me has been past its claim. */
    ghost predicate Underway(me: ExecId)
      reads this
    {
      Valid() && me in s.execs && s.execs[me].phase != Waiting
    }

    lemma Reachable()
      requires Valid()
      ensures Sane(s) && Paired(s) && (leased ==> LeaseInv(s) && Leased(s))
    {
      RunKeepsPaired(trace);
      if leased {
        RunKeepsLeaseInv(trace);
      }
    }

    /** In a leased world built from a script that raises nothing, nothing has raised and nothing will. */
    lemma CalmSoFar()
      requires Valid() && leased && calm
      ensures |log.escaped| == log.clashes
      ensures log.saveFailures == 0 && log.removeFailures == 0 && log.eraseFailures == 0
      ensures forall i: nat :: ReplyAt(replies, i).Fine?
    {
      hide Legal, After, LeasedRun;
    }

    lemma BaseIsSane(me: ExecId)
      requires Valid() && me in s.execs
      ensures RowSane(s.execs[me].base, s.clock)
    {
      RunKeepsPaired(trace);
    }

    /** One enabled event happens. */
    method Happen(ev: Event)
      requires Valid() && Enabled(s, ev) && (leased ==> Leased(Apply(s, ev)))
      modifies this`s, this`trace
      ensures Valid() && s == Apply(old(s), ev) && trace == old(trace) + [ev]
    {
      LegalSnoc(EMPTY, trace, ev);
      if leased {
        LeasedSnoc(EMPTY, trace, ev);
      }
      hide Legal, After, LeasedRun, Apply, Enabled, Leased;
      s := Apply(s, ev);
      trace := trace + [ev];
    }

    /** What me sees. */
    ghost function Sees(me: ExecId): View
      requires me in s.execs
      reads this`s
    {
      ViewOf(s, me, leased, apart)
    }

    lemma HoldsStill(me: ExecId, hold: bool)
      requires Valid() && me in s.execs && (hold ==> leased && Holder(s, me))
      ensures Undisturbed(s, s, me, hold, apart)
    {
      if hold {
        Reachable();
        assert Tied(s, me);
      }
    }

    /** Somebody else tries one event; it happens if it can and the assumptions allow it. */
    method TryForeign(ev: Event, me: ExecId, ghost hold: bool)
      requires Valid() && me in s.execs && (hold ==> leased && Holder(s, me))
      modifies this`s, this`trace
      ensures Valid() && old(trace) <= trace
      ensures Undisturbed(old(s), s, me, hold, apart)
      ensures
        if Enabled(old(s), ev) && Foreign(ev, me, apart) && (leased ==> Leased(Apply(old(s), ev))) then
          s == Apply(old(s), ev) && trace == old(trace) + [ev]
        else s == old(s) && trace == old(trace)
    {
      if Enabled(s, ev) && Foreign(ev, me, apart) && (leased ==> Leased(Apply(s, ev))) {
        Reachable();
        StepDisturbsNothing(s, ev, me, hold, apart);
        hide *;
        Happen(ev);
      } else {
        HoldsStill(me, hold);
      }
    }

    /** The others do what they can, and what the assumptions allow. */
    method Others(me: ExecId, ghost hold: bool)
      requires Valid() && me in s.execs && (hold ==> leased && Holder(s, me))
      modifies this`s, this`trace, this`others
      ensures Valid() && old(trace) <= trace
      ensures Undisturbed(old(s), s, me, hold, apart)
    {
      HoldsStill(me, hold);
      if others == [] {
        return;
      }
      var burst := others[0];
      others := others[1..];
      hide Valid, Tied, LeaseInv, MadeBy, Shelf, LedgerOf, FilesOf;
      var i := 0;
      while i < |burst|
        invariant Valid() && old(trace) <= trace
        invariant Undisturbed(old(s), s, me, hold, apart)
      {
        ghost var before := s;
        TryForeign(burst[i], me, hold);
        UndisturbedTransitive(old(s), before, s, me, hold, apart);
        i := i + 1;
      }
    }

    /** The others run beside a producer, who alone sends or loses the messages in `mine`. */
    method OthersBeside(mine: set<Message>)
      requires Valid() && mine <= s.senders
      modifies this`s, this`trace, this`others
      ensures Valid() && old(trace) <= trace && mine <= s.senders
    {
      if others == [] {
        return;
      }
      var burst := others[0];
      others := others[1..];
      hide Valid;
      var i := 0;
      while i < |burst|
        invariant Valid() && old(trace) <= trace && mine <= s.senders
      {
        TryBeside(burst[i], mine);
        i := i + 1;
      }
    }

    method TryBeside(ev: Event, mine: set<Message>)
      requires Valid() && mine <= s.senders
      modifies this`s, this`trace
      ensures Valid() && old(trace) <= trace && mine <= s.senders
    {
      if Enabled(s, ev) && (ev.Send? || ev.Drop? ==> ev.m !in mine) && (leased ==> Leased(Apply(s, ev))) {
        SendersStay(s, ev);
        hide *;
        Happen(ev);
      }
    }

    /** Execution me takes one step. */
    method Act(me: ExecId, w: Work)
      requires Valid() && CanDo(s, me, w)
      modifies this`s, this`trace
      ensures Valid() && s == Do(old(s), me, w) && trace == old(trace) + [Does(me, w)]
    {
      Reachable();
      if leased {
        OwnStepKeepsLease(s, me, w);
      }
      hide Do, CanDo, Leased, LeaseInv, Sane, Paired, Valid;
      Happen(Does(me, w));
    }

    /** Time passes for me while the others run; nothing it sees changes. */
    method Pause(me: ExecId)
      requires Ready(me)
      modifies this`s, this`trace, this`others
      ensures Ready(me) && old(trace) <= trace && old(s.clock) <= s.clock
      ensures s.execs[me] == old(s.execs[me]) && Sees(me) == old(Sees(me))
      ensures leased ==>
        var t := old(s.execs[me]).msg.task;
        t in s.tasks && t in old(s.tasks) && s.tasks[t] == old(s.tasks[t])
    {
      hide ViewOf, MadeBy, Shelf, LedgerOf, FilesOf;
      Others(me, leased);
      UndisturbedView(old(s), s, me, leased, apart);
    }

    /** A step of me in its handler, after the others have run. */
    method Step(me: ExecId, w: Work)
      requires Ready(me) && CanDo(s, me, w) && me in Do(s, me, w).execs
      modifies this`s, this`trace
      ensures Valid() && trace == old(trace) + [Does(me, w)] && s.clock == old(s.clock)
      ensures s == Do(old(s), me, w) && me in s.execs
      ensures
        var v := old(Sees(me));
        Sees(me) ==
          if w.Record? && w.ok then v.Add(w.f, w.file, leased)
          else if w.Erase? && w.ok then v.Drop(w.f, w.name, leased)
          else if w.Upload? then v.Put(w.name, w.content, apart)
          else if w.Remove? then v.Take(w.name)
          else v
    {
      Reachable();
      OwnView(s, me, w, leased, apart);
      DoKeepsOtherExecs(s, me, w);
      hide Do, CanDo, LeaseInv, Leased, Sane, Paired, ViewOf;
      Act(me, w);
    }

    method NextReply() returns (r: Reply)
      modifies this`replies
      ensures r == ReplyAt(old(replies), 0) && replies == Rest(old(replies))
      ensures old(Valid()) ==> Valid() && (leased && calm ==> r.Fine?)
    {
      hide Legal, After, LeasedRun;
      r := Fine;
      if replies != [] {
        r := replies[0];
        replies := replies[1..];
      }
    }

    /** task_repo.get_by_id: the handler reads its task. */
    method Load(me: ExecId) returns (o: Outcome)
      requires Valid() && me in s.execs && s.execs[me].phase == Claimed
      modifies this`s, this`trace, this`others, this`replies
      ensures o == Ok <==> ReplyAt(old(replies), 0).Fine?
      ensures Valid() && old(trace) <= trace && me in s.execs && s.execs[me].msg == old(s.execs[me].msg)
      ensures Sees(me) == old(Sees(me)) && old(s.clock) <= s.clock
      ensures o == Ok ==> Ready(me) && RowSane(s.execs[me].base, s.clock) && s.execs[me].made == old(s.execs[me].made)
      ensures o == Ok ==> s.execs[me].msg.task in s.tasks && s.execs[me].base == s.tasks[s.execs[me].msg.task].row
      ensures o == Ok && leased ==>
        var t := s.execs[me].msg.task;
        && s.execs[me].base.status == Running
        && t in old(s.tasks) && s.execs[me].base == old(s.tasks[t].row)
      ensures o != Ok ==> s.execs[me] == old(s.execs[me])
    {
      hide ViewOf, MadeBy, Shelf, LedgerOf, FilesOf, RowOk, BaseFits;
      Others(me, leased);
      UndisturbedView(old(s), s, me, leased, apart);
      var reply := NextReply();
      if reply.Raises? {
        return Raised(reply.exn);
      }
      Reachable();
      assert leased ==> Tied(s, me);
      OwnView(s, me, Work.Load, leased, apart);
      Act(me, Work.Load);
      o := Ok;
    }

    /** task_repo.update and commit: the whole row is written, or the commit fails. */
    method Save(me: ExecId, row: Row) returns (o: Outcome)
      requires Ready(me) && Evolves(s.execs[me].base, row, s.clock)
      modifies this`s, this`trace, this`others, this`replies, this`log
      ensures o == Ok <==> ReplyAt(old(replies), 0).Fine?
      ensures Underway(me) && old(trace) <= trace && s.execs[me].msg == old(s.execs[me].msg)
      ensures Sees(me) == old(Sees(me)) && old(s.clock) <= s.clock
      ensures s.execs[me].base == row && s.execs[me].made == old(s.execs[me].made)
      ensures o == Ok ==>
        && log == old(log).(saves := old(log).saves + 1)
        && (row.status == Running ==> Ready(me))
        && s.execs[me].msg.task in s.tasks && s.tasks[s.execs[me].msg.task].row == row
      ensures o != Ok ==> log == old(log).(saveFailures := old(log).saveFailures + 1) && Ready(me)
      ensures o != Ok && leased ==>
        var t := old(s.execs[me]).msg.task;
        t in s.tasks && t in old(s.tasks) && s.tasks[t] == old(s.tasks[t])
    {
      hide ViewOf, LeaseInv, Paired, Legal, After, LeasedRun, Leased, RowSane;
      Pause(me);
      var reply := NextReply();
      Reachable();
      Step(me, Work.Save(row, reply.Fine?));
      if reply.Raises? {
        log := log.(saveFailures := log.saveFailures + 1);
        return Raised(reply.exn);
      }
      log := log.(saves := log.saves + 1);
      o := Ok;
    }

    /** get_file_names */
    method GetFileNames(me: ExecId) returns (r: FetchReply)
      requires Ready(me)
      modifies this`s, this`trace, this`others, this`fetches, this`log
      ensures Ready(me) && old(trace) <= trace && old(s.clock) <= s.clock
      ensures s.execs[me] == old(s.execs[me]) && Sees(me) == old(Sees(me))
      ensures r == FetchAt(old(fetches), 0) && fetches == Rest(old(fetches))
      ensures r.Names? ==>
        && log == old(log).(fetched := old(log).fetched + [r.names])
        && CountNames(fetches) + |r.names| == CountNames(old(fetches))
      ensures r.FetchRaises? ==> log == old(log).(escaped := old(log).escaped + [Escape(Fetching, r.exn, s.clock)])
    {
      Pause(me);
      r := Names([]);
      if fetches != [] {
        assert fetches[0] in fetches;
        r := fetches[0];
        fetches := fetches[1..];
      }
      match r
      case Names(names) => log := log.(fetched := log.fetched + [names]);
      case FetchRaises(exn) => log := log.(escaped := log.escaped + [Escape(Fetching, exn, s.clock)]);
    }

    /** download_files_stream: what the archive will yield is settled, nothing is read yet. */
    method Download(me: ExecId, batch: seq<Name>)
      requires Ready(me)
      modifies this`archives, this`current, this`log
      ensures Ready(me)
      ensures current == ArchiveAt(old(archives), 0) && archives == Rest(old(archives))
      ensures log == old(log).(openings := old(log).openings + [Opening(batch, current)])
    {
      current := Archive([], None);
      if archives != [] {
        current := archives[0];
        archives := archives[1..];
      }
      log := log.(openings := log.openings + [Opening(batch, current)]);
    }

    /** The next member of the open archive. */
    method NextMember(me: ExecId) returns (n: Next)
      requires Ready(me)
      modifies this`s, this`trace, this`others, this`current, this`log
      ensures Ready(me) && old(trace) <= trace && old(s.clock) <= s.clock
      ensures s.execs[me] == old(s.execs[me]) && Sees(me) == old(Sees(me))
      ensures
        match n
        case Member(x) =>
          && old(current).files != [] && x == old(current).files[0]
          && current == old(current).(files := old(current).files[1..])
        case End => old(current) == Archive([], None) == current
        case NextRaises(exn) => old(current) == Archive([], Some(exn)) == current
      ensures n.Member? ==> log == old(log).(yielded := old(log).yielded + [n.file])
      ensures n.End? ==> log == old(log)
      ensures n.NextRaises? ==> log == old(log).(escaped := old(log).escaped + [Escape(InBatch, n.exn, s.clock)])
    {
      Pause(me);
      if current.files != [] {
        n := Member(current.files[0]);
        current := current.(files := current.files[1..]);
        log := log.(yielded := log.yielded + [n.file]);
      } else if current.ending.Some? {
        n := NextRaises(current.ending.value);
        log := log.(escaped := log.escaped + [Escape(InBatch, n.exn, s.clock)]);
      } else {
        n := End;
      }
    }

    /** A call inside a batch either goes through or raises. */
    method Call() returns (reply: Reply)
      modifies this`replies, this`log
      ensures reply == ReplyAt(old(replies), 0) && replies == Rest(old(replies))
      ensures old(Valid()) ==> Valid()
      ensures reply.Fine? ==> log == old(log)
      ensures reply.Raises? ==> log == old(log).(escaped := old(log).escaped + [Escape(InBatch, reply.exn, s.clock)])
    {
      hide Legal, After, LeasedRun;
      reply := NextReply();
      if reply.Raises? {
        log := log.(escaped := log.escaped + [Escape(InBatch, reply.exn, s.clock)]);
      }
    }

    /** task_repo.downloaded_file_exists */
    method FileExists(me: ExecId, name: Name) returns (o: Outcome, found: bool)
      requires Ready(me)
      modifies this`s, this`trace, this`others, this`replies, this`log
      ensures Ready(me) && old(trace) <= trace && old(s.clock) <= s.clock
      ensures s.execs[me] == old(s.execs[me]) && Sees(me) == old(Sees(me))
      ensures o == Ok <==> ReplyAt(old(replies), 0).Fine?
      ensures o == Ok ==>
        && log == old(log) && (found <==> Entry(s.execs[me].msg.task, name) in s.ledger)
        && (leased ==> (found <==> name in Sees(me).ledger))
      ensures o.Raised? ==> log == old(log).(escaped := old(log).escaped + [Escape(InBatch, o.exn, s.clock)])
    {
      Pause(me);
      var reply := Call();
      if reply.Raises? {
        return Raised(reply.exn), false;
      }
      var t := s.execs[me].msg.task;
      OfTaskAt(s.ledger, t, name);
      hide OfTask, ByTask, Among, Shelf;
      return Ok, Entry(t, name) in s.ledger;
    }

    /** storage.upload_stream */
    method Upload(me: ExecId, name: Name, content: Content) returns (o: Outcome)
      requires Ready(me)
      modifies this`s, this`trace, this`others, this`replies, this`log
      ensures o == Ok <==> ReplyAt(old(replies), 0).Fine?
      ensures Ready(me) && old(trace) <= trace && old(s.clock) <= s.clock && s.execs[me] == old(s.execs[me])
      ensures o == Ok ==>
        log == old(log).(uploads := old(log).uploads + [name]) && Sees(me) == old(Sees(me)).Put(name, content, apart)
      ensures o.Raised? ==>
        && log == old(log).(uploads := old(log).uploads + [name],
                            escaped := old(log).escaped + [Escape(InBatch, o.exn, s.clock)])
        && (Sees(me) == old(Sees(me)) || Sees(me) == old(Sees(me)).Put(name, content, apart))
    {
      Pause(me);
      var reply := Call();
      log := log.(uploads := log.uploads + [name]);
      if reply.Fine? || reply.landed {
        hide ViewOf;
        Step(me, Work.Upload(name, content));
      }
      o := if reply.Fine? then Ok else Raised(reply.exn);
    }

    /** A fresh UUID. */
    method NewFileId(used: set<FileId>) returns (f: FileId)
      ensures f !in used
    {
      var rest := used;
      f := FileId(0);
      while rest != {}
        invariant rest <= used
        invariant forall g :: g in used && g !in rest ==> g.number < f.number
      {
        var g :| g in rest;
        f := FileId(Max(f.number, g.number + 1));
        rest := rest - {g};
      }
    }

    /** file_repo.add, record_downloaded_file and commit: both rows or neither. */
    method Record(me: ExecId, name: Name, size: nat, hash: Hash) returns (o: Outcome, f: FileId)
      requires Ready(me)
      modifies this`s, this`trace, this`others, this`replies, this`log
      ensures Ready(me) && old(trace) <= trace && old(s.clock) <= s.clock
      ensures s.execs[me].msg == old(s.execs[me].msg) && s.execs[me].base == old(s.execs[me].base)
      ensures o == Ok ==>
        var file := FileRow(name, size, hash, s.execs[me].msg.task);
        && trace != [] && trace[|trace| - 1] == Does(me, Work.Record(f, file, true))
        && log == old(log) && f !in old(Sees(me)).made
        && (leased ==> f !in old(Sees(me)).files && name !in old(Sees(me)).ledger)
        && Sees(me) == old(Sees(me)).Add(f, file, leased)
      ensures o == Ok ==> ReplyAt(old(replies), 0).Fine?
      ensures o.Raised? ==>
        && (Entry(s.execs[me].msg.task, name) in s.ledger || ReplyAt(old(replies), 0).Raises?)
        && log == old(log).(escaped := old(log).escaped + [Escape(InBatch, o.exn, s.clock)],
                            clashes := old(log).clashes + if leased && name in old(Sees(me)).ledger then 1 else 0)
        && Sees(me) == old(Sees(me)) && s.execs[me] == old(s.execs[me])
    {
      hide ViewOf, Legal, After, LeasedRun, CanDo, Do;
      Pause(me);
      var t := s.execs[me].msg.task;
      f := NewFileId(s.files.Keys);
      FreshIsUnseen(s, me, f, name, leased, apart);
      if Entry(t, name) in s.ledger {
        var exn := Failure("IntegrityError");
        log := log.(escaped := log.escaped + [Escape(InBatch, exn, s.clock)],
                    clashes := log.clashes + if leased then 1 else 0);
        return Raised(exn), f;
      }
      var reply := Call();
      if reply.Raises? {
        return Raised(reply.exn), f;
      }
      CanRecord(s, me, f, FileRow(name, size, hash, t));
      Step(me, Work.Record(f, FileRow(name, size, hash, t), true));
      o := Ok;
    }

    /** storage.delete */
    method Remove(me: ExecId, name: Name) returns (o: Outcome)
      requires Ready(me)
      modifies this`s, this`trace, this`others, this`replies, this`log
      ensures Ready(me) && old(trace) <= trace && old(s.clock) <= s.clock && s.execs[me] == old(s.execs[me])
      ensures (o == Ok <==> ReplyAt(old(replies), 0).Fine?) && replies == Rest(old(replies))
      ensures o == Ok ==> log == old(log) && Sees(me) == old(Sees(me)).Take(name)
      ensures o != Ok ==>
        && log == old(log).(removeFailures := old(log).removeFailures + 1)
        && (Sees(me) == old(Sees(me)) || Sees(me) == old(Sees(me)).Take(name))
    {
      Pause(me);
      var reply := NextReply();
      if reply.Raises? {
        log := log.(removeFailures := log.removeFailures + 1);
      }
      o := if reply.Fine? then Ok else Raised(reply.exn);
      if reply.Fine? || reply.landed {
        hide ViewOf;
        Step(me, Work.Remove(name));
      }
    }

    /** file_repo.delete, delete_downloaded_file and commit: both rows or neither. */
    method Erase(me: ExecId, f: FileId, name: Name) returns (o: Outcome)
      requires Ready(me) && f in Sees(me).made && Sees(me).made[f].filename == name
      modifies this`s, this`trace, this`others, this`replies, this`log
      ensures Ready(me) && old(trace) <= trace && old(s.clock) <= s.clock
      ensures s.execs[me].msg == old(s.execs[me].msg) && s.execs[me].base == old(s.execs[me].base)
      ensures (o == Ok <==> ReplyAt(old(replies), 0).Fine?) && replies == Rest(old(replies))
      ensures o == Ok ==>
        && trace != [] && trace[|trace| - 1] == Does(me, Work.Erase(f, name, true))
        && log == old(log) && Sees(me) == old(Sees(me)).Drop(f, name, leased)
      ensures o != Ok ==>
        log == old(log).(eraseFailures := old(log).eraseFailures + 1) && Sees(me) == old(Sees(me))
    {
      hide ViewOf, Legal, After, LeasedRun, CanDo, Do;
      Pause(me);
      var reply := NextReply();
      if reply.Raises? {
        log := log.(eraseFailures := log.eraseFailures + 1);
        return Raised(reply.exn);
      }
      CanErase(s, me, f, name, leased, apart);
      Step(me, Work.Erase(f, name, true));
      o := Ok;
    }

    /** mark_downloaded: the API marks the batch and the call returns; or it raises, the batch marked or not. */
    method MarkDownloaded(me: ExecId, batch: seq<Name>) returns (o: Outcome)
      requires Ready(me)
      modifies this`s, this`trace, this`others, this`replies, this`log
      ensures Ready(me) && old(trace) <= trace && old(s.clock) <= s.clock
      ensures s.execs[me] == old(s.execs[me]) && Sees(me) == old(Sees(me))
      ensures o == Ok <==> ReplyAt(old(replies), 0).Fine?
      ensures o == Ok ==>
        log == old(log).(confirmed := old(log).confirmed + [batch],
                         kept := |old(log).yielded|, marked := |old(log).yielded|)
      ensures o.Raised? ==>
        && log == old(log).(escaped := old(log).escaped + [Escape(InBatch, o.exn, s.clock)], marked := log.marked)
        && (log.marked == old(log).marked || log.marked == |old(log).yielded|)
    {
      Pause(me);
      var reply := Call();
      if reply.Fine? || reply.landed {
        log := log.(marked := |log.yielded|);
      }
      if reply.Raises? {
        return Raised(reply.exn);
      }
      log := log.(confirmed := log.confirmed + [batch], kept := |log.yielded|);
      o := Ok;
    }
  }
}
