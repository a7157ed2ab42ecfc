/** What the processes run: the API's start handler, the worker's task and the watchdog's two sweeps. */
module Entrypoints {
  import opened Basics
  import opened Tasks
  import opened Protocol
  import opened Pairing
  import opened Leases
  import opened Drain
  import opened Interference
  import opened Worlds
  import opened Batches
  import opened Runs
  import opened Handlers

  /** The history went on from `before` to `after`, and `ev` is among what happened since. */
  ghost predicate Since(before: seq<Event>, after: seq<Event>, ev: Event) {
    before <= after && ev in after[|before|..]
  }

  lemma SinceNow(before: seq<Event>, mid: seq<Event>, after: seq<Event>, ev: Event)
    requires before <= mid && mid + [ev] <= after
    ensures Since(before, after, ev)
  {
    assert after[|mid|] == ev && |before| <= |mid|;
    assert after[|before|..][|mid| - |before|] == ev;
  }

  lemma SinceWider(before: seq<Event>, mid: seq<Event>, end: seq<Event>, after: seq<Event>, ev: Event)
    requires before <= mid && Since(mid, end, ev) && end <= after
    ensures Since(before, after, ev)
  {
    var k :| 0 <= k < |end| - |mid| && end[|mid|..][k] == ev;
    assert after[|before|..][|mid| - |before| + k] == ev;
  }

  /** A step that leaves the clock and the executions alone cannot break the lease assumption. */
  lemma SameClockKeepsLease(s: State, ev: Event)
    requires Enabled(s, ev) && Leased(s) && (ev.Start? || ev.Send? || ev.Drop? || ev.ReclaimStuck? || ev.ReclaimBlocked?)
    ensures Leased(Apply(s, ev))
  {
  }

  /** A producer's send_task: the message reaches the broker, or the call raises and it is lost. */
  method SendTask(world: World, m: Message, mine: set<Message>) returns (o: Outcome)
    requires world.Valid() && mine <= world.s.senders && m in mine
    modifies world
    ensures world.Valid() && old(world.trace) <= world.trace && mine - {m} <= world.s.senders
    ensures Since(old(world.trace), world.trace, if o == Ok then Send(m) else Drop(m))
    ensures (o == Ok <==> ReplyAt(old(world.replies), 0).Fine?) && world.replies == Rest(old(world.replies))
  {
    world.OthersBeside(mine);
    ghost var before := world.trace;
    var reply := world.NextReply();
    var ev := if reply.Fine? then Send(m) else Drop(m);
    o := if reply.Fine? then Ok else Raised(reply.exn);
    world.Reachable();
    SendersStay(world.s, ev);
    hide Legal, After, LeasedRun, LeaseInv, Sane, Paired;
    world.Happen(ev);
    SinceNow(old(world.trace), before, world.trace, ev);
  }

  /**
   * StartDownloadHandler.execute: a PENDING row is committed, then its message is sent. If the commit raises there
   * is no row; if the send raises there is one, and no message for it.
   */
  method StartDownload(world: World, t: TaskId) returns (o: Outcome, committed: bool)
    requires world.Valid() && t !in world.s.tasks
    modifies world
    ensures world.Valid() && old(world.trace) <= world.trace
    ensures committed <==> ReplyAt(old(world.replies), 0).Fine?
    ensures o == Ok <==> committed && ReplyAt(old(world.replies), 1).Fine?
    ensures !committed ==> o.Raised? && world.trace == old(world.trace)
    ensures committed ==>
      var m := Message(old(world.s.nextMsg), t);
      && Since(old(world.trace), world.trace, Start(t))
      && Since(old(world.trace), world.trace, if o == Ok then Send(m) else Drop(m))
  {
    committed := false;
    var reply := world.NextReply();
    if reply.Raises? {
      return Raised(reply.exn), false;
    }
    committed := true;
    world.Reachable();
    var m := Message(world.s.nextMsg, t);
    hide Legal, After, LeasedRun, LeaseInv, Sane, Paired;
    ghost var before := world.trace;
    world.Happen(Start(t));
    ghost var mid := world.trace;
    o := SendTask(world, m, {m});
    SinceNow(before, before, world.trace, Start(t));
    SinceWider(before, mid, world.trace, world.trace, if o == Ok then Send(m) else Drop(m));
  }

  /** What LIMIT picks of the eligible rows: any SWEEP_LIMIT of them, or all if there are fewer. */
  method PickRows(eligible: set<TaskId>) returns (picked: set<TaskId>)
    ensures picked <= eligible && |picked| == Min(SWEEP_LIMIT, |eligible|)
  {
    picked := {};
    while |picked| < SWEEP_LIMIT && picked != eligible
      invariant picked <= eligible && |picked| <= Min(SWEEP_LIMIT, |eligible|)
      decreases |eligible| - |picked|
    {
      SubsetSize(picked, eligible);
      var t :| t in eligible - picked;
      SubsetSize(picked + {t}, eligible);
      picked := picked + {t};
    }
    SubsetSize(picked, eligible);
  }

  /** The messages a sweep owes: one for each row it returned. */
  function Owed(picked: set<TaskId>, id: int): set<Message> {
    set t | t in picked :: Message(id, t)
  }

  /** The UPDATE and its commit. */
  method SweepRows(world: World, k: Sweep) returns (picked: set<TaskId>, id: int)
    requires world.Valid()
    modifies world`s, world`trace
    ensures world.Valid() && Owed(picked, id) <= world.s.senders
    ensures world.trace == old(world.trace) + [SweepEvent(k, picked)]
    ensures id == old(world.s.nextMsg) && Enabled(old(world.s), SweepEvent(k, picked))
  {
    id := world.s.nextMsg;
    picked := PickRows(Eligible(world.s, k));
    var ev := SweepEvent(k, picked);
    if world.leased {
      world.Reachable();
      SameClockKeepsLease(world.s, ev);
    }
    SweepMovesExactly(world.s, k, picked);
    hide Legal, After, LeasedRun, LeaseInv, Sane, Paired, Leased, Stuck, Releasable, AfterSweep;
    world.Happen(ev);
  }

  /** The order in which the UPDATE returns its rows. */
  method InSomeOrder(picked: set<TaskId>) returns (order: seq<TaskId>)
    ensures Orders(order, picked)
  {
    order := [];
    var rest := picked;
    while rest != {}
      invariant Orders(order, picked - rest) && rest <= picked
    {
      var t :| t in rest;
      OrdersSnoc(order, picked - rest, t);
      rest := rest - {t};
      order := order + [t];
      assert picked - rest == picked - (rest + {t}) + {t};
    }
    assert picked - rest == picked;
  }

  /** The rows of `picked`, each once, in some order. */
  ghost predicate Orders(order: seq<TaskId>, picked: set<TaskId>) {
    (forall t :: t in order <==> t in picked)
    && (forall i, j :: 0 <= i < j < |order| ==> order[i] != order[j])
  }

  lemma OrdersSnoc(order: seq<TaskId>, picked: set<TaskId>, t: TaskId)
    requires Orders(order, picked) && t !in picked
    ensures Orders(order + [t], picked + {t})
  {
  }

  /**
   * reclaim_stuck_tasks and reclaim_blocked_tasks: one sweep, then a message for each row it returned, in the
   * order in which they were returned. If the UPDATE raises nothing has happened. The first `sent` sends succeed;
   * if one raises it and all that come after it are never sent, and their rows are PENDING with no message of this
   * sweep to wake them.
   */
  method Reclaim(world: World, k: Sweep)
    returns (o: Outcome, swept: bool, picked: set<TaskId>, id: int, order: seq<TaskId>, sent: nat)
    requires world.Valid()
    modifies world
    ensures world.Valid() && old(world.trace) <= world.trace
    ensures !swept ==> o.Raised? && picked == {}
    ensures swept ==> Since(old(world.trace), world.trace, SweepEvent(k, picked))
    ensures Orders(order, picked) && SentUpTo(old(world.trace), world.trace, order, id, sent)
    ensures swept ==> (o == Ok <==> sent == |order|)
    ensures swept <==> ReplyAt(old(world.replies), 0).Fine?
    ensures swept ==> SentAsScripted(Rest(old(world.replies)), |order|, sent)
  {
    ghost var before := world.trace;
    o, swept, picked, id, order, sent := Ok, false, {}, 0, [], 0;
    world.OthersBeside({});
    var reply := world.NextReply();
    if reply.Raises? {
      o := Raised(reply.exn);
      return;
    }
    ghost var mid := world.trace;
    picked, id := SweepRows(world, k);
    swept := true;
    SinceNow(before, mid, world.trace, SweepEvent(k, picked));
    ghost var end := world.trace;
    order := InSomeOrder(picked);
    o, sent := Requeue(world, picked, order, id);
    SinceWider(before, before, end, world.trace, SweepEvent(k, picked));
    SentWider(before, end, world.trace, order, id, sent);
  }

  /** Since `before` the messages of the first `sent` rows have been sent, and the others lost. */
  ghost predicate SentUpTo(before: seq<Event>, after: seq<Event>, order: seq<TaskId>, id: int, sent: nat) {
    && sent <= |order|
    && (forall i :: 0 <= i < |order| ==> Since(before, after, Fate(order[i], id, i < sent)))
  }

  function Fate(t: TaskId, id: int, sent: bool): Event {
    if sent then Send(Message(id, t)) else Drop(Message(id, t))
  }

  lemma SentWider(before: seq<Event>, mid: seq<Event>, after: seq<Event>, order: seq<TaskId>, id: int, sent: nat)
    requires before <= mid && SentUpTo(mid, after, order, id, sent)
    ensures SentUpTo(before, after, order, id, sent)
  {
    forall i | 0 <= i < |order|
      ensures Since(before, after, Fate(order[i], id, i < sent))
    {
      SinceWider(before, mid, after, after, Fate(order[i], id, i < sent));
    }
  }

  /** The first n messages have met their fate. */
  ghost predicate MetFate(before: seq<Event>, after: seq<Event>, order: seq<TaskId>, id: int, n: nat, sent: nat) {
    n <= |order| && SentUpTo(before, after, order[..n], id, sent)
  }

  lemma OneMore(before: seq<Event>, mid: seq<Event>, after: seq<Event>, order: seq<TaskId>, id: int, n: nat, sent: nat,
                sent': nat)
    requires MetFate(before, mid, order, id, n, sent) && n < |order| && before <= mid <= after
    requires Since(mid, after, Fate(order[n], id, n < sent'))
    requires sent' == sent || (sent == n && sent' == n + 1)
    ensures MetFate(before, after, order, id, n + 1, sent')
  {
    var done := order[..n + 1];
    forall i | 0 <= i < |done|
      ensures Since(before, after, Fate(done[i], id, i < sent'))
    {
      if i < n {
        assert order[..n][i] == order[i];
        SinceWider(before, before, mid, after, Fate(order[i], id, i < sent));
      } else {
        SinceWider(before, mid, after, after, Fate(order[n], id, n < sent'));
      }
    }
  }

  /** The messages go out one by one; after the first send that raises the remaining ones die with the sweep. */
  method Requeue(world: World, ghost picked: set<TaskId>, order: seq<TaskId>, id: int) returns (o: Outcome, sent: nat)
    requires world.Valid() && Orders(order, picked) && Owed(picked, id) <= world.s.senders
    modifies world
    ensures world.Valid() && old(world.trace) <= world.trace
    ensures SentUpTo(old(world.trace), world.trace, order, id, sent)
    ensures o == Ok <==> sent == |order|
    ensures SentAsScripted(old(world.replies), |order|, sent)
  {
    ghost var before, script := world.trace, world.replies;
    var i := 0;
    o, sent := Ok, 0;
    OwedAll(picked, order, id);
    while i < |order|
      invariant i <= |order| && world.Valid() && before <= world.trace
      invariant OwedBy(order[i..], id) <= world.s.senders
      invariant if o == Ok then sent == i else sent < i && ReplyAt(script, sent).Raises?
      invariant forall j: nat :: j < sent ==> ReplyAt(script, j).Fine?
      invariant o == Ok ==> world.replies == Later(script, i)
      invariant MetFate(before, world.trace, order, id, i, sent)
    {
      hide Legal, After, LeasedRun, MetFate, ReplyAt, Later, Rest;
      ghost var mid := world.trace;
      var mine := OwedBy(order[i..], id);
      OwedNext(picked, order, i, id);
      ghost var was := sent;
      LaterNext(script, i);
      if o == Ok {
        o := SendTask(world, Message(id, order[i]), mine);
        sent := if o == Ok then i + 1 else i;
      } else {
        LoseMessage(world, Message(id, order[i]), mine);
      }
      OneMore(before, mid, world.trace, order, id, i, was, sent);
      i := i + 1;
    }
    assert order[..i] == order;
  }

  /** What is left of a script after n calls. */
  ghost function Later(script: seq<Reply>, n: nat): seq<Reply> {
    if n <= |script| then script[n..] else []
  }

  lemma LaterNext(script: seq<Reply>, n: nat)
    ensures Rest(Later(script, n)) == Later(script, n + 1) && ReplyAt(Later(script, n), 0) == ReplyAt(script, n)
  {
  }

  /** The first `sent` of these calls go through, and the next of them, if there is one, raises. */
  ghost predicate SentAsScripted(script: seq<Reply>, calls: nat, sent: nat) {
    && sent <= calls
    && (forall j: nat :: j < sent ==> ReplyAt(script, j).Fine?)
    && (sent < calls ==> ReplyAt(script, sent).Raises?)
  }

  function OwedBy(order: seq<TaskId>, id: int): set<Message> {
    set t | t in order :: Message(id, t)
  }

  lemma OwedAll(picked: set<TaskId>, order: seq<TaskId>, id: int)
    requires Orders(order, picked)
    ensures order[0..] == order && OwedBy(order, id) == Owed(picked, id)
  {
  }

  lemma OwedNext(picked: set<TaskId>, order: seq<TaskId>, i: nat, id: int)
    requires Orders(order, picked) && i < |order|
    ensures Message(id, order[i]) in OwedBy(order[i..], id)
    ensures OwedBy(order[i + 1..], id) == OwedBy(order[i..], id) - {Message(id, order[i])}
  {
    assert order[i..] == [order[i]] + order[i + 1..];
  }

  /** A message whose sender has failed before its turn. */
  method LoseMessage(world: World, m: Message, mine: set<Message>)
    requires world.Valid() && mine <= world.s.senders && m in mine
    modifies world`s, world`trace
    ensures world.Valid() && old(world.trace) <= world.trace && mine - {m} <= world.s.senders
    ensures Since(old(world.trace), world.trace, Drop(m))
  {
    if world.leased {
      world.Reachable();
      SameClockKeepsLease(world.s, Drop(m));
    }
    SendersStay(world.s, Drop(m));
    hide Legal, After, LeasedRun, LeaseInv, Sane, Paired, Leased;
    ghost var before := world.trace;
    world.Happen(Drop(m));
    SinceNow(before, before, world.trace, Drop(m));
  }

  /** What task t has listed, and the objects of the given names. */
  ghost function TaskStock(s: State, t: TaskId, apart: set<Name>): Stock {
    Stock(Listed(LedgerOf(s, t)), Shelf(s, apart))
  }

  /** The task's files rows are exactly one for each name listed, with the hash and size listed. */
  lemma FilesMatchStock(s: State, t: TaskId, apart: set<Name>)
    requires Paired(s)
    ensures
      var listed := TaskStock(s, t, apart).listed;
      && (forall f :: f in FilesOf(s, t) ==>
            var n := FilesOf(s, t)[f].filename;
            n in listed && FilesOf(s, t)[f] == FileRow(n, listed[n].size, listed[n].hash, t)
            && LedgerOf(s, t)[n].partner == f)
      && (forall n :: n in listed ==>
            LedgerOf(s, t)[n].partner in FilesOf(s, t) && FilesOf(s, t)[LedgerOf(s, t)[n].partner].filename == n)
  {
    forall f | f in FilesOf(s, t)
      ensures
        var n := s.files[f].filename;
        n in LedgerOf(s, t) && LedgerOf(s, t)[n] == LedgerRow(s.files[f].hash, f, s.files[f].size)
    {
      assert FilePaired(s, f);
      OfTaskAt(s.ledger, t, s.files[f].filename);
    }
    forall n | n in LedgerOf(s, t)
      ensures LedgerOf(s, t)[n].partner in FilesOf(s, t) && s.files[LedgerOf(s, t)[n].partner].filename == n
    {
      OfTaskAt(s.ledger, t, n);
      assert EntryPaired(s, Entry(t, n));
    }
  }

  /** `found` is the state that all but the last of these events lead to. */
  ghost predicate FoundBefore(found: State, evs: seq<Event>, last: Event) {
    evs != [] && evs[|evs| - 1] == last
    && Legal(EMPTY, evs[..|evs| - 1]) && After(EMPTY, evs[..|evs| - 1]) == found
  }

  /**
   * The guarded UPDATE of one delivery. It wins exactly if it finds the row PENDING; if not, or if it raises, only
   * the execution's own record goes. `found` is the state it was tried in.
   */
  method TryClaim(world: World, me: ExecId) returns (o: Outcome, won: bool, ghost found: State)
    requires world.Valid() && me in world.s.execs && world.s.execs[me].phase == Waiting
    modifies world
    ensures world.Valid() && old(world.trace) <= world.trace && old(world.s.clock) <= found.clock == world.s.clock
    ensures world.log == old(world.log)
    ensures (o == Ok <==> ReplyAt(old(world.replies), 0).Fine?) && world.replies == Rest(old(world.replies))
    ensures old(world.trace) < world.trace
    ensures FoundBefore(found, world.trace, Does(me, if o == Ok then Claim else ClaimRaises))
    ensures me in found.execs && found.execs[me] == old(world.s.execs[me])
    ensures
      var t := old(world.s.execs[me]).msg.task;
      won <==> o == Ok && t in found.tasks && found.tasks[t].row.status == Pending
    ensures won ==>
      && world.s == Do(found, me, Claim) && me in world.s.execs && world.s.execs[me].phase == Claimed
      && world.s.execs[me].msg == found.execs[me].msg
    ensures !won ==> world.s == found.(execs := found.execs - {me})
  {
    hide ViewOf, MadeBy, Shelf, LedgerOf, FilesOf, LeaseInv, Sane, Paired;
    world.Others(me, false);
    found := world.s;
    ghost var mid := world.trace;
    var reply := world.NextReply();
    var w := if reply.Fine? then Claim else ClaimRaises;
    o := if reply.Fine? then Ok else Raised(reply.exn);
    world.Act(me, w);
    won := me in world.s.execs;
    assert world.trace[..|world.trace| - 1] == mid;
  }

  /** How an attempt without failed commits of the row, begun in state `at` with log `was`, closes its task. */
  ghost predicate Closed(s: State, at: State, t: TaskId, cut: seq<seq<Name>>, now: Log, was: Log,
                         digest: Content -> Hash, apart: set<Name>)
  {
    && t in at.tasks && t in s.tasks
    && Verdict(s.tasks[t].row, at.tasks[t].row, now, was, at.clock, s.clock)
    && (s.tasks[t].row.status == Success ==>
          && Completed(cut, now, was)
          && TaskStock(s, t, apart) == Absorb(TaskStock(at, t, apart), Taken(now, was), digest, apart)
          && (forall i :: 0 <= i < |Taken(now, was)| ==> Entry(t, Taken(now, was)[i].filename) in s.ledger))
  }

  /** What an attempt leaves: in any case the stock of its confirmed batches; and a closed task. */
  ghost predicate Attempted(s: State, at: State, t: TaskId, cut: seq<seq<Name>>, now: Log, was: Log,
                            digest: Content -> Hash, apart: set<Name>)
  {
    && InOrder(cut, now, was)
    && Left(TaskStock(s, t, apart), TaskStock(at, t, apart), now, was, digest, apart)
    && (now.saveFailures == was.saveFailures ==> Closed(s, at, t, cut, now, was, digest, apart))
  }

  lemma AttemptCloses(s: State, at: State, e: ExecId, t: TaskId, cut: seq<seq<Name>>, now: Log, was: Log,
                      digest: Content -> Hash, apart: set<Name>)
    requires e in s.execs && e in at.execs && s.execs[e].msg.task == t == at.execs[e].msg.task
    requires t in at.tasks && t in s.tasks
    requires Verdict(s.tasks[t].row, at.tasks[t].row, now, was, at.clock, s.clock)
    requires s.tasks[t].row.status == Success ==>
      && Completed(cut, now, was)
      && StockOf(ViewOf(s, e, true, apart)) ==
           Absorb(StockOf(ViewOf(at, e, true, apart)), Taken(now, was), digest, apart)
    ensures Closed(s, at, t, cut, now, was, digest, apart)
  {
    if s.tasks[t].row.status == Success {
      var st, xs := TaskStock(at, t, apart), Taken(now, was);
      StockSeen(s, e, apart);
      StockSeen(at, e, apart);
      hide Verdict, ViewOf, StockOf, Absorb, Shelf, OfTask;
      forall i | 0 <= i < |xs|
        ensures Entry(t, xs[i].filename) in s.ledger
      {
        FirstIsThere(xs, i);
        AbsorbMeans(st, xs, digest, apart, xs[i].filename);
        OfTaskAt(s.ledger, t, xs[i].filename);
      }
    }
  }

  lemma StockSeen(s: State, e: ExecId, apart: set<Name>)
    requires e in s.execs
    ensures TaskStock(s, s.execs[e].msg.task, apart) == StockOf(ViewOf(s, e, true, apart))
  {
  }

  lemma ExitKeepsAttempted(s: State, e: ExecId, at: State, t: TaskId, cut: seq<seq<Name>>, now: Log, was: Log,
                           digest: Content -> Hash, apart: set<Name>)
    requires CanDo(s, e, Exit) && Attempted(s, at, t, cut, now, was, digest, apart)
    ensures Attempted(Do(s, e, Exit), at, t, cut, now, was, digest, apart)
  {
    hide InOrder, Left, Verdict, Completed, Absorb;
  }

  /** The clients are opened and the handler runs. */
  method OpenAndHandle(world: World, me: ExecId, digest: Content -> Hash)
    returns (o: Outcome, ghost loaded: bool, ghost cut: seq<seq<Name>>)
    requires world.Valid() && me in world.s.execs && world.s.execs[me].phase == Claimed
    modifies world
    ensures old(world.trace) <= world.trace && world.Underway(me) && old(world.s.clock) <= world.s.clock
    ensures world.s.execs[me].msg == old(world.s.execs[me]).msg
    ensures loaded <==> ReplyAt(old(world.replies), 0).Fine? && ReplyAt(old(world.replies), 1).Fine?
    ensures !loaded ==> o.Raised? && world.log == old(world.log)
    ensures loaded ==> InOrder(cut, world.log, old(world.log))
    ensures world.leased && world.calm ==>
      var t := old(world.s.execs[me]).msg.task;
      && loaded && world.log.saveFailures == old(world.log).saveFailures
      && t in world.s.tasks && world.s.tasks[t].row.status == Success
    ensures loaded && world.leased ==>
      Attempted(world.s, old(world.s), old(world.s.execs[me]).msg.task, cut, world.log, old(world.log), digest, world.apart)
    ensures loaded && world.leased && world.log.saveFailures == old(world.log).saveFailures ==> o == Ok
  {
    hide InOrder, Verdict, Absorb, Legal, After, LeasedRun, Closed, Left, ViewOf, StockOf, Peaceful;
    ghost var at, log0, t := world.s, world.log, world.s.execs[me].msg.task;
    loaded, cut := false, [];
    if world.leased && world.calm {
      world.CalmSoFar();
    }
    var reply := world.NextReply();   // opening the API client and the object store
    if reply.Raises? {
      o := Raised(reply.exn);
    } else {
      var handler := new ProcessFilesHandler(world, me, digest);
      o, loaded, cut := handler.Execute();
    }
    if loaded && world.leased {
      StockSeen(world.s, me, world.apart);
      StockSeen(at, me, world.apart);
      if world.log.saveFailures == log0.saveFailures {
        AttemptCloses(world.s, at, me, t, cut, world.log, log0, digest, world.apart);
      }
    }
  }

  /** The rest of process_files_task once the claim is committed: the handler, then the acknowledgement. */
  method RunClaimed(world: World, me: ExecId, digest: Content -> Hash)
    returns (o: Outcome, ghost loaded: bool, ghost cut: seq<seq<Name>>)
    requires world.Valid() && me in world.s.execs && world.s.execs[me].phase == Claimed
    modifies world
    ensures world.Valid() && old(world.trace) <= world.trace && me !in world.s.execs
    ensures old(world.s.clock) <= world.s.clock
    ensures loaded <==> ReplyAt(old(world.replies), 0).Fine? && ReplyAt(old(world.replies), 1).Fine?
    ensures !loaded ==> o.Raised? && world.log == old(world.log)
    ensures loaded ==> InOrder(cut, world.log, old(world.log))
    ensures world.leased && world.calm ==>
      var t := old(world.s.execs[me]).msg.task;
      && loaded && world.log.saveFailures == old(world.log).saveFailures
      && t in world.s.tasks && world.s.tasks[t].row.status == Success
    ensures loaded && world.leased ==>
      Attempted(world.s, old(world.s), old(world.s.execs[me]).msg.task, cut, world.log, old(world.log), digest, world.apart)
    ensures loaded && world.leased && world.log.saveFailures == old(world.log).saveFailures ==> o == Ok
  {
    hide InOrder, Attempted, Legal, After, LeasedRun, Peaceful;
    ghost var at, log0, t := world.s, world.log, world.s.execs[me].msg.task;
    o, loaded, cut := OpenAndHandle(world, me, digest);
    ghost var s := world.s;
    world.Act(me, Exit);
    if loaded && world.leased {
      ExitKeepsAttempted(s, me, at, t, cut, world.log, log0, digest, world.apart);
    }
  }

  /**
   * process_files_task. Whoever loses the claim touches nothing; the winner found the row PENDING. Its handler
   * leaves the stock of its confirmed batches and closes the row as the Verdict says; after SUCCESS the ledger
   * lists whatever was extracted. `found` is the state the claim was tried in.
   */
  method ProcessFilesTask(world: World, me: ExecId, digest: Content -> Hash)
    returns (o: Outcome, won: bool, ghost loaded: bool, ghost found: State, ghost cut: seq<seq<Name>>)
    requires world.Valid() && me in world.s.execs && world.s.execs[me].phase == Waiting
    modifies world
    ensures world.Valid() && old(world.trace) <= world.trace && me !in world.s.execs
    ensures Visited(found, world.trace)
    ensures
      var x := old(world.s.execs[me]);
      && me in found.execs && found.execs[me] == x
      && (won ==> x.msg.task in found.tasks && found.tasks[x.msg.task].row.status == Pending)
      && (!won ==> !loaded && world.log == old(world.log) && world.s == found.(execs := found.execs - {me}))
      && (!won && o == Ok ==> x.msg.task !in found.tasks || found.tasks[x.msg.task].row.status != Pending)
      && (loaded && world.leased ==>
            Attempted(world.s, Do(found, me, Claim), x.msg.task, cut, world.log, old(world.log), digest, world.apart))
      && (loaded && world.leased && world.log.saveFailures == old(world.log).saveFailures ==> o == Ok)
    ensures
      var t, script := old(world.s.execs[me]).msg.task, old(world.replies);
      && (won <==> ReplyAt(script, 0).Fine? && t in found.tasks && found.tasks[t].row.status == Pending)
      && (loaded <==> won && ReplyAt(script, 1).Fine? && ReplyAt(script, 2).Fine?)
      && (loaded ==> InOrder(cut, world.log, old(world.log)))
    ensures world.leased && world.calm ==>
      var t := old(world.s.execs[me]).msg.task;
      t in found.tasks && found.tasks[t].row.status == Pending ==>
        won && loaded && o == Ok && t in world.s.tasks && world.s.tasks[t].row.status == Success
  {
    hide InOrder, Attempted, Legal, After, LeasedRun, Do;
    loaded, cut := false, [];
    if world.leased && world.calm {
      world.CalmSoFar();
    }
    o, won, found := TryClaim(world, me);
    ghost var evs, last := world.trace, Does(me, if o == Ok then Claim else ClaimRaises);
    if won {
      o, loaded, cut := RunClaimed(world, me, digest);
    }
    FoundIsVisited(found, evs, last, world.trace);
  }

  /** The history has passed through this state. */
  ghost predicate Visited(found: State, evs: seq<Event>) {
    exists before :: before <= evs && Legal(EMPTY, before) && After(EMPTY, before) == found
  }

  lemma FoundIsVisited(found: State, evs: seq<Event>, last: Event, after: seq<Event>)
    requires FoundBefore(found, evs, last) && evs <= after
    ensures Visited(found, after)
  {
    var before := evs[..|evs| - 1];
    assert before <= after && Legal(EMPTY, before) && After(EMPTY, before) == found;
  }

  /**
   * The outcome stands. After an attempt without failed commits, in every leased continuation: a task that is
   * SUCCESS or FAILED never changes again; one that is BLOCKED does not change, and so is not claimed, before more
   * than the whole retry_after has passed since the block was raised.
   */
  lemma OutcomeStands(evs: seq<Event>, more: seq<Event>, at: State, t: TaskId, cut: seq<seq<Name>>, now: Log, was: Log,
                      digest: Content -> Hash, apart: set<Name>)
    requires LeasedRun(EMPTY, evs) && LeasedRun(EMPTY, evs + more)
    requires Closed(After(EMPTY, evs), at, t, cut, now, was, digest, apart)
    requires
      was.escaped < now.escaped && LongBlock(now.escaped[|was.escaped|].exn) ==>
        var e := now.escaped[|was.escaped|];
        After(EMPTY, evs + more).clock <= e.at + e.exn.retryAfter * SECOND
    ensures
      var row := After(EMPTY, evs).tasks[t].row;
      && row.status in {Success, Failed, Blocked}
      && t in After(EMPTY, evs + more).tasks && After(EMPTY, evs + more).tasks[t] == After(EMPTY, evs).tasks[t]
  {
    assert (evs + more)[..|evs|] == evs;
    hide LeasedRun, Legal, After, Completed, Absorb, CountsConfirmed;
    SettledStays(evs + more, |evs|, t);
  }
}
