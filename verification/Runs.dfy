/** The bookkeeping of a whole run: names in, batches out, commits counted, views put together. */
module Runs {
  import opened Basics
  import opened Tasks
  import opened Interference
  import opened Worlds
  import opened Batches

  const HEARTBEAT_INTERVAL := 30
  const BLOCK_THRESHOLD_SECONDS := 60
  const BATCH_SIZE := 3

  /** How many heartbeats are due while the counter goes from a to b. */
  function Beats(a: nat, b: nat): int {
    (b + HEARTBEAT_INTERVAL - 1) / HEARTBEAT_INTERVAL - (a + HEARTBEAT_INTERVAL - 1) / HEARTBEAT_INTERVAL
  }

  predicate LongBlock(exn: Exn) {
    exn.ApiBlocked? && exn.retryAfter > BLOCK_THRESHOLD_SECONDS
  }

  /** From a to b only the heartbeat stamp has changed. */
  predicate SameButBeat(a: Row, b: Row) {
    b == a.(lastHeartbeat := b.lastHeartbeat)
  }

  lemma SameButBeatTwice(a: Row, b: Row, c: Row)
    requires SameButBeat(a, b) && SameButBeat(b, c)
    ensures SameButBeat(a, c)
  {
  }

  /** What a batch may have logged so far: members, uploads and heartbeat commits only. */
  predicate Uneventful(now: Log, was: Log) {
    && was.yielded <= now.yielded && was.uploads <= now.uploads
    && now == was.(yielded := now.yielded, uploads := now.uploads, saves := now.saves)
  }

  /** The log a batch step leaves when it raises exn at some moment: a failed commit of the row, or an escape. */
  predicate RaisedBy(now: Log, was: Log, exn: Exn, at: Time) {
    && was.openings <= now.openings && was.yielded <= now.yielded && was.uploads <= now.uploads
    && now == was.(openings := now.openings, yielded := now.yielded, uploads := now.uploads, saves := now.saves,
                   marked := now.marked, escaped := now.escaped, saveFailures := now.saveFailures)
    && (now.marked == was.marked || now.marked == |now.yielded|)
    && (|| (now.escaped == was.escaped + [Escape(InBatch, exn, at)] && now.saveFailures == was.saveFailures)
        || (now.escaped == was.escaped && now.saveFailures == was.saveFailures + 1))
  }

  /** The members handed out since `was`. */
  function Taken(now: Log, was: Log): seq<Extracted>
    requires was.yielded <= now.yielded
  {
    now.yielded[|was.yielded|..]
  }

  lemma LogsCompose(now: Log, mid: Log, was: Log, o: Outcome, at: Time)
    requires Uneventful(mid, was)
    requires if o == Ok then Uneventful(now, mid) else RaisedBy(now, mid, o.exn, at)
    ensures if o == Ok then Uneventful(now, was) else RaisedBy(now, was, o.exn, at)
    ensures was.yielded <= mid.yielded <= now.yielded && was.uploads <= mid.uploads <= now.uploads
  {
  }

  /** The object of the last upload since `was`, the one that may be in flight when something raises. */
  function Hanging(now: Log, was: Log): Option<Name> {
    if |was.uploads| < |now.uploads| then Some(now.uploads[|now.uploads| - 1]) else None
  }

  predicate HangsOn(inflight: Option<Name>, now: Log, was: Log) {
    inflight.None? || inflight == Hanging(now, was)
  }

  lemma HangsLater(inflight: Option<Name>, now: Log, mid: Log, was: Log)
    requires HangsOn(inflight, now, mid) && was.uploads <= mid.uploads
    ensures HangsOn(inflight, now, was)
  {
  }

  lemma RolledBackAfter(v: View, v0: View, inflight: Option<Name>, now: Log, mid: Log, was: Log, leased: bool)
    requires HangsOn(inflight, mid, was) && now.uploads == mid.uploads
    requires mid.eraseFailures == was.eraseFailures && mid.removeFailures == was.removeFailures
    requires RolledBack(v, v0, inflight, now.eraseFailures == mid.eraseFailures,
                        now.removeFailures == mid.removeFailures, leased)
    ensures RolledBack(v, v0, Hanging(now, was), now.eraseFailures == was.eraseFailures,
                       now.removeFailures == was.removeFailures, leased)
  {
  }

  /** The downloads since `was`, and all the members of their archives. */
  function Openings(now: Log, was: Log): seq<Opening>
    requires was.openings <= now.openings
  {
    now.openings[|was.openings|..]
  }

  function FilesIn(openings: seq<Opening>): seq<Extracted> {
    if openings == [] then []
    else FilesIn(openings[..|openings| - 1]) + openings[|openings| - 1].archive.files
  }

  lemma FilesInSnoc(openings: seq<Opening>, x: Opening)
    ensures FilesIn(openings + [x]) == FilesIn(openings) + x.archive.files
  {
    assert (openings + [x])[..|openings|] == openings;
  }

  /** Since `was` one archive was asked for, with the names of this batch, and handed out to its end. */
  predicate WholeBatch(now: Log, was: Log, batch: seq<Name>) {
    && was.openings <= now.openings && |now.openings| == |was.openings| + 1 && was.yielded <= now.yielded
    && var x := now.openings[|was.openings|];
    x.asked == batch && x.archive.ending == None && Taken(now, was) == x.archive.files
  }

  /** What a batch adds to the log when its archive has been read to the end. */
  predicate ReadLog(now: Log, was: Log, batch: seq<Name>) {
    && was.yielded <= now.yielded && was.uploads <= now.uploads
    && now == was.(openings := now.openings, yielded := now.yielded, uploads := now.uploads, saves := now.saves)
    && WholeBatch(now, was, batch)
  }

  /** The log just after a download. */
  function AfterDownload(was: Log, batch: seq<Name>, archive: Archive): Log {
    was.(openings := was.openings + [Opening(batch, archive)])
  }

  /** What was handed out since `was` and what is still to come make up the archive. */
  predicate Unread(rest: Archive, archive: Archive, now: Log, was: Log) {
    was.yielded <= now.yielded && Taken(now, was) + rest.files == archive.files && rest.ending == archive.ending
  }

  lemma UnreadLess(rest': Archive, rest: Archive, archive: Archive, came: seq<Extracted>, now: Log, mid: Log, was: Log)
    requires Unread(rest, archive, mid, was) && now.yielded == mid.yielded + came
    requires came + rest'.files == rest.files && rest'.ending == rest.ending
    ensures Unread(rest', archive, now, was)
  {
    assert Taken(now, was) == Taken(mid, was) + came;
  }

  lemma UnreadStarts(archive: Archive, batch: seq<Name>, was: Log)
    ensures Unread(archive, archive, AfterDownload(was, batch, archive), was)
    ensures Uneventful(AfterDownload(was, batch, archive), AfterDownload(was, batch, archive))
  {
  }

  lemma ReadToEnd(now: Log, was: Log, batch: seq<Name>, archive: Archive)
    requires Uneventful(now, AfterDownload(was, batch, archive))
    requires Unread(Archive([], None), archive, now, was)
    ensures ReadLog(now, was, batch) && now.openings == was.openings + [Opening(batch, archive)]
  {
  }

  lemma RaisedAfterDownload(now: Log, was: Log, batch: seq<Name>, archive: Archive, exn: Exn, at: Time)
    requires RaisedBy(now, AfterDownload(was, batch, archive), exn, at)
    ensures RaisedBy(now, was, exn, at)
  {
  }

  /** How many of the first `count` members came since `was`. */
  function Fresh(count: nat, was: Log): nat {
    Max(0, count - |was.yielded|)
  }

  /** The members handed out since `was` for batches that were confirmed. */
  function Secured(now: Log, was: Log): seq<Extracted>
    requires was.yielded <= now.yielded && now.kept <= |now.yielded|
  {
    Taken(now, was)[..Fresh(now.kept, was)]
  }

  /** The members handed out since `was` for batches that the API has marked. */
  function Marked(now: Log, was: Log): seq<Extracted>
    requires was.yielded <= now.yielded && now.marked <= |now.yielded|
  {
    Taken(now, was)[..Fresh(now.marked, was)]
  }

  /** Every member handed out since `was` belongs to a batch confirmed and marked. */
  predicate AllKept(now: Log, was: Log) {
    && was.yielded <= now.yielded
    && now.kept <= |now.yielded| && now.marked <= |now.yielded|
    && Fresh(now.kept, was) == Fresh(now.marked, was) == |Taken(now, was)|
  }

  /**
   * Each of the batches confirmed since `was` had its archive asked for by exactly its names, in order, and read to
   * its end; and the members of those archives are the ones secured.
   */
  ghost predicate ReadWhole(confirmed: seq<seq<Name>>, now: Log, was: Log) {
    && was.openings <= now.openings && was.yielded <= now.yielded && now.kept <= |now.yielded|
    && |confirmed| <= |Openings(now, was)|
    && (forall i :: 0 <= i < |confirmed| ==>
          Openings(now, was)[i].asked == confirmed[i] && Openings(now, was)[i].archive.ending == None)
    && Secured(now, was) == FilesIn(Openings(now, was)[..|confirmed|])
  }

  lemma ReadWholeStarts(was: Log)
    requires was.kept <= |was.yielded|
    ensures ReadWhole([], was, was) && Openings(was, was) == []
  {
  }

  /** One more batch, read whole and confirmed. */
  lemma ReadWholeMore(confirmed: seq<seq<Name>>, batch: seq<Name>, now: Log, mid: Log, was: Log)
    requires ReadWhole(confirmed, mid, was) && |Openings(mid, was)| == |confirmed|
    requires AllKept(mid, was) && AllKept(now, was) && WholeBatch(now, mid, batch)
    ensures ReadWhole(confirmed + [batch], now, was) && |Openings(now, was)| == |confirmed| + 1
  {
    var before, x := Openings(mid, was), now.openings[|mid.openings|];
    assert Openings(now, was) == before + [x];
    FilesInSnoc(before, x);
    assert before[..|confirmed|] == before && (before + [x])[..|confirmed| + 1] == before + [x];
    assert Taken(now, was) == Taken(mid, was) + Taken(now, mid);
    assert Secured(mid, was) == Taken(mid, was) && Secured(now, was) == Taken(now, was);
    hide FilesIn, Secured, Taken;
  }

  /** What comes after, unconfirmed, secures nothing more. */
  lemma ReadWholeStays(confirmed: seq<seq<Name>>, now: Log, mid: Log, was: Log)
    requires ReadWhole(confirmed, mid, was) && AllKept(mid, was)
    requires mid.openings <= now.openings && mid.yielded <= now.yielded && now.kept == mid.kept
    ensures ReadWhole(confirmed, now, was)
  {
    assert Openings(mid, was) <= Openings(now, was) && Taken(mid, was) <= Taken(now, was);
    SamePrefix(Openings(mid, was), Openings(now, was), |confirmed|);
    SamePrefix(Taken(mid, was), Taken(now, was), Fresh(now.kept, was));
    hide FilesIn, Taken, Openings;
  }

  lemma SamePrefix<T>(a: seq<T>, b: seq<T>, n: nat)
    requires a <= b && n <= |a|
    ensures a[..n] == b[..n]
    ensures forall i :: 0 <= i < n ==> a[i] == b[i]
  {
  }

  /** How a batch ended: confirmed; the task parked until the block is over; or an exception goes on. */
  datatype BatchEnd = Done | Parked | Broken

  /** The row that _handle_block writes for this block, met at time `now`. */
  function ParkedRow(r: Row, exn: Exn, now: Time): Row
    requires exn.ApiBlocked?
  {
    r.(status := Blocked, blockedUntil := Some(now + exn.retryAfter * SECOND),
       blockReason := Some(exn.text), error := Some(BlockError(exn.text)))
  }

  /** The row is the one parked at some moment since `start`. */
  ghost predicate ParkedSince(r: Row, exn: Exn, start: Time, end: Time) {
    exn.ApiBlocked? && exists at :: start <= at <= end && r == ParkedRow(r, exn, at)
  }

  /** What a batch adds to the log, by how it ends; without failed commits of the row, `why` is what escaped. */
  predicate BatchLog(end: BatchEnd, o: Outcome, why: Escape, batch: seq<Name>, now: Log, was: Log) {
    && was.yielded <= now.yielded && was.uploads <= now.uploads && was.saveFailures <= now.saveFailures
    && was.removeFailures <= now.removeFailures && was.eraseFailures <= now.eraseFailures
    && now.fetched == was.fetched
    && (now.confirmed == was.confirmed || now.confirmed == was.confirmed + [batch])
    && (if now.confirmed == was.confirmed then
          now.kept == was.kept && (now.marked == was.marked || now.marked == |now.yielded|)
        else now.kept == now.marked == |now.yielded| && WholeBatch(now, was, batch))
    && was.openings <= now.openings && was.escaped <= now.escaped && now.clashes == was.clashes
    && (end == Done ==>
          now == was.(openings := now.openings, yielded := now.yielded, uploads := now.uploads, saves := now.saves,
                      confirmed := was.confirmed + [batch], kept := |now.yielded|, marked := |now.yielded|))
    && (end != Done && now.saveFailures == was.saveFailures ==>
          && now.confirmed == was.confirmed
          && now.escaped == was.escaped + [why] && why.site == InBatch
          && (end == Parked <==> LongBlock(why.exn))
          && (end == Broken ==> o == Raised(why.exn)))
  }

  /** How the top of the loop ended: names to work on; none left and none to come; or the run stops here. */
  datatype Fill = Enough | Exhausted | Stopped

  /** Either nothing was asked, or one more answer was logged and, unless empty, the row saved. */
  predicate FillLog(pending': seq<Name>, pending: seq<Name>, now: Log, was: Log) {
    if |pending| >= 3 then
      pending' == pending && now == was
    else
      && pending <= pending'
      && now == was.(fetched := was.fetched + [pending'[|pending|..]],
                     saves := was.saves + if pending' == pending then 0 else 1)
  }

  lemma FillLogged(pending: seq<Name>, names: seq<Name>, now: Log, was: Log)
    requires |pending| < 3
    requires now == was.(fetched := was.fetched + [names], saves := was.saves + if names == [] then 0 else 1)
    ensures FillLog(pending + names, pending, now, was)
    ensures names == [] ==> pending + names == pending
  {
    assert (pending + names)[|pending|..] == names;
  }

  /** What a run stopped at the top of the loop adds to the log. */
  predicate StopLog(o: Outcome, why: Escape, running: bool, now: Log, was: Log) {
    && was.fetched <= now.fetched && was.saveFailures <= now.saveFailures
    && now == was.(fetched := now.fetched, escaped := now.escaped, saves := now.saves, saveFailures := now.saveFailures)
    && was.escaped <= now.escaped
    && (running && now.saveFailures == was.saveFailures ==>
          && now.fetched == was.fetched && now.escaped == was.escaped + [why] && why.site == Fetching
          && (o == Ok <==> LongBlock(why.exn)) && (o.Raised? ==> o == Raised(why.exn)))
  }

  lemma BatchLogFacts(end: BatchEnd, o: Outcome, why: Escape, batch: seq<Name>, now: Log, was: Log)
    requires BatchLog(end, o, why, batch, now, was)
    ensures was.yielded <= now.yielded
    ensures end != Done && now.saveFailures == was.saveFailures ==> now.confirmed == was.confirmed
    ensures if now.confirmed == was.confirmed then now.kept == was.kept else now.kept == now.marked == |now.yielded|
    ensures now.confirmed == was.confirmed || now.confirmed == was.confirmed + [batch]
    ensures end == Done ==> now.eraseFailures == was.eraseFailures && now.removeFailures == was.removeFailures
    ensures now.confirmed != was.confirmed ==> end == Done || now.saveFailures != was.saveFailures
  {
  }

  /** What a cleanup may log: deletes that failed. */
  predicate OnlyDeletesFailed(now: Log, was: Log) {
    && was.removeFailures <= now.removeFailures && was.eraseFailures <= now.eraseFailures
    && now == was.(removeFailures := now.removeFailures, eraseFailures := now.eraseFailures)
  }

  function DeletesTried(was: Log, gone: bool, dropped: bool): Log {
    was.(removeFailures := was.removeFailures + (if gone then 0 else 1),
         eraseFailures := was.eraseFailures + (if dropped then 0 else 1))
  }

  lemma NoneTried(log: Log)
    ensures OnlyDeletesFailed(log, log)
  {
  }

  lemma DeleteFails(now: Log, mid: Log, was: Log, gone: bool, dropped: bool)
    requires OnlyDeletesFailed(mid, was) && now == DeletesTried(mid, gone, dropped)
    ensures OnlyDeletesFailed(now, was)
    ensures now.eraseFailures == was.eraseFailures <==> mid.eraseFailures == was.eraseFailures && dropped
    ensures now.removeFailures == was.removeFailures <==> mid.removeFailures == was.removeFailures && gone
  {
  }

  /** What parking the task, or not, may log. */
  function Escalated(was: Log, exn: Exn, parked: bool): Log {
    if !LongBlock(exn) then was
    else if parked then was.(saves := was.saves + 1)
    else was.(saveFailures := was.saveFailures + 1)
  }

  /** What the failure of a batch logs: a cleanup, and then whether the task could be parked. */
  predicate BatchUndone(now: Log, was: Log, exn: Exn, parked: bool) {
    var cleaned := was.(removeFailures := now.removeFailures, eraseFailures := now.eraseFailures);
    OnlyDeletesFailed(cleaned, was) && now == Escalated(cleaned, exn, parked)
  }

  lemma UndoneLog(now: Log, mid: Log, was: Log, exn: Exn, parked: bool)
    requires OnlyDeletesFailed(mid, was) && now == Escalated(mid, exn, parked)
    ensures BatchUndone(now, was, exn, parked)
    ensures now.eraseFailures == mid.eraseFailures && now.removeFailures == mid.removeFailures
  {
  }

  lemma UndoneFacts(now: Log, was: Log, exn: Exn, parked: bool)
    requires BatchUndone(now, was, exn, parked)
    ensures now.yielded == was.yielded && now.uploads == was.uploads
    ensures now.confirmed == was.confirmed && now.kept == was.kept && was.saveFailures <= now.saveFailures
    ensures now.saveFailures == was.saveFailures && LongBlock(exn) ==> parked
  {
  }

  lemma FailedBatchLog(now: Log, mid: Log, was: Log, parked: bool, o: Outcome, why: Escape, batch: seq<Name>)
    requires RaisedBy(mid, was, why.exn, why.at) && why.site == InBatch
    requires BatchUndone(now, mid, why.exn, parked)
    requires !LongBlock(why.exn) ==> !parked && o == Raised(why.exn)
    ensures BatchLog(if parked then Parked else Broken, o, why, batch, now, was)
  {
  }

  /** What a batch adds to the log up to its confirmation. */
  predicate ConfirmedLog(now: Log, was: Log, batch: seq<Name>) {
    && was.yielded <= now.yielded && was.uploads <= now.uploads
    && now == was.(openings := now.openings, yielded := now.yielded, uploads := now.uploads, saves := now.saves,
                   confirmed := was.confirmed + [batch], kept := |now.yielded|, marked := |now.yielded|)
    && WholeBatch(now, was, batch)
  }

  /** The confirmation, or its exception, after an archive that was read to its end. */
  lemma ConfirmLogs(now: Log, mid: Log, was: Log, batch: seq<Name>, o: Outcome, at: Time)
    requires ReadLog(mid, was, batch)
    requires o == Ok ==>
      now == mid.(confirmed := mid.confirmed + [batch], kept := |mid.yielded|, marked := |mid.yielded|)
    requires o.Raised? ==>
      && now == mid.(escaped := mid.escaped + [Escape(InBatch, o.exn, at)], marked := now.marked)
      && (now.marked == mid.marked || now.marked == |mid.yielded|)
    ensures if o == Ok then ConfirmedLog(now, was, batch) else RaisedBy(now, was, o.exn, at)
    ensures was.yielded <= mid.yielded == now.yielded && now.uploads == mid.uploads && now.saves == mid.saves
  {
  }

  lemma RaisedFacts(now: Log, was: Log, exn: Exn, at: Time)
    requires RaisedBy(now, was, exn, at)
    ensures was.yielded <= now.yielded && now.confirmed == was.confirmed
    ensures now.eraseFailures == was.eraseFailures && now.removeFailures == was.removeFailures
    ensures was.saveFailures <= now.saveFailures
  {
  }

  lemma ConfirmedBatchLog(now: Log, mid: Log, was: Log, o: Outcome, why: Escape, batch: seq<Name>)
    requires ConfirmedLog(mid, was, batch)
    requires now == if o == Ok then mid.(saves := mid.saves + 1) else mid.(saveFailures := mid.saveFailures + 1)
    ensures BatchLog(if o == Ok then Done else Broken, o, why, batch, now, was)
    ensures now.confirmed != was.confirmed
    ensures was.yielded <= now.yielded && Taken(now, was) == Taken(mid, was)
  {
    assert |now.confirmed| == |was.confirmed| + 1;
  }

  /** The answers of get_file_names since `was`. */
  function Answers(now: Log, was: Log): seq<seq<Name>>
    requires was.fetched <= now.fetched
  {
    now.fetched[|was.fetched|..]
  }

  /** The batches confirmed since `was`. */
  function Confirmed(now: Log, was: Log): seq<seq<Name>>
    requires was.confirmed <= now.confirmed
  {
    now.confirmed[|was.confirmed|..]
  }

  /** The row has counted as processed exactly the names confirmed since `was`. */
  ghost predicate CountsConfirmed(processed: int, processed0: int, now: Log, was: Log) {
    was.confirmed <= now.confirmed && processed == processed0 + |Flatten(Confirmed(now, was))|
  }

  /** How many of the answers were not empty. */
  function Filled(answers: seq<seq<Name>>): nat {
    if answers == [] then 0
    else Filled(answers[..|answers| - 1]) + if answers[|answers| - 1] == [] then 0 else 1
  }

  /**
   * At the head of the loop: the batches cut so far followed by the names waiting are all the names answered,
   * in order; every batch cut was confirmed; a batch falls short of three only after asking; and the row was
   * committed once per non-empty answer, once per batch and once per 30 members.
   */
  ghost predicate Progressing(cut: seq<seq<Name>>, pending: seq<Name>, counter: nat, now: Log, was: Log) {
    && was.fetched <= now.fetched && was.yielded <= now.yielded && was.uploads <= now.uploads
    && now == was.(fetched := now.fetched, openings := now.openings, yielded := now.yielded, uploads := now.uploads,
                   saves := now.saves, confirmed := was.confirmed + cut, kept := now.kept, marked := now.marked)
    && AllKept(now, was) && ReadWhole(cut, now, was) && |Openings(now, was)| == |cut|
    && Flatten(cut) + pending == Flatten(Answers(now, was))
    && (forall i :: 0 <= i < |cut| ==> 1 <= |cut[i]| <= BATCH_SIZE)
    && BATCH_SIZE * |cut| <= |Flatten(cut)| + 2 * |Answers(now, was)|
    && counter == |Taken(now, was)|
    && now.saves == was.saves + Filled(Answers(now, was)) + |cut| + Beats(0, counter)
  }

  /** A batch shorter than three may be cut now. */
  ghost predicate MayCut(cut: seq<seq<Name>>, pending: seq<Name>, now: Log, was: Log) {
    && was.fetched <= now.fetched && pending != []
    && (|pending| < BATCH_SIZE ==> BATCH_SIZE * |cut| + 2 <= |Flatten(cut)| + 2 * |Answers(now, was)|)
  }

  /** Asking for names hands out no members. */
  lemma AskingIsQuiet(pending': seq<Name>, pending: seq<Name>, o: Outcome, why: Escape, running: bool, now: Log, mid: Log)
    requires FillLog(pending', pending, now, mid) || StopLog(o, why, running, now, mid)
    ensures now.yielded == mid.yielded && now.uploads == mid.uploads
    ensures now.eraseFailures == mid.eraseFailures && now.removeFailures == mid.removeFailures
    ensures now.confirmed == mid.confirmed && now.kept == mid.kept && now.marked == mid.marked
  {
  }

  lemma ProgressFacts(cut: seq<seq<Name>>, pending: seq<Name>, counter: nat, now: Log, was: Log)
    requires Progressing(cut, pending, counter, now, was)
    ensures was.yielded <= now.yielded && was.uploads <= now.uploads && now.saveFailures == was.saveFailures
    ensures AllKept(now, was)
    ensures now.eraseFailures == was.eraseFailures && now.removeFailures == was.removeFailures
  {
  }

  lemma ProgressStarts(was: Log)
    requires was.kept <= was.marked <= |was.yielded|
    ensures Progressing([], [], 0, was, was)
  {
    assert was.confirmed + [] == was.confirmed;
    assert Answers(was, was) == [] && Taken(was, was) == [];
    ReadWholeStarts(was);
  }

  lemma ProgressRefills(cut: seq<seq<Name>>, pending: seq<Name>, pending': seq<Name>, counter: nat,
                        now: Log, mid: Log, was: Log)
    requires Progressing(cut, pending, counter, mid, was)
    requires FillLog(pending', pending, now, mid) && pending' != []
    ensures Progressing(cut, pending', counter, now, was) && MayCut(cut, pending', now, was)
  {
    if |pending| < BATCH_SIZE {
      var names := pending'[|pending|..];
      var before := Answers(mid, was);
      assert Answers(now, was) == before + [names];
      assert (before + [names])[..|before|] == before;
      FlattenSnoc(before, names);
      assert Flatten(cut) + pending' == Flatten(cut) + pending + names;
      assert Taken(now, was) == Taken(mid, was);
      ReadWholeStays(cut, now, mid, was);
    }
  }

  /** Members 0, 30, 60, ... beat, and no others. */
  lemma BeatsEveryThirty(n: nat)
    ensures Beats(n, n + 1) == if n % 30 == 0 then 1 else 0
  {
  }

  /** A block of 61 seconds parks the task, one of 60 does not; a batch has three names at most. */
  lemma Thresholds(seconds: int, text: string)
    ensures LongBlock(ApiBlocked(seconds, text)) <==> seconds > 60
    ensures BATCH_SIZE == 3
  {
  }

  /** What a block of so many seconds, met at `now`, writes. */
  lemma ParkedMeans(r: Row, seconds: int, text: string, now: Time)
    ensures
      var r' := ParkedRow(r, ApiBlocked(seconds, text), now);
      && r'.status == Blocked && r'.blockedUntil == Some(now + 1_000_000 * seconds) && r'.blockReason == Some(text)
      && (text != "" ==> r'.error == Some("External API block: " + text))
      && (text == "" ==> r'.error == Some("External API block"))
      && r'.received == r.received && r'.processed == r.processed && r'.attempts == r.attempts
      && r'.finishedAt == r.finishedAt && r'.workerId == r.workerId
  {
  }

  lemma BeatsAdd(a: nat, b: nat, c: nat)
    ensures Beats(a, c) == Beats(a, b) + Beats(b, c)
  {
  }

  lemma CutMovesFront(cut: seq<seq<Name>>, pending: seq<Name>, batch: seq<Name>, rest: seq<Name>)
    requires pending == batch + rest
    ensures Flatten(cut + [batch]) + rest == Flatten(cut) + pending
    ensures |Flatten(cut + [batch])| == |Flatten(cut)| + |batch|
    ensures BATCH_SIZE * |cut + [batch]| == BATCH_SIZE * |cut| + BATCH_SIZE && |cut + [batch]| == |cut| + 1
    ensures (forall i :: 0 <= i < |cut| ==> 1 <= |cut[i]| <= BATCH_SIZE) && 1 <= |batch| <= BATCH_SIZE ==>
      forall i :: 0 <= i < |cut + [batch]| ==> 1 <= |(cut + [batch])[i]| <= BATCH_SIZE
  {
    FlattenSnoc(cut, batch);
    assert Flatten(cut) + batch + rest == Flatten(cut) + pending;
  }

  lemma BatchMovesLog(batch: seq<Name>, cut: seq<seq<Name>>, now: Log, mid: Log, was: Log, o: Outcome, why: Escape)
    requires BatchLog(Done, o, why, batch, now, mid)
    requires was.fetched <= mid.fetched && was.yielded <= mid.yielded && was.uploads <= mid.uploads
    requires
      mid == was.(fetched := mid.fetched, openings := mid.openings, yielded := mid.yielded, uploads := mid.uploads,
                  saves := mid.saves, confirmed := was.confirmed + cut, kept := mid.kept, marked := mid.marked)
    ensures was.yielded <= mid.yielded <= now.yielded && was.uploads <= now.uploads && now.fetched == mid.fetched
    ensures
      now == was.(fetched := now.fetched, openings := now.openings, yielded := now.yielded, uploads := now.uploads,
                  saves := now.saves, confirmed := was.confirmed + (cut + [batch]), kept := now.kept,
                  marked := now.marked)
    ensures AllKept(now, was) && WholeBatch(now, mid, batch)
    ensures Answers(now, was) == Answers(mid, was) && Taken(now, was) == Taken(mid, was) + Taken(now, mid)
  {
    assert was.confirmed + cut + [batch] == was.confirmed + (cut + [batch]);
  }

  lemma ProgressCuts(cut: seq<seq<Name>>, pending: seq<Name>, batch: seq<Name>, rest: seq<Name>,
                     counter: nat, counter': nat, now: Log, mid: Log, was: Log, o: Outcome, why: Escape)
    requires Progressing(cut, pending, counter, mid, was) && MayCut(cut, pending, mid, was)
    requires batch == pending[..Min(BATCH_SIZE, |pending|)] && rest == pending[Min(BATCH_SIZE, |pending|)..]
    requires BatchLog(Done, o, why, batch, now, mid)
    requires counter' == counter + |Taken(now, mid)| && now.saves == mid.saves + Beats(counter, counter') + 1
    ensures Progressing(cut + [batch], rest, counter', now, was)
  {
    assert pending == batch + rest;
    CutMovesFront(cut, pending, batch, rest);
    BatchMovesLog(batch, cut, now, mid, was, o, why);
    ReadWholeMore(cut, batch, now, mid, was);
    BeatsAdd(0, counter, counter');
    hide Flatten, Beats, BatchLog, Answers, Taken, ReadWhole, WholeBatch, AllKept, Openings;
  }

  /** A run that succeeded: every name answered is in exactly one confirmed batch, in order. */
  ghost predicate Completed(cut: seq<seq<Name>>, now: Log, was: Log) {
    && was.fetched < now.fetched && was.yielded <= now.yielded
    && now == was.(fetched := now.fetched, openings := now.openings, yielded := now.yielded, uploads := now.uploads,
                   saves := now.saves, confirmed := was.confirmed + cut, kept := now.kept, marked := now.marked)
    && AllKept(now, was) && ReadWhole(cut, now, was) && |Openings(now, was)| == |cut|
    && Taken(now, was) == FilesIn(Openings(now, was))
    && Answers(now, was)[|Answers(now, was)| - 1] == []
    && Flatten(cut) == Flatten(Answers(now, was))
    && (forall i :: 0 <= i < |cut| ==> 1 <= |cut[i]| <= BATCH_SIZE)
    && BATCH_SIZE * |cut| <= |Flatten(cut)| + 2 * (|Answers(now, was)| - 1)
    && now.saves == was.saves + Filled(Answers(now, was)) + |cut| + Beats(0, |Taken(now, was)|) + 1
  }

  lemma ProgressCompletes(cut: seq<seq<Name>>, counter: nat, now: Log, mid: Log, was: Log)
    requires Progressing(cut, [], counter, mid, was)
    requires now == mid.(fetched := mid.fetched + [[]], saves := mid.saves + 1)
    ensures Completed(cut, now, was)
  {
    var before := Answers(mid, was);
    assert Answers(now, was) == before + [[]];
    assert (before + [[]])[..|before|] == before;
    FlattenSnoc(before, []);
    assert Flatten(cut) + [] == Flatten(cut) && Flatten(before) + [] == Flatten(before);
    assert Taken(now, was) == Taken(mid, was);
    ReadWholeStays(cut, now, mid, was);
    assert Openings(now, was)[..|cut|] == Openings(now, was) && Secured(now, was) == Taken(now, was);
  }

  /** How a run ended: success; parked on a long block; or an exception came out. */
  datatype RunEnd = Finished | Shelved | Aborted

  /**
   * What a run adds to the log. If no commit of the row failed and the task was RUNNING from the start, one
   * exception at most got out, and it decides how the run ends.
   */
  predicate RunLog(end: RunEnd, why: Escape, o: Outcome, running: bool, now: Log, was: Log) {
    && was.fetched <= now.fetched && was.yielded <= now.yielded && was.uploads <= now.uploads
    && was.saveFailures <= now.saveFailures
    && was.removeFailures <= now.removeFailures && was.eraseFailures <= now.eraseFailures
    && was.escaped <= now.escaped && now.clashes == was.clashes
    && (running && now.saveFailures == was.saveFailures ==>
          match end
          case Finished => now.escaped == was.escaped
          case Shelved => now.escaped == was.escaped + [why] && LongBlock(why.exn)
          case Aborted => now.escaped == was.escaped + [why] && !LongBlock(why.exn) && o == Raised(why.exn))
  }

  /**
   * However a run ends, its batches are the names answered, in order; all but possibly the last are confirmed, and
   * the archives of those were read whole.
   */
  ghost predicate InOrder(cut: seq<seq<Name>>, now: Log, was: Log) {
    && was.fetched <= now.fetched
    && Flatten(cut) <= Flatten(Answers(now, was))
    && (forall i :: 0 <= i < |cut| ==> 1 <= |cut[i]| <= BATCH_SIZE)
    && (|| now.confirmed == was.confirmed + cut
        || (cut != [] && now.confirmed == was.confirmed + cut[..|cut| - 1]))
    && ReadWhole(Confirmed(now, was), now, was)
  }

  lemma InOrderStays(cut: seq<seq<Name>>, now: Log, mid: Log, was: Log)
    requires InOrder(cut, mid, was) && now == mid.(saves := now.saves, saveFailures := now.saveFailures)
    ensures InOrder(cut, now, was)
  {
    assert was.confirmed <= mid.confirmed ==> Confirmed(now, was) == Confirmed(mid, was);
    hide FilesIn, Flatten;
  }

  lemma FlattenGrows(answers: seq<seq<Name>>, more: seq<seq<Name>>)
    requires answers <= more
    ensures Flatten(answers) <= Flatten(more)
    decreases |more|
  {
    if answers != more {
      assert answers <= more[..|more| - 1];
      FlattenGrows(answers, more[..|more| - 1]);
    }
  }

  lemma CountsStart(processed: int, was: Log)
    ensures CountsConfirmed(processed, processed, was, was)
  {
    assert Confirmed(was, was) == [];
  }

  lemma CountsMore(processed: int, processed': int, processed0: int, batch: seq<Name>, now: Log, mid: Log, was: Log)
    requires CountsConfirmed(processed, processed0, mid, was)
    requires || (now.confirmed == mid.confirmed && processed' == processed)
             || (now.confirmed == mid.confirmed + [batch] && processed' == processed + |batch|)
    ensures CountsConfirmed(processed', processed0, now, was)
  {
    if now.confirmed != mid.confirmed {
      assert Confirmed(now, was) == Confirmed(mid, was) + [batch];
      FlattenSnoc(Confirmed(mid, was), batch);
    }
  }

  /** The run stops at the top of the loop. */
  lemma RunStops(cut: seq<seq<Name>>, pending: seq<Name>, counter: nat, running: bool, o: Outcome, why: Escape,
                 now: Log, mid: Log, was: Log)
    requires Progressing(cut, pending, counter, mid, was) && StopLog(o, why, running, now, mid)
    ensures RunLog(if o == Ok then Shelved else Aborted, why, o, running, now, was)
    ensures InOrder(cut, now, was) && Taken(now, was) == Taken(mid, was)
  {
    assert Answers(mid, was) <= Answers(now, was);
    FlattenGrows(Answers(mid, was), Answers(now, was));
    assert Flatten(cut) <= Flatten(cut) + pending;
    ReadWholeStays(cut, now, mid, was);
    assert Confirmed(now, was) == cut;
  }

  /** The run stops within a batch. */
  lemma RunBreaks(cut: seq<seq<Name>>, pending: seq<Name>, batch: seq<Name>, counter: nat, running: bool,
                  end: BatchEnd, o: Outcome, why: Escape, now: Log, mid: Log, was: Log)
    requires Progressing(cut, pending, counter, mid, was) && BatchLog(end, o, why, batch, now, mid) && end != Done
    requires batch <= pending && 1 <= |batch| <= BATCH_SIZE
    ensures RunLog(if end == Parked then Shelved else Aborted, why, o, running, now, was)
    ensures InOrder(cut + [batch], now, was)
  {
    FlattenSnoc(cut, batch);
    assert Answers(now, was) == Answers(mid, was);
    assert Flatten(cut) + batch <= Flatten(cut) + pending;
    var cut' := cut + [batch];
    assert cut'[..|cut|] == cut;
    assert was.confirmed + cut + [batch] == was.confirmed + cut';
    assert forall i :: 0 <= i < |cut| ==> cut'[i] == cut[i];
    BreakReads(cut, batch, end, o, why, now, mid, was);
  }

  lemma BreakReads(cut: seq<seq<Name>>, batch: seq<Name>, end: BatchEnd, o: Outcome, why: Escape,
                   now: Log, mid: Log, was: Log)
    requires ReadWhole(cut, mid, was) && AllKept(mid, was) && |Openings(mid, was)| == |cut|
    requires mid.confirmed == was.confirmed + cut && BatchLog(end, o, why, batch, now, mid)
    ensures was.confirmed <= now.confirmed && ReadWhole(Confirmed(now, was), now, was)
  {
    if now.confirmed == mid.confirmed {
      assert Confirmed(now, was) == cut;
      ReadWholeStays(cut, now, mid, was);
    } else {
      assert now.confirmed == was.confirmed + (cut + [batch]);
      assert Confirmed(now, was) == cut + [batch];
      ReadWholeMore(cut, batch, now, mid, was);
    }
  }

  /** The run completes, or its last commits fail. */
  lemma RunEnds(cut: seq<seq<Name>>, counter: nat, running: bool, o: Outcome, why: Escape, now: Log, mid: Log, was: Log)
    requires Progressing(cut, [], counter, mid, was)
    requires
      var asked := mid.(fetched := mid.fetched + [[]]);
      || (o == Ok && now == asked.(saves := mid.saves + 1))
      || (o.Raised? && now == asked.(saveFailures := mid.saveFailures + 1))
      || (o.Raised? && now == asked && !running)
    ensures o == Ok ==> Completed(cut, now, was)
    ensures RunLog(if o == Ok then Finished else Aborted, why, o, running, now, was)
    ensures InOrder(cut, now, was) && Taken(now, was) == Taken(mid, was)
  {
    if o == Ok {
      ProgressCompletes(cut, counter, now, mid, was);
    }
    assert Answers(mid, was) <= Answers(now, was);
    FlattenGrows(Answers(mid, was), Answers(now, was));
    assert Flatten(cut) + [] == Flatten(cut);
    ReadWholeStays(cut, now, mid, was);
    assert Confirmed(now, was) == cut;
  }

  /**
   * The row that a run leaves, from row0, decided by what escaped since `was`: nothing, then SUCCESS; a block
   * longer than the threshold, then BLOCKED until at least retry_after after the moment it was raised; anything
   * else, then FAILED with its text. The names confirmed, and no others, are counted as processed. A failed batch
   * restores the gap between received and processed, a failed fetch widens it by two at most. A row that is
   * closed for good says when, a moment between `start` and `end`.
   */
  ghost predicate Verdict(row: Row, row0: Row, now: Log, was: Log, start: Time, end: Time) {
    var gap0, gap := row0.received - row0.processed, row.received - row.processed;
    CountsConfirmed(row.processed, row0.processed, now, was) &&
    if now.escaped == was.escaped then
      row.status == Success && gap == gap0 && FinishedWithin(row, start, end)
    else
      && was.escaped < now.escaped && |now.escaped| == |was.escaped| + 1
      && var e := now.escaped[|was.escaped|];
      && gap0 <= gap <= (if e.site == InBatch then gap0 else gap0 + 2)
      && if LongBlock(e.exn) then row.status == Blocked && ParkedSince(row, e.exn, e.at, end)
         else row.status == Failed && row.error == Some(e.exn.Text()) && FinishedWithin(row, start, end)
  }

  lemma VerdictFromEarlier(row: Row, row0: Row, now: Log, was: Log, earlier: Time, start: Time, end: Time)
    requires earlier <= start && Verdict(row, row0, now, was, start, end)
    ensures Verdict(row, row0, now, was, earlier, end)
  {
  }

  predicate FinishedWithin(row: Row, start: Time, end: Time) {
    row.finishedAt.Some? && start <= row.finishedAt.value <= end
  }

  lemma Judge(row: Row, row0: Row, end: RunEnd, why: Escape, o: Outcome, now': Log, now: Log, was: Log,
              start: Time, stop: Time)
    requires RunLog(end, why, o, true, now, was) && now.saveFailures == was.saveFailures
    requires now'.escaped == now.escaped && now'.confirmed == now.confirmed && now'.clashes == now.clashes
    requires CountsConfirmed(row.processed, row0.processed, now, was)
    requires
      var gap0, gap := row0.received - row0.processed, row.received - row.processed;
      match end
      case Finished => row.status == Success && gap == gap0 && FinishedWithin(row, start, stop)
      case Shelved => ParkedSince(row, why.exn, why.at, stop) && row.status == Blocked
                      && gap0 <= gap <= (if why.site == InBatch then gap0 else gap0 + 2)
      case Aborted => row.status == Failed && row.error == Some(why.exn.Text()) && FinishedWithin(row, start, stop)
                      && gap0 <= gap <= (if why.site == InBatch then gap0 else gap0 + 2)
    ensures Verdict(row, row0, now', was, start, stop)
    ensures row.status == Success <==> end == Finished
    ensures now'.clashes == was.clashes && |was.escaped| <= |now'.escaped|
    ensures |now'.escaped| == |was.escaped| ==> row.status == Success
  {
    if end != Finished {
      assert now'.escaped[|was.escaped|] == why;
    }
  }

  /**
   * What a run, however it ended, leaves of the stock it began with: exactly what the members of its confirmed
   * batches make of it. Only if deletes of rows failed is more listed. Only an object whose delete failed, or the
   * last one uploaded, can be left over; objects stored without being listed may be gone.
   */
  ghost predicate Left(end: Stock, begin: Stock, now: Log, was: Log, digest: Content -> Hash, apart: set<Name>) {
    && was.yielded <= now.yielded && now.kept <= |now.yielded|
    && var st := Absorb(begin, Secured(now, was), digest, apart);
    && (now.eraseFailures == was.eraseFailures ==> end.listed == st.listed)
    && (forall n :: n in st.listed ==>
          n in end.listed && end.listed[n] == st.listed[n] && SameAt(end.shelf, st.shelf, n))
    && (now.removeFailures == was.removeFailures ==>
          forall n :: n in end.shelf && Hanging(now, was) != Some(n) ==> n in st.shelf && end.shelf[n] == st.shelf[n])
  }

  lemma LeftStays(end: Stock, begin: Stock, now: Log, mid: Log, was: Log, digest: Content -> Hash, apart: set<Name>)
    requires Left(end, begin, mid, was, digest, apart)
    requires now == mid.(saves := now.saves, saveFailures := now.saveFailures)
    ensures Left(end, begin, now, was, digest, apart)
  {
    assert Secured(now, was) == Secured(mid, was);
    hide Absorb;
  }

  /** All members so far are confirmed, and received. */
  lemma LeftWhole(v: Stock, v0: Stock, now: Log, was: Log, digest: Content -> Hash, apart: set<Name>)
    requires AllKept(now, was) && v == Absorb(v0, Taken(now, was), digest, apart)
    ensures Left(v, v0, now, was, digest, apart)
  {
    assert Secured(now, was) == Taken(now, was);
  }

  /** At `mid` all members so far were confirmed and received; what came after is rolled back. */
  lemma LeftRolledBack(v: View, u: View, v0: Stock, now: Log, mid: Log, was: Log,
                       digest: Content -> Hash, apart: set<Name>)
    requires AllKept(mid, was) && mid.yielded <= now.yielded && now.kept == mid.kept
    requires mid.eraseFailures == was.eraseFailures && mid.removeFailures == was.removeFailures
    requires was.uploads <= mid.uploads
    requires StockOf(u) == Absorb(v0, Taken(mid, was), digest, apart)
    requires RolledBack(v, u, Hanging(now, mid), now.eraseFailures == mid.eraseFailures,
                        now.removeFailures == mid.removeFailures, true)
    ensures Left(StockOf(v), v0, now, was, digest, apart)
  {
    assert Secured(now, was) == Taken(mid, was);
    hide Absorb, Fresh;
  }

  /**
   * When every member of every batch that the API has marked is still listed after a run whose deletes of rows
   * succeeded: if and only if the members of a batch that was marked by a call that raised were all listed before.
   */
  lemma MarkedAreListed(v: Stock, v0: Stock, now: Log, was: Log, digest: Content -> Hash, apart: set<Name>)
    requires Left(v, v0, now, was, digest, apart) && now.kept <= now.marked <= |now.yielded|
    requires now.eraseFailures == was.eraseFailures
    ensures |Secured(now, was)| <= |Marked(now, was)|
    ensures
      var before := Absorb(v0, Secured(now, was), digest, apart).listed.Keys;
      AllListed(Marked(now, was), v.listed.Keys)
      <==> AllListed(Marked(now, was)[|Secured(now, was)|..], before)
  {
    var secured, marked := Secured(now, was), Marked(now, was);
    assert marked == secured + marked[|secured|..];
    AllListedConcat(secured, marked[|secured|..], v.listed.Keys);
    forall i | 0 <= i < |secured|
      ensures secured[i].filename in v.listed.Keys
    {
      FirstIsThere(secured, i);
      AbsorbMeans(v0, secured, digest, apart, secured[i].filename);
    }
  }

  /** It can fail: the API marks a batch of one new member, the call raises, and the cleanup succeeds. */
  lemma MarkedButGone(x: Extracted, digest: Content -> Hash, apart: set<Name>)
    ensures
      var was, none, exn := NOTHING_YET, Stock(map[], map[]), Failure("");
      var now := was.(yielded := [x], uploads := [x.filename], saves := 1, marked := 1,
                      escaped := [Escape(InBatch, exn, 0)]);
      && RaisedBy(now, was, exn, 0) && BatchUndone(now, now, exn, false)
      && Left(none, none, now, was, digest, apart)
      && Marked(now, was) == [x] && !AllListed(Marked(now, was), none.listed.Keys)
  {
    var none := Stock(map[], map[]);
    assert Absorb(none, [], digest, apart) == none;
    var now := NOTHING_YET.(yielded := [x], uploads := [x.filename], saves := 1, marked := 1,
                            escaped := [Escape(InBatch, Failure(""), 0)]);
    assert Taken(now, NOTHING_YET) == [x] && Secured(now, NOTHING_YET) == [];
    assert Marked(now, NOTHING_YET)[0] == x;
  }
}
