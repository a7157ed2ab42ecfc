/** The domain entity DownloadTask: its row, its guarded methods and what they can make of a row. */
module Tasks {
  import opened Basics

  datatype Status = Pending | Running | Success | Failed | Blocked

  /** One row of download_tasks, which is also the state of a DownloadTask in memory. */
  datatype Row = Row(
    status: Status,
    received: int,
    processed: int,
    error: Option<string>,
    startedAt: Option<Time>,
    finishedAt: Option<Time>,
    workerId: Option<string>,
    lastHeartbeat: Option<Time>,
    attempts: int,
    blockedUntil: Option<Time>,
    blockReason: Option<string>)

  const NEW_ROW := Row(Pending, 0, 0, None, None, None, None, None, 0, None, None)

  function StatusName(s: Status): string {
    match s
    case Pending => "PENDING"
    case Running => "RUNNING"
    case Success => "SUCCESS"
    case Failed => "FAILED"
    case Blocked => "BLOCKED"
  }

  /** The exceptions the handler can meet: a block by the API, the entity's own guards, anything else. */
  datatype Exn =
    | ApiBlocked(retryAfter: int, text: string)
    | TaskNotRunning(id: TaskId, status: Status)
    | InvalidTransition(from: Status, to: Status)
    | Failure(text: string)
  {
    /** str(exception) */
    function Text(): string {
      match this
      case ApiBlocked(_, text) => text
      case TaskNotRunning(id, s) => "Download task " + id.text + " is in status " + StatusName(s) + ", expected RUNNING"
      case InvalidTransition(a, b) => "Cannot transition DownloadTask from " + StatusName(a) + " to " + StatusName(b)
      case Failure(text) => text
    }
  }

  /** How a call ended: normally, or by raising. */
  datatype Outcome = Ok | Raised(exn: Exn)

  predicate CountersOk(r: Row) {
    0 <= r.processed <= r.received
  }

  predicate Terminal(s: Status) {
    s == Success || s == Failed
  }

  /** The heartbeat stamp may stay or move forward, never past now. */
  predicate BeatMoves(a: Option<Time>, b: Option<Time>, now: Time) {
    b == a || (b.Some? && b.value <= now && (a.Some? ==> a.value <= b.value))
  }

  /**
   * What the guarded methods, called in any order and number up to time `now`, may make of row `a` before it
   * is handed to the repository. A RUNNING row may stay RUNNING, or be closed once; a PENDING row can only
   * fail; a closed row can no longer change.
   */
  predicate Evolves(a: Row, b: Row, now: Time) {
    && b.attempts == a.attempts && b.workerId == a.workerId && b.startedAt == a.startedAt
    && CountersOk(b)
    && (a.status == Running || (a.status == Pending && b.status == Failed))
    && BeatMoves(a.lastHeartbeat, b.lastHeartbeat, now)
    && match b.status
       case Pending => false
       case Running =>
         b.finishedAt == a.finishedAt && b.error == a.error
         && b.blockedUntil == a.blockedUntil && b.blockReason == a.blockReason
       case Success =>
         b.finishedAt.Some? && b.error == a.error
         && b.blockedUntil == a.blockedUntil && b.blockReason == a.blockReason
       case Failed =>
         b.finishedAt.Some? && b.error.Some?
         && b.blockedUntil == a.blockedUntil && b.blockReason == a.blockReason
       case Blocked =>
         b.finishedAt == a.finishedAt && b.error.Some? && b.blockedUntil.Some? && b.blockReason.Some?
  }

  class DownloadTask {
    const id: TaskId
    var status: Status
    var received: int
    var processed: int
    var error: Option<string>
    var startedAt: Option<Time>
    var finishedAt: Option<Time>
    var workerId: Option<string>
    var lastHeartbeat: Option<Time>
    var attempts: int
    var blockedUntil: Option<Time>
    var blockReason: Option<string>

    function ToRow(): Row
      reads this
    {
      Row(status, received, processed, error, startedAt, finishedAt, workerId, lastHeartbeat, attempts,
          blockedUntil, blockReason)
    }

    constructor FromRow(id: TaskId, row: Row)
      ensures this.id == id && ToRow() == row
    {
      this.id := id;
      status, received, processed, error := row.status, row.received, row.processed, row.error;
      startedAt, finishedAt, workerId := row.startedAt, row.finishedAt, row.workerId;
      lastHeartbeat, attempts := row.lastHeartbeat, row.attempts;
      blockedUntil, blockReason := row.blockedUntil, row.blockReason;
    }

    method Heartbeat(now: Time) returns (o: Outcome)
      modifies this
      ensures old(status) == Running ==> o == Ok && ToRow() == old(ToRow()).(lastHeartbeat := Some(now))
      ensures old(status) != Running ==> o == Raised(TaskNotRunning(id, status)) && ToRow() == old(ToRow())
    {
      if status != Running {
        return Raised(TaskNotRunning(id, status));
      }
      lastHeartbeat := Some(now);
      o := Ok;
    }

    method IncreaseReceived(count: int) returns (o: Outcome)
      modifies this
      ensures old(status) == Running ==> o == Ok && ToRow() == old(ToRow()).(received := old(received) + count)
      ensures old(status) != Running ==> o == Raised(TaskNotRunning(id, status)) && ToRow() == old(ToRow())
    {
      if status != Running {
        return Raised(TaskNotRunning(id, status));
      }
      received := received + count;
      o := Ok;
    }

    /** Unguarded, and clamped at zero. */
    method DecreaseReceived(count: int)
      modifies this
      ensures ToRow() == old(ToRow()).(received := Max(0, old(received) - count))
    {
      received := Max(0, received - count);
    }

    method IncreaseProcessed(count: int) returns (o: Outcome)
      modifies this
      ensures old(status) == Running ==> o == Ok && ToRow() == old(ToRow()).(processed := old(processed) + count)
      ensures old(status) != Running ==> o == Raised(TaskNotRunning(id, status)) && ToRow() == old(ToRow())
    {
      if status != Running {
        return Raised(TaskNotRunning(id, status));
      }
      processed := processed + count;
      o := Ok;
    }

    method Complete(now: Time) returns (o: Outcome)
      modifies this
      ensures old(status) == Running ==>
                o == Ok && ToRow() == old(ToRow()).(status := Success, finishedAt := Some(now))
      ensures old(status) != Running ==> o == Raised(InvalidTransition(status, Success)) && ToRow() == old(ToRow())
    {
      if status != Running {
        return Raised(InvalidTransition(status, Success));
      }
      status := Success;
      finishedAt := Some(now);
      o := Ok;
    }

    method Fail(message: string, now: Time) returns (o: Outcome)
      modifies this
      ensures old(status) in {Pending, Running} ==>
                o == Ok
                && ToRow() == old(ToRow()).(status := Failed, error := Some(message), finishedAt := Some(now))
      ensures old(status) !in {Pending, Running} ==>
                o == Raised(InvalidTransition(status, Failed)) && ToRow() == old(ToRow())
    {
      if status !in {Pending, Running} {
        return Raised(InvalidTransition(status, Failed));
      }
      status := Failed;
      error := Some(message);
      finishedAt := Some(now);
      o := Ok;
    }

    method Block(retryAfter: int, reason: string, now: Time) returns (o: Outcome)
      modifies this
      ensures old(status) == Running ==>
                o == Ok
                && ToRow() == old(ToRow()).(status := Blocked,
                                            blockedUntil := Some(now + retryAfter * SECOND),
                                            blockReason := Some(reason),
                                            error := Some(BlockError(reason)))
      ensures old(status) != Running ==> o == Raised(TaskNotRunning(id, status)) && ToRow() == old(ToRow())
    {
      if status != Running {
        return Raised(TaskNotRunning(id, status));
      }
      status := Blocked;
      blockedUntil := Some(now + retryAfter * SECOND);
      blockReason := Some(reason);
      error := Some(BlockError(reason));
      o := Ok;
    }
  }

  function BlockError(reason: string): string {
    if reason != "" then "External API block: " + reason else "External API block"
  }

  lemma StatusNames()
    ensures StatusName(Pending) == "PENDING" && StatusName(Running) == "RUNNING" && StatusName(Success) == "SUCCESS"
    ensures StatusName(Failed) == "FAILED" && StatusName(Blocked) == "BLOCKED"
  {
  }

  /** What str() makes of the exceptions a failed task can carry. */
  lemma ErrorTexts(text: string, seconds: int, name: string, a: Status, b: Status)
    ensures Failure(text).Text() == text && ApiBlocked(seconds, text).Text() == text
    ensures TaskNotRunning(TaskId(name), a).Text() ==
            "Download task " + name + " is in status " + StatusName(a) + ", expected RUNNING"
    ensures InvalidTransition(a, b).Text() ==
            "Cannot transition DownloadTask from " + StatusName(a) + " to " + StatusName(b)
  {
    hide StatusName;
  }
}
