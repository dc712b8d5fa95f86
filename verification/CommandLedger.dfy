/** The writer's durable execution ledger. Table functions give each transaction's effect
    on the rows; the class performs them in place. */
module CommandLedger {
  import opened Common
  import opened Authorization

  type Token = nat

  datatype RowState = Preparing | Started | Completed | Retryable | Unknown

  datatype Outcome = Executed | NotExecuted | Pending | Indeterminate | Conflict

  datatype WriteResult = WriteResult(
    outcome: Outcome,
    writtenAt: Option<Time>,
    reason: string,
    retryable: bool,
    replayed: bool)

  datatype Row = Row(
    digest: Digest,
    state: RowState,
    token: Option<Token>,
    result: Option<WriteResult>,
    startedAt: Option<Time>,
    keepUntil: Time)

  type Rows = map<string, Row>

  datatype Claim = Claim(token: Option<Token>, result: Option<WriteResult>)

  predicate Active(state: RowState) {
    state.Preparing? || state.Started?
  }

  /** Exactly the active rows carry a token; exactly the settled rows carry a result. */
  predicate WellFormed(row: Row) {
    && (Active(row.state) <==> row.token.Some?)
    && (Active(row.state) <==> row.result.None?)
  }

  predicate AllWellFormed(rows: Rows) {
    forall id | id in rows :: WellFormed(rows[id])
  }

  predicate Prunable(row: Row, now: Time) {
    !Active(row.state) && row.keepUntil < now
  }

  /** Pruning at this instant leaves the row: its attempt is open or its keep time has not passed. */
  predicate KeptAt(rows: Rows, id: string, now: Time) {
    id in rows && (rows[id].state == Preparing || rows[id].state == Started || now <= rows[id].keepUntil)
  }

  function Prune(rows: Rows, now: Time): Rows {
    map id | id in rows && !Prunable(rows[id], now) :: rows[id]
  }

  function ResultFor(row: Row, digest: Digest): WriteResult
    requires WellFormed(row)
  {
    if row.digest != digest then WriteResult(Conflict, None, "command_id_reused", false, true)
    else if Active(row.state) then WriteResult(Pending, None, "execution_in_progress", false, true)
    else row.result.value.(replayed := true)
  }

  /** What the row says to one who asks after this command: another command holds the id, the
      attempt is still open, or the stored result, marked as told again. */
  predicate Tells(row: Row, digest: Digest, r: WriteResult) {
    && (row.digest != digest ==> r == WriteResult(Conflict, None, "command_id_reused", false, true))
    && (row.digest == digest && (row.state == Preparing || row.state == Started) ==>
          r == WriteResult(Pending, None, "execution_in_progress", false, true))
    && (row.digest == digest && row.state != Preparing && row.state != Started ==>
          row.result.Some? && r == row.result.value.(replayed := true))
  }

  /** A claim is granted for an absent row or for a retryable row of the same command. */
  predicate Claimable(rows: Rows, digest: Digest) {
    var id := digest.of.id;
    id in rows ==> rows[id].digest == digest && rows[id].state == Retryable
  }

  function ClaimedRow(rows: Rows, digest: Digest, retention: Time, now: Time, minted: Token): Row {
    var id := digest.of.id;
    var keep := Max(now, digest.of.deadline) + retention;
    Row(digest, Preparing, Some(minted), None, None, if id in rows then Max(rows[id].keepUntil, keep) else keep)
  }

  function ClaimRows(rows: Rows, digest: Digest, retention: Time, now: Time, minted: Token): Rows {
    if Claimable(rows, digest) then rows[digest.of.id := ClaimedRow(rows, digest, retention, now, minted)] else rows
  }

  predicate Holds(rows: Rows, id: string, token: Token) {
    id in rows && Active(rows[id].state) && rows[id].token == Some(token)
  }

  predicate HoldsStarted(rows: Rows, id: string, token: Token) {
    Holds(rows, id, token) && rows[id].state == Started
  }

  function StartRows(rows: Rows, id: string, token: Token, now: Time): Rows {
    if Holds(rows, id, token) then
      var row := rows[id];
      rows[id := row.(state := Started, startedAt := if row.startedAt.Some? then row.startedAt else Some(now))]
    else rows
  }

  function Settle(row: Row, state: RowState, result: WriteResult, retention: Time, now: Time): Row {
    row.(state := state, token := None, result := Some(result), keepUntil := Max(row.keepUntil, now + retention))
  }

  function CompletedResult(writtenAt: Time): WriteResult {
    WriteResult(Executed, Some(writtenAt), "", false, false)
  }

  function CompleteRows(rows: Rows, id: string, token: Token, writtenAt: Time, retention: Time, now: Time): Rows {
    if HoldsStarted(rows, id, token)
    then rows[id := Settle(rows[id], Completed, CompletedResult(writtenAt), retention, now)]
    else rows
  }

  /** An attempt that started may have acted; one that did not is safe to retry. */
  function FailedResult(started: bool, reason: string): WriteResult {
    WriteResult(if started then Indeterminate else NotExecuted, None, reason, !started, false)
  }

  function FailedRow(row: Row, reason: string, retention: Time, now: Time): Row {
    Settle(row, if row.state == Started then Unknown else Retryable,
           FailedResult(row.state == Started, reason), retention, now)
  }

  function FailRows(rows: Rows, id: string, token: Token, reason: string, retention: Time, now: Time): Rows {
    if Holds(rows, id, token) then rows[id := FailedRow(rows[id], reason, retention, now)] else rows
  }

  function RecoverReason(row: Row): string {
    if row.state == Started then "recovered_after_start" else "recovered_before_write"
  }

  function RecoveredRow(row: Row, retention: Time, now: Time): Row {
    if Active(row.state) then FailedRow(row, RecoverReason(row), retention, now) else row
  }

  /** Startup recovery settles every attempt the previous process left open; `readings`
      holds the clock reading taken for each of those rows. */
  function RecoverRows(rows: Rows, readings: map<string, Time>, retention: Time): Rows
    requires OpenIds(rows) <= readings.Keys
  {
    map id | id in rows :: if Active(rows[id].state) then RecoveredRow(rows[id], retention, readings[id]) else rows[id]
  }

  /** What startup makes of a row, by what the previous process had done. */
  predicate Recovers(was: Row, row: Row) {
    && row.digest == was.digest
    && (was.state == Preparing ==>
          row.state == Retryable && row.result == Some(WriteResult(NotExecuted, None, "recovered_before_write", true, false)))
    && (was.state == Started ==>
          row.state == Unknown && row.result == Some(WriteResult(Indeterminate, None, "recovered_after_start", false, false)))
    && (was.state != Preparing && was.state != Started ==> row == was)
  }

  function OpenIds(rows: Rows): set<string> {
    set id | id in rows && Active(rows[id].state)
  }

  class CommandLedger {
    const retention: Time
    var rows: Rows

    ghost predicate Valid()
      reads this
    {
      retention > 0 && AllWellFormed(rows)
    }

    constructor (retention: Time)
      requires retention > 0
      ensures Valid() && rows == map[] && this.retention == retention
    {
      this.retention := retention;
      rows := map[];
    }

    method DeleteExpired(now: Time)
      requires Valid()
      modifies this`rows
      ensures Valid() && rows == Prune(old(rows), now)
      ensures forall id :: id in rows <==> KeptAt(old(rows), id, now)
    {
      rows := rows - (set id | id in rows && Prunable(rows[id], now));
    }

    method Lookup(digest: Digest, now: Time) returns (result: Option<WriteResult>)
      requires Valid()
      modifies this`rows
      ensures Valid() && rows == Prune(old(rows), now)
      ensures result == if digest.of.id in rows then Some(ResultFor(rows[digest.of.id], digest)) else None
      ensures result.Some? <==> KeptAt(old(rows), digest.of.id, now)
      ensures result.Some? ==> Tells(old(rows)[digest.of.id], digest, result.value)
    {
      DeleteExpired(now);
      if digest.of.id in rows {
        result := Some(ResultFor(rows[digest.of.id], digest));
      } else {
        result := None;
      }
    }

    method ClaimCommand(digest: Digest, pruneAt: Time, now: Time, minted: Token) returns (claim: Claim)
      requires Valid() && pruneAt <= now
      modifies this`rows
      ensures Valid()
      ensures var pruned := Prune(old(rows), pruneAt);
              && rows == ClaimRows(pruned, digest, retention, now, minted)
              && claim == if Claimable(pruned, digest) then Claim(Some(minted), None)
                          else Claim(None, Some(ResultFor(pruned[digest.of.id], digest)))
      ensures var id := digest.of.id;
              claim.token.Some? <==> !KeptAt(old(rows), id, pruneAt)
                                     || (old(rows)[id].digest == digest && old(rows)[id].state == Retryable)
      ensures var id := digest.of.id;
              claim.token.Some? ==>
                && claim == Claim(Some(minted), None)
                && id in rows
                && rows[id].digest == digest && rows[id].state == Preparing
                && rows[id].token == Some(minted) && rows[id].startedAt == None
                && rows[id].keepUntil == (if KeptAt(old(rows), id, pruneAt)
                                          then Max(old(rows)[id].keepUntil, Max(now, digest.of.deadline) + retention)
                                          else Max(now, digest.of.deadline) + retention)
      ensures var id := digest.of.id;
              claim.token.None? ==> id in old(rows) && claim.result.Some? && Tells(old(rows)[id], digest, claim.result.value)
    {
      DeleteExpired(pruneAt);
      var id := digest.of.id;
      if id in rows && (rows[id].digest != digest || rows[id].state != Retryable) {
        return Claim(None, Some(ResultFor(rows[id], digest)));
      }
      var keepUntil := Max(now, digest.of.deadline) + retention;
      if id in rows {
        keepUntil := Max(rows[id].keepUntil, keepUntil);
      }
      rows := rows[id := Row(digest, Preparing, Some(minted), None, None, keepUntil)];
      claim := Claim(Some(minted), None);
    }

    method MarkStarted(id: string, token: Token, now: Time) returns (r: Result<()>)
      requires Valid()
      modifies this`rows
      ensures Valid() && rows == StartRows(old(rows), id, token, now)
      ensures r.Success? <==> id in old(rows) && old(rows)[id].token == Some(token)
      ensures r.Success? ==> && id in rows && rows[id].state == Started && rows[id].token == Some(token)
                             && rows[id].startedAt == (if old(rows)[id].startedAt.Some? then old(rows)[id].startedAt
                                                       else Some(now))
    {
      if id !in rows || rows[id].token != Some(token) || !Active(rows[id].state) {
        return Failure("command claim is no longer active");
      }
      var startedAt := rows[id].startedAt;
      if startedAt == None {
        startedAt := Some(now);
      }
      rows := rows[id := rows[id].(state := Started, startedAt := startedAt)];
      r := Success(());
    }

    method Complete(id: string, token: Token, writtenAt: Time, now: Time) returns (r: Result<WriteResult>)
      requires Valid()
      modifies this`rows
      ensures Valid() && rows == CompleteRows(old(rows), id, token, writtenAt, retention, now)
      ensures r.Success? <==> id in old(rows) && old(rows)[id].token == Some(token) && old(rows)[id].state == Started
      ensures r.Success? ==> && r.value == WriteResult(Executed, Some(writtenAt), "", false, false)
                             && id in rows && rows[id].state == Completed && rows[id].result == Some(r.value)
                             && rows[id].keepUntil == Max(old(rows)[id].keepUntil, now + retention)
    {
      if id !in rows || rows[id].token != Some(token) || rows[id].state != Started {
        return Failure("command completion has no active initiation record");
      }
      var result := WriteResult(Executed, Some(writtenAt), "", false, false);
      rows := rows[id := rows[id].(state := Completed, token := None, result := Some(result),
                                   keepUntil := Max(rows[id].keepUntil, now + retention))];
      r := Success(result);
    }

    method Fail(id: string, token: Token, reason: string, now: Time) returns (r: Result<WriteResult>)
      requires Valid()
      modifies this`rows
      ensures Valid() && rows == FailRows(old(rows), id, token, reason, retention, now)
      ensures r.Success? <==> id in old(rows) && old(rows)[id].token == Some(token)
      ensures r.Success? && old(rows)[id].state == Preparing ==>
                r.value == WriteResult(NotExecuted, None, reason, true, false) && id in rows && rows[id].state == Retryable
      ensures r.Success? && old(rows)[id].state == Started ==>
                r.value == WriteResult(Indeterminate, None, reason, false, false) && id in rows && rows[id].state == Unknown
      ensures r.Success? ==> && id in rows && rows[id].result == Some(r.value)
                             && rows[id].keepUntil == Max(old(rows)[id].keepUntil, now + retention)
    {
      if id !in rows || rows[id].token != Some(token) || !Active(rows[id].state) {
        return Failure("command claim is no longer active");
      }
      var started := rows[id].state == Started;
      var result := WriteResult(if started then Indeterminate else NotExecuted, None, reason, !started, false);
      rows := rows[id := rows[id].(state := if started then Unknown else Retryable, token := None,
                                   result := Some(result), keepUntil := Max(rows[id].keepUntil, now + retention))];
      r := Success(result);
    }

    method Recover(readings: map<string, Time>, pruneAt: Time)
      requires Valid() && OpenIds(rows) <= readings.Keys
      modifies this`rows
      ensures Valid() && rows == Prune(RecoverRows(old(rows), readings, retention), pruneAt)
    {
      ghost var was := rows;
      var todo := set id | id in rows && Active(rows[id].state);
      while todo != {}
        invariant Valid()
        invariant todo <= OpenIds(was) && rows.Keys == was.Keys
        invariant forall id | id in rows ::
          rows[id] == if id in todo || !Active(was[id].state) then was[id]
                      else RecoveredRow(was[id], retention, readings[id])
        decreases todo
      {
        var id :| id in todo;
        var started := rows[id].state == Started;
        var result := WriteResult(if started then Indeterminate else NotExecuted, None,
                                  if started then "recovered_after_start" else "recovered_before_write",
                                  !started, false);
        rows := rows[id := rows[id].(state := if started then Unknown else Retryable, token := None,
                                     result := Some(result),
                                     keepUntil := Max(rows[id].keepUntil, readings[id] + retention))];
        todo := todo - {id};
      }
      assert rows == RecoverRows(was, readings, retention);
      DeleteExpired(pruneAt);
    }
  }
}
