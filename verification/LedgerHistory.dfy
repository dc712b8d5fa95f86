/** What the ledger forgets and what it must not: the table together with every
    initiation it ever recorded, under claims, starts, settlements, recovery and pruning. */
module LedgerHistory {
  import opened Common
  import opened Authorization
  import opened CommandLedger

  /** One passage of an attempt from preparing to started. */
  datatype Start = Start(digest: Digest, token: Token, at: Time)

  datatype Grant = Grant(digest: Digest, at: Time)

  datatype History = History(clock: Time, rows: Rows, starts: seq<Start>, grants: map<Token, Grant>)

  const EMPTY := History(0, map[], [], map[])

  /** The attempt was granted while its approval could still pass. */
  predicate InTime(h: History, token: Token) {
    token in h.grants && h.grants[token].at <= h.grants[token].digest.of.deadline
  }

  // ----- the transactions -----

  function Advance(h: History, now: Time): History {
    h.(clock := Max(h.clock, now))
  }

  function PruneStep(h: History, now: Time): History {
    h.(clock := now, rows := Prune(h.rows, now))
  }

  function ClaimStep(h: History, digest: Digest, retention: Time, pruneAt: Time, now: Time, minted: Token): History {
    var pruned := Prune(h.rows, pruneAt);
    h.(clock := now,
       rows := ClaimRows(pruned, digest, retention, now, minted),
       grants := if Claimable(pruned, digest) then h.grants[minted := Grant(digest, now)] else h.grants)
  }

  predicate Initiates(rows: Rows, id: string, token: Token) {
    Holds(rows, id, token) && rows[id].state == Preparing
  }

  function MarkStep(h: History, id: string, token: Token, now: Time): History {
    h.(clock := now,
       rows := StartRows(h.rows, id, token, now),
       starts := if Initiates(h.rows, id, token) then h.starts + [Start(h.rows[id].digest, token, now)] else h.starts)
  }

  function CompleteStep(h: History, id: string, token: Token, writtenAt: Time, retention: Time, now: Time): History {
    h.(clock := now, rows := CompleteRows(h.rows, id, token, writtenAt, retention, now))
  }

  function FailStep(h: History, id: string, token: Token, reason: string, retention: Time, now: Time): History {
    h.(clock := now, rows := FailRows(h.rows, id, token, reason, retention, now))
  }

  predicate ReadingsFit(h: History, readings: map<string, Time>, now: Time) {
    && OpenIds(h.rows) <= readings.Keys
    && forall id | id in readings :: h.clock <= readings[id] <= now
  }

  function RecoverStep(h: History, readings: map<string, Time>, retention: Time, now: Time): History
    requires ReadingsFit(h, readings, now)
  {
    h.(clock := now, rows := Prune(RecoverRows(h.rows, readings, retention), now))
  }

  // ----- the invariant -----

  ghost predicate RowInv(h: History, id: string, retention: Time)
    requires id in h.rows
  {
    var row := h.rows[id];
    && WellFormed(row)
    && row.digest.of.id == id
    && row.keepUntil >= row.digest.of.deadline + retention
    && (row.token.Some? ==> row.token.value in h.grants && h.grants[row.token.value].digest == row.digest)
    && (row.state == Completed ==>
          row.result.value.outcome == Executed && row.result.value.writtenAt.Some? && !row.result.value.retryable)
    && (row.state == Retryable ==> row.result.value.outcome == NotExecuted && row.result.value.retryable)
    && (row.state == Unknown ==> row.result.value.outcome == Indeterminate && !row.result.value.retryable)
  }

  ghost predicate RowsInv(h: History, retention: Time) {
    forall id | id in h.rows :: RowInv(h, id, retention)
  }

  /** The row still stands between this initiation and another attempt. */
  predicate Shields(row: Row, s: Start, retention: Time) {
    && row.digest == s.digest
    && match row.state
       case Started => row.token == Some(s.token)
       case Completed => row.keepUntil >= s.at + retention
       case Unknown => row.keepUntil >= s.at + retention
       case Preparing => false
       case Retryable => false
  }

  predicate Shielded(rows: Rows, s: Start, retention: Time) {
    var id := s.digest.of.id;
    id in rows && Shields(rows[id], s, retention)
  }

  /** Pruned history is safe history: nobody can still be let in by this command's deadline. */
  predicate Outlived(h: History, s: Start, retention: Time) {
    h.clock > s.digest.of.deadline + retention && h.clock > s.at + retention
  }

  ghost predicate Remembered(h: History, retention: Time) {
    forall s | s in h.starts :: Shielded(h.rows, s, retention) || Outlived(h, s, retention)
  }

  ghost predicate PreparingIsFirst(h: History) {
    forall id, s | id in h.rows && s in h.starts && h.rows[id].state == Preparing
                   && h.rows[id].token.Some? && InTime(h, h.rows[id].token.value) :: s.digest != h.rows[id].digest
  }

  ghost predicate StartedIsRecorded(h: History) {
    forall id | id in h.rows && h.rows[id].state == Started ::
      exists s :: s in h.starts && s.digest == h.rows[id].digest && Some(s.token) == h.rows[id].token
  }

  ghost predicate StartsGranted(h: History) {
    forall s | s in h.starts :: s.at <= h.clock && InTime(h, s.token) && h.grants[s.token].digest == s.digest
  }

  /** No command is initiated twice, ever. */
  ghost predicate StartedOnce(h: History) {
    forall i, j | 0 <= i < j < |h.starts| :: h.starts[i].digest != h.starts[j].digest
  }

  /** Different commands under one id are initiated more than the retention apart. */
  ghost predicate ReuseIsLate(h: History, retention: Time) {
    forall i, j | 0 <= i < j < |h.starts| && h.starts[i].digest.of.id == h.starts[j].digest.of.id ::
      h.starts[i].at + retention < h.starts[j].at
  }

  ghost predicate Inv(h: History, retention: Time) {
    && retention > 0
    && RowsInv(h, retention)
    && (forall t | t in h.grants :: h.grants[t].at <= h.clock)
    && Remembered(h, retention)
    && PreparingIsFirst(h)
    && StartedIsRecorded(h)
    && StartsGranted(h)
    && StartedOnce(h)
    && ReuseIsLate(h, retention)
  }

  // ----- every transaction keeps it -----

  lemma AdvanceKeepsInv(h: History, now: Time, retention: Time)
    requires Inv(h, retention)
    ensures Inv(Advance(h, now), retention)
  {
    var n := Advance(h, now);
    forall id | id in n.rows ensures RowInv(n, id, retention) { assert RowInv(h, id, retention); }
  }

  lemma PruneKeepsInv(h: History, now: Time, retention: Time)
    requires Inv(h, retention) && h.clock <= now
    ensures Inv(PruneStep(h, now), retention)
  {
    var n := PruneStep(h, now);
    forall id | id in n.rows ensures RowInv(n, id, retention) { assert RowInv(h, id, retention); }
    forall s | s in n.starts ensures Shielded(n.rows, s, retention) || Outlived(n, s, retention) {
      var id := s.digest.of.id;
      if Shielded(h.rows, s, retention) { assert RowInv(h, id, retention); }
    }
  }

  lemma ClaimKeepsInv(h: History, digest: Digest, retention: Time, pruneAt: Time, now: Time, minted: Token)
    requires Inv(h, retention) && h.clock <= pruneAt <= now && minted !in h.grants
    ensures Inv(ClaimStep(h, digest, retention, pruneAt, now, minted), retention)
  {
    var p := PruneStep(h, pruneAt);
    PruneKeepsInv(h, pruneAt, retention);
    var n := ClaimStep(h, digest, retention, pruneAt, now, minted);
    var id := digest.of.id;
    if Claimable(p.rows, digest) {
      forall k | k in n.rows ensures RowInv(n, k, retention) {
        if k != id { assert RowInv(p, k, retention); }
      }
      forall s | s in n.starts ensures Shielded(n.rows, s, retention) || Outlived(n, s, retention) {
        assert Shielded(p.rows, s, retention) || Outlived(p, s, retention);
        assert s.digest.of.id == id ==> !Shielded(p.rows, s, retention);
      }
      ClaimedRowIsFirst(p, n, digest, minted, retention);
      forall k, s | k in n.rows && s in n.starts && n.rows[k].state == Preparing
                   && n.rows[k].token.Some? && InTime(n, n.rows[k].token.value)
        ensures s.digest != n.rows[k].digest
      {
        if k != id {
          assert RowInv(p, k, retention);
          assert InTime(p, p.rows[k].token.value);
        }
      }
      forall k | k in n.rows && n.rows[k].state == Started
        ensures exists s :: s in n.starts && s.digest == n.rows[k].digest && Some(s.token) == n.rows[k].token
      {
        assert p.rows[k].state == Started;
      }
    } else {
      assert n == Advance(p, now);
      AdvanceKeepsInv(p, now, retention);
    }
  }

  /** A grant in time meets no earlier initiation: its row would still be there. */
  lemma ClaimedRowIsFirst(p: History, n: History, digest: Digest, minted: Token, retention: Time)
    requires Inv(p, retention) && Claimable(p.rows, digest)
    requires n.starts == p.starts && p.clock <= n.clock
    requires n.grants == p.grants[minted := Grant(digest, n.clock)]
    ensures InTime(n, minted) ==> forall s | s in n.starts :: s.digest != digest
  {
    forall s | s in n.starts
      ensures InTime(n, minted) ==> s.digest != digest
    {
      assert Shielded(p.rows, s, retention) || Outlived(p, s, retention);
    }
  }

  lemma MarkKeepsInv(h: History, id: string, token: Token, now: Time, retention: Time)
    requires Inv(h, retention) && h.clock <= now && InTime(h, token)
    ensures Inv(MarkStep(h, id, token, now), retention)
  {
    var n := MarkStep(h, id, token, now);
    forall k | k in n.rows ensures RowInv(n, k, retention) { assert RowInv(h, k, retention); }
    if Initiates(h.rows, id, token) {
      InitiationKeepsInv(h, id, token, now, retention);
    } else {
      forall s | s in n.starts ensures Shielded(n.rows, s, retention) || Outlived(n, s, retention) {
        assert Shielded(h.rows, s, retention) || Outlived(h, s, retention);
      }
      forall k | k in n.rows && n.rows[k].state == Started
        ensures exists s :: s in n.starts && s.digest == n.rows[k].digest && Some(s.token) == n.rows[k].token
      {
        assert h.rows[k].state == Started;
      }
    }
  }

  lemma InitiationKeepsInv(h: History, id: string, token: Token, now: Time, retention: Time)
    requires Inv(h, retention) && h.clock <= now && InTime(h, token) && Initiates(h.rows, id, token)
    ensures var n := MarkStep(h, id, token, now);
            Remembered(n, retention) && PreparingIsFirst(n) && StartedIsRecorded(n) && StartsGranted(n)
            && StartedOnce(n) && ReuseIsLate(n, retention)
  {
    var n := MarkStep(h, id, token, now);
    var added := Start(h.rows[id].digest, token, now);
    assert RowInv(h, id, retention);
    forall s | s in h.starts && s.digest.of.id == id
      ensures s.digest != added.digest && Outlived(h, s, retention)
    {
      assert Shielded(h.rows, s, retention) || Outlived(h, s, retention);
    }
    forall s | s in n.starts ensures Shielded(n.rows, s, retention) || Outlived(n, s, retention) {
      if s in h.starts {
        assert Shielded(h.rows, s, retention) || Outlived(h, s, retention);
      } else {
        assert s == added;
      }
    }
    forall k, s | k in n.rows && s in n.starts && n.rows[k].state == Preparing
                   && n.rows[k].token.Some? && InTime(n, n.rows[k].token.value)
      ensures s.digest != n.rows[k].digest
    {
      assert k != id && RowInv(h, k, retention);
    }
    forall k | k in n.rows && n.rows[k].state == Started
      ensures exists s :: s in n.starts && s.digest == n.rows[k].digest && Some(s.token) == n.rows[k].token
    {
      if k == id {
        assert added in n.starts;
      } else {
        var s :| s in h.starts && s.digest == h.rows[k].digest && Some(s.token) == h.rows[k].token;
        assert s in n.starts;
      }
    }
    forall i, j | 0 <= i < j < |n.starts| && n.starts[i].digest.of.id == n.starts[j].digest.of.id
      ensures n.starts[i].digest != n.starts[j].digest && n.starts[i].at + retention < n.starts[j].at
    {
      if j == |h.starts| {
        assert n.starts[i] == h.starts[i] && h.starts[i] in h.starts;
      }
    }
  }

  /** Replacing active rows by settled rows of the same command keeps the invariant. */
  lemma SettlingKeepsInv(h: History, n: History, retention: Time)
    requires Inv(h, retention)
    requires h.clock <= n.clock && n.starts == h.starts && n.grants == h.grants && n.rows.Keys == h.rows.Keys
    requires forall id | id in h.rows ::
      n.rows[id] == h.rows[id] || (RowInv(n, id, retention) && SettledBy(h.rows[id], n.rows[id], h.clock + retention))
    ensures Inv(n, retention)
  {
    forall id | id in n.rows ensures RowInv(n, id, retention) { assert RowInv(h, id, retention); }
    forall s | s in n.starts ensures Shielded(n.rows, s, retention) || Outlived(n, s, retention) {
      assert Shielded(h.rows, s, retention) || Outlived(h, s, retention);
    }
    forall id | id in n.rows && n.rows[id].state == Started
      ensures exists s :: s in n.starts && s.digest == n.rows[id].digest && Some(s.token) == n.rows[id].token
    {
      assert h.rows[id].state == Started;
    }
  }

  predicate SettledBy(before: Row, after: Row, keep: Time) {
    && after.digest == before.digest
    && after.keepUntil >= keep
    && after.keepUntil >= before.keepUntil
    && match before.state
       case Preparing => after.state == Retryable
       case Started => after.state == Completed || after.state == Unknown
       case _ => false
  }

  lemma CompleteKeepsInv(h: History, id: string, token: Token, writtenAt: Time, retention: Time, now: Time)
    requires Inv(h, retention) && h.clock <= now
    ensures Inv(CompleteStep(h, id, token, writtenAt, retention, now), retention)
  {
    if id in h.rows { assert RowInv(h, id, retention); }
    SettlingKeepsInv(h, CompleteStep(h, id, token, writtenAt, retention, now), retention);
  }

  lemma FailKeepsInv(h: History, id: string, token: Token, reason: string, retention: Time, now: Time)
    requires Inv(h, retention) && h.clock <= now
    ensures Inv(FailStep(h, id, token, reason, retention, now), retention)
  {
    if id in h.rows { assert RowInv(h, id, retention); }
    SettlingKeepsInv(h, FailStep(h, id, token, reason, retention, now), retention);
  }

  lemma RecoverKeepsInv(h: History, readings: map<string, Time>, retention: Time, now: Time)
    requires Inv(h, retention) && h.clock <= now && ReadingsFit(h, readings, now)
    ensures Inv(RecoverStep(h, readings, retention, now), retention)
  {
    var n := h.(clock := now, rows := RecoverRows(h.rows, readings, retention));
    forall id | id in h.rows && n.rows[id] != h.rows[id]
      ensures RowInv(n, id, retention) && SettledBy(h.rows[id], n.rows[id], h.clock + retention)
    {
      assert RowInv(h, id, retention) && id in OpenIds(h.rows);
    }
    SettlingKeepsInv(h, n, retention);
    PruneKeepsInv(n, now, retention);
  }

  /** Recovery leaves no attempt open, so no token of the previous process stays usable; each row
      still within its keep time says whether its attempt had started, and can be claimed if not. */
  lemma RecoveryClosesEveryAttempt(h: History, readings: map<string, Time>, retention: Time, now: Time)
    requires ReadingsFit(h, readings, now) && retention > 0
    ensures var rows := RecoverStep(h, readings, retention, now).rows;
            && OpenIds(rows) == {}
            && (forall id | id in rows :: id in h.rows && Recovers(h.rows[id], rows[id]))
            && (forall id | id in h.rows && now <= h.rows[id].keepUntil :: id in rows)
  {
    forall id | id in RecoverStep(h, readings, retention, now).rows
      ensures !Active(RecoverStep(h, readings, retention, now).rows[id].state)
    {
    }
  }

  // ----- a row outlives every claim of its command -----

  /** Whenever this command was granted, its row is kept for the retention from then on. */
  ghost predicate KeptFromGrants(h: History, retention: Time) {
    forall id, t | id in h.rows && t in h.grants && h.grants[t].digest == h.rows[id].digest ::
      h.rows[id].keepUntil >= h.grants[t].at + retention
  }

  lemma AdvancesKeepGrants(h: History, now: Time, retention: Time)
    requires KeptFromGrants(h, retention)
    ensures KeptFromGrants(Advance(h, now), retention) && KeptFromGrants(PruneStep(h, now), retention)
    ensures forall id, token :: KeptFromGrants(MarkStep(h, id, token, now), retention)
  {
  }

  lemma ClaimKeepsGrants(h: History, digest: Digest, retention: Time, pruneAt: Time, now: Time, minted: Token)
    requires KeptFromGrants(h, retention) && minted !in h.grants
    requires h.clock <= pruneAt <= now && forall t | t in h.grants :: h.grants[t].at <= h.clock
    requires forall id | id in h.rows :: h.rows[id].digest.of.id == id
    ensures KeptFromGrants(ClaimStep(h, digest, retention, pruneAt, now, minted), retention)
  {
  }

  lemma SettlementsKeepGrants(h: History, id: string, token: Token, retention: Time, now: Time)
    requires KeptFromGrants(h, retention)
    ensures forall writtenAt :: KeptFromGrants(CompleteStep(h, id, token, writtenAt, retention, now), retention)
    ensures forall reason :: KeptFromGrants(FailStep(h, id, token, reason, retention, now), retention)
  {
  }

  lemma RecoverKeepsGrants(h: History, readings: map<string, Time>, retention: Time, now: Time)
    requires KeptFromGrants(h, retention) && ReadingsFit(h, readings, now)
    ensures KeptFromGrants(RecoverStep(h, readings, retention, now), retention)
  {
    forall id | id in h.rows && Active(h.rows[id].state) ensures id in readings {
      assert id in OpenIds(h.rows);
    }
  }

  // ----- a command id stays bound while its row is kept -----

  /** Every row still kept at the later clock has its command, no earlier expiry, and, once
      settled for good, the very same content. */
  ghost predicate Binds(h: History, n: History) {
    && h.clock <= n.clock
    && forall id | id in h.rows && h.rows[id].keepUntil >= n.clock ::
         && id in n.rows
         && n.rows[id].digest == h.rows[id].digest
         && n.rows[id].keepUntil >= h.rows[id].keepUntil
         && (h.rows[id].state == Completed || h.rows[id].state == Unknown ==> n.rows[id] == h.rows[id])
  }

  lemma BindsTransitively(a: History, b: History, c: History)
    requires Binds(a, b) && Binds(b, c)
    ensures Binds(a, c)
  {
  }

  lemma TransactionsBind(h: History, now: Time)
    requires h.clock <= now
    ensures Binds(h, h) && Binds(h, Advance(h, now)) && Binds(h, PruneStep(h, now))
    ensures forall id, token :: Binds(h, MarkStep(h, id, token, now))
  {
  }

  lemma ClaimBinds(h: History, digest: Digest, retention: Time, pruneAt: Time, now: Time, minted: Token)
    requires h.clock <= pruneAt <= now
    ensures Binds(h, ClaimStep(h, digest, retention, pruneAt, now, minted))
  {
  }

  lemma SettlementsBind(h: History, id: string, token: Token, retention: Time, now: Time)
    requires h.clock <= now
    ensures forall writtenAt :: Binds(h, CompleteStep(h, id, token, writtenAt, retention, now))
    ensures forall reason :: Binds(h, FailStep(h, id, token, reason, retention, now))
  {
  }

  lemma RecoverBinds(h: History, readings: map<string, Time>, retention: Time, now: Time)
    requires h.clock <= now && ReadingsFit(h, readings, now)
    ensures Binds(h, RecoverStep(h, readings, retention, now))
  {
    forall id | id in h.rows && Active(h.rows[id].state) ensures id in readings {
      assert id in OpenIds(h.rows);
    }
  }
}
