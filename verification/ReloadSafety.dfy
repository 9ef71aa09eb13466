/** Reload can crash after any of its writes, any number of times, without changing where it ends. */
module ReloadSafety {
  import opened Prelude
  import opened Governor
  import opened Storage
  import opened Runs

  /** Both tables lead a completed reload to the same tables and to the same live runs. */
  ghost predicate SameRecovery(t: Tables, t': Tables) {
    && t'.checkpoints == t.checkpoints && t'.ledger == t.ledger && t'.steps == t.steps
    && t'.runs.Keys == t.runs.Keys
    && ReloadedTables(t', {}) == ReloadedTables(t, {})
    && (forall id | id in t.runs ::
          && t'.runs[id].status == t.runs[id].status
          && (forall at: Instant :: Restored(t'.checkpoints, t'.runs[id], at) == Restored(t.checkpoints, t.runs[id], at)))
  }

  /** Row by row, some rows settled and the others untouched. */
  ghost predicate PartlySettled(t: Tables, t': Tables) {
    && t' == t.(runs := t'.runs) && t'.runs.Keys == t.runs.Keys
    && (forall id | id in t.runs ::
          || t'.runs[id] == t.runs[id]
          || (t.runs[id].status == StatusRunning && t'.runs[id] == SettledRow(t.checkpoints, t.runs[id])))
  }

  /** A settled row restores to what the row it replaced restores to, and settles to itself. */
  lemma SettledRestoresAlike(cps: seq<CheckpointRecord>, rec: RunRecord, at: Instant)
    requires rec.status == StatusRunning
    ensures Restored(cps, SettledRow(cps, rec), at) == Restored(cps, rec, at)
    ensures SettledRow(cps, SettledRow(cps, rec)) == SettledRow(cps, rec)
    ensures SettledRow(cps, rec).status == StatusRunning
    ensures !RollsBack(cps, SettledRow(cps, rec))
  {
  }

  lemma PartlySettledRecovers(t: Tables, t': Tables)
    requires PartlySettled(t, t')
    ensures SameRecovery(t, t')
  {
    forall id | id in t.runs
      ensures ReloadedTables(t', {}).runs[id] == ReloadedTables(t, {}).runs[id]
      ensures t'.runs[id].status == t.runs[id].status
      ensures forall at: Instant :: Restored(t'.checkpoints, t'.runs[id], at) == Restored(t.checkpoints, t.runs[id], at)
    {
      if t.runs[id].status == StatusRunning {
        forall at: Instant { SettledRestoresAlike(t.checkpoints, t.runs[id], at); }
      }
    }
    assert ReloadedTables(t', {}).runs == ReloadedTables(t, {}).runs;
  }

  lemma {:induction false} WritesPartlySettle(t: Tables, ws: seq<Write>, now: Instant)
    requires Keyed(t) && ReloadWrites(t, ws, now)
    ensures PartlySettled(t, ApplyAll(t, ws))
  {
    if ws != [] {
      var w := ws[|ws| - 1];
      WritesPartlySettle(t, ws[..|ws| - 1], now);
      assert ReloadWrite(t, w, now);
      var cur := ApplyAll(t, ws[..|ws| - 1]);
      var rec := t.runs[w.run.id];
      assert cur.runs[rec.id].createdAt == rec.createdAt && cur.runs[rec.id].policyRef == rec.policyRef;
      assert UpsertedRun(cur, w.run) == SettledRow(t.checkpoints, rec);
    }
  }

  /** Each attempt makes some writes of a reload of the tables it found, then crashes. */
  ghost predicate Attempts(t: Tables, attempts: seq<seq<Write>>, nows: seq<Instant>)
    requires |attempts| == |nows|
    decreases |attempts|
  {
    attempts == [] || (
      && ReloadWrites(t, attempts[0], nows[0])
      && Attempts(ApplyAll(t, attempts[0]), attempts[1..], nows[1..]))
  }

  function AfterAttempts(t: Tables, attempts: seq<seq<Write>>): Tables
    decreases |attempts|
  {
    if attempts == [] then t else AfterAttempts(ApplyAll(t, attempts[0]), attempts[1..])
  }

  /**
   Crash inside Reload wherever and as often as you like: a reload that then completes
   leaves the same tables and the same governors as one that was never interrupted.
   */
  lemma {:induction false} ReloadIsIdempotent(t: Tables, attempts: seq<seq<Write>>, nows: seq<Instant>)
    requires Keyed(t) && |attempts| == |nows| && Attempts(t, attempts, nows)
    ensures SameRecovery(t, AfterAttempts(t, attempts))
    decreases |attempts|
  {
    if attempts != [] {
      var t1 := ApplyAll(t, attempts[0]);
      WritesPartlySettle(t, attempts[0], nows[0]);
      PartlySettledRecovers(t, t1);
      ReloadIsIdempotent(t1, attempts[1..], nows[1..]);
    }
  }

  /**
   Crash after any k of the writes `ws` that Manager.Reload adds to the journal: the restart that
   then reloads ends up where the interrupted reload would have, in tables and in governors.
   */
  lemma CrashedReloadRecovers(t: Tables, ws: seq<Write>, k: nat, now: Instant)
    requires Keyed(t) && ReloadWrites(t, ws, now) && k <= |ws|
    ensures SameRecovery(t, ApplyAll(t, ws[..k]))
    ensures SameRecovery(ApplyAll(t, ws[..k]), ApplyAll(t, ws))
  {
    WritesPartlySettle(t, ws[..k], now);
    PartlySettledRecovers(t, ApplyAll(t, ws[..k]));
    WritesPartlySettle(t, ws, now);
    PartlySettledRecovers(t, ApplyAll(t, ws));
  }
}
