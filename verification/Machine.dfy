/**
 The daemon as a state machine over single durable writes. An operation updates the live
 run and queues its plan; each Flush performs the next queued write of one run; a Crash
 loses everything but the tables. Operations on one run are serial, runs interleave freely.
 An action that is not enabled changes nothing.
 */
module Machine {
  import opened Prelude
  import opened Governor
  import opened Storage
  import opened Runs

  /** A run in memory, the writes its current operation still owes, and the call that operation records, if any. */
  datatype Active = Active(run: RunState, pending: seq<Write>, call: Option<Call>)

  datatype Sys = Sys(live: map<RunId, Active>, tables: Tables)

  const BOOT := Sys(map[], EMPTY_TABLES)

  datatype Action =
    | Create(id: RunId, name: Token, budget: Budget, policyRef: Token, metadata: Token, now: Instant)
    | BeginStep(id: RunId, now: Instant)
    | Proceed(id: RunId, now: Instant)
    | RecordCall(id: RunId, c: Call, now: Instant)
    | Kill(id: RunId, now: Instant)
    | Checkpoint(id: RunId, title: Token, payload: Payload, now: Instant)
    | Restore(id: RunId, now: Instant)
    | Flush(id: RunId)
    | Crash

  /** In memory, with every write of the last operation done. */
  predicate Idle(s: Sys, id: RunId) {
    id in s.live && s.live[id].pending == []
  }

  predicate Enabled(s: Sys, a: Action) {
    match a
    case Create(id, _, _, _, _, _) => id !in s.live && id !in s.tables.runs
    case Restore(id, _) => id !in s.live && id in s.tables.runs
    case Flush(id) => id in s.live && s.live[id].pending != []
    case Crash => true
    case _ => Idle(s, a.id)
  }

  /** The live run after an operation, with the operation's plan queued. */
  function Started(s: Sys, a: Action): Active
    requires Enabled(s, a) && !a.Flush? && !a.Crash?
  {
    match a
    case Create(id, name, budget, policyRef, metadata, now) =>
      var r := NewRunState(id, name, budget, policyRef, metadata, now);
      Active(r, [UpsertRun(Record(r))], None)
    case Restore(id, now) =>
      var rec := s.tables.runs[id];
      Active(Restored(s.tables.checkpoints, rec, now), RestorePlan(s.tables.checkpoints, rec, now), None)
    case BeginStep(id, now) =>
      var r := s.live[id].run;
      Active(AfterBeginStep(r, now), BeginStepPlan(r, now), None)
    case Proceed(id, now) =>
      var r := s.live[id].run;
      Active(AfterProceed(r, now), ProceedPlan(r, now), None)
    case RecordCall(id, c, now) =>
      var r := s.live[id].run;
      Active(AfterRecordCall(r, c, now), RecordCallPlan(r, c, now), Some(c))
    case Kill(id, now) =>
      var r := s.live[id].run;
      Active(AfterKill(r, now), KillPlan(r, now), None)
    case Checkpoint(id, title, payload, now) =>
      var r := s.live[id].run;
      Active(r, CheckpointPlan(r, title, payload, now), None)
  }

  function Next(s: Sys, a: Action): Sys {
    if !Enabled(s, a) then s
    else match a
      case Crash => s.(live := map[])
      case Flush(id) =>
        var act := s.live[id];
        Sys(s.live[id := act.(pending := act.pending[1..])], Apply(s.tables, act.pending[0]))
      case _ => s.(live := s.live[a.id := Started(s, a)])
  }

  function Exec(s: Sys, acts: seq<Action>): Sys {
    if acts == [] then s else Next(Exec(s, acts[..|acts| - 1]), acts[|acts| - 1])
  }

  lemma {:induction false} ExecConcat(s: Sys, a: seq<Action>, b: seq<Action>)
    ensures Exec(s, a + b) == Exec(Exec(s, a), b)
  {
    if b == [] {
      assert a + b == a;
    } else {
      assert (a + b)[..|a + b| - 1] == a + b[..|b| - 1];
      ExecConcat(s, a, b[..|b| - 1]);
    }
  }

  function Flushes(id: RunId, n: nat): seq<Action> {
    seq(n, _ => Flush(id))
  }

  /**
   After k writes the tables hold exactly the first k writes of the queued plan: a crash
   at any point leaves a prefix of it, and draining it leaves all of it.
   */
  lemma {:induction false} CrashLeavesPrefix(s: Sys, id: RunId, k: nat)
    requires id in s.live && k <= |s.live[id].pending|
    ensures var s' := Exec(s, Flushes(id, k));
            && s'.tables == ApplyAll(s.tables, s.live[id].pending[..k])
            && s'.live == s.live[id := s.live[id].(pending := s.live[id].pending[k..])]
  {
    var plan := s.live[id].pending;
    if k == 0 {
      assert plan[..0] == [] && plan[0..] == plan;
    } else {
      CrashLeavesPrefix(s, id, k - 1);
      assert Flushes(id, k)[..k - 1] == Flushes(id, k - 1);
      assert plan[..k][..k - 1] == plan[..k - 1];
      assert plan[k - 1..][1..] == plan[k..];
    }
  }

  /** An operation followed by k of its writes. */
  function Segment(a: Action, k: nat): seq<Action>
    requires !a.Crash?
  {
    [a] + Flushes(a.id, k)
  }

  /** An operation cut off after k writes: the live run has it whole, the tables have the first k writes of its plan. */
  lemma SegmentRuns(s: Sys, a: Action, k: nat)
    requires !a.Flush? && !a.Crash? && Enabled(s, a) && k <= |Started(s, a).pending|
    ensures var act := Started(s, a);
            Exec(s, Segment(a, k))
            == Sys(s.live[a.id := act.(pending := act.pending[k..])], ApplyAll(s.tables, act.pending[..k]))
  {
    ExecConcat(s, [a], Flushes(a.id, k));
    assert [a][..0] == [];
    assert Exec(s, [a]) == s.(live := s.live[a.id := Started(s, a)]);
    CrashLeavesPrefix(Next(s, a), a.id, k);
  }

  /** The usage a restore would come back with. */
  function RecoveredUsage(t: Tables, id: RunId): Usage
    requires id in t.runs
  {
    RestoredUsage(t.checkpoints, t.runs[id])
  }

  function Latest(t: Tables, id: RunId): Option<CheckpointRecord> {
    LatestCheckpoint(t.checkpoints, id)
  }

  function Ledger(m: Measure, t: Tables, id: RunId): Money {
    LedgerTotal(m, t.ledger, id)
  }
}

/** The inductive invariant of the machine, one run at a time. */
module MachineInvariant {
  import opened Prelude
  import opened Governor
  import opened GovernorSafety
  import opened Storage
  import opened Runs
  import opened Machine

  /** latest checkpoint <= run row, and the row's status tells its reason, which its usage justifies. */
  predicate RowOk(t: Tables, id: RunId) {
    && (id in t.runs ==>
          var row := t.runs[id];
          && row.id == id && row.status == StatusFor(row.haltReason)
          && Justified(row.budget, row.usage, row.haltReason)
          && (Latest(t, id).Some? ==> Latest(t, id).value.usage.AtMost(row.usage)))
    && (id !in t.runs ==> Latest(t, id).None?)
  }

  predicate Mirrors(row: RunRecord, r: RunState) {
    row.usage == r.gov.usage && row.haltReason == r.gov.halted && row.budget == r.gov.budget
  }

  predicate OwesRow(pending: seq<Write>) {
    exists i :: 0 <= i < |pending| && pending[i].UpsertRun?
  }

  /** Queued writes are of the current state, and no checkpoint overtakes the row. */
  predicate PendingOk(act: Active) {
    && (forall i | 0 <= i < |act.pending| ::
          && Target(act.pending[i]) == act.run.id
          && (act.pending[i].UpsertRun? ==> act.pending[i].run == Record(act.run))
          && (act.pending[i].SaveCheckpoint? ==> act.pending[i].checkpoint.usage == act.run.gov.usage))
    && (forall i, j | 0 <= i < j < |act.pending| && act.pending[i].SaveCheckpoint? :: !act.pending[j].UpsertRun?)
  }

  /** The row still to be replaced is behind the governor, or is the one a rollback is discarding. */
  predicate RowBehind(t: Tables, id: RunId, r: RunState) {
    id in t.runs ==>
      var row := t.runs[id];
      && row.budget == r.gov.budget
      && (row.haltReason != NotHalted ==> row.haltReason == r.gov.halted)
      && (row.usage.AtMost(r.gov.usage)
          || (RollsBack(t.checkpoints, row) && r.gov.usage == RestoredUsage(t.checkpoints, row) && r.gov.halted == NotHalted))
  }

  predicate LiveOk(t: Tables, id: RunId, act: Active) {
    && act.run.id == id && Sound(act.run.gov) && PendingOk(act)
    && (Latest(t, id).Some? ==> Latest(t, id).value.usage.AtMost(act.run.gov.usage))
    && (if OwesRow(act.pending) then RowBehind(t, id, act.run)
        else id in t.runs && Mirrors(t.runs[id], act.run))
  }

  predicate RunOk(s: Sys, id: RunId) {
    RowOk(s.tables, id) && (id in s.live ==> LiveOk(s.tables, id, s.live[id]))
  }

  ghost predicate Inv(s: Sys) {
    forall id :: RunOk(s, id)
  }

  /** Nothing another run does is visible here. */
  lemma OtherRunUntouched(s: Sys, a: Action, id: RunId)
    requires Inv(s) && (a.Crash? || a.id != id)
    ensures SameFor(s.tables, Next(s, a).tables, id)
    ensures id in Next(s, a).live <==> id in s.live && !a.Crash?
    ensures id in Next(s, a).live ==> Next(s, a).live[id] == s.live[id]
  {
    if a.Flush? && Enabled(s, a) {
      assert RunOk(s, a.id);
      WriteIsLocal(s.tables, s.live[a.id].pending[0], id);
    }
  }

  lemma FlushKeeps(s: Sys, id: RunId)
    requires RunOk(s, id) && Enabled(s, Flush(id))
    ensures RunOk(Next(s, Flush(id)), id)
  {
    var act := s.live[id];
    var w := act.pending[0];
    var rest := act.pending[1..];
    var t' := Apply(s.tables, w);
    WriteIsSeen(s.tables, w);
    assert forall i | 0 <= i < |rest| :: rest[i] == act.pending[i + 1];
    assert PendingOk(act.(pending := rest));
    if OwesRow(rest) {
      var i :| 0 <= i < |rest| && rest[i].UpsertRun?;
      assert act.pending[i + 1].UpsertRun?;
      assert OwesRow(act.pending) && !w.SaveCheckpoint?;
    } else if !w.UpsertRun? {
      assert !OwesRow(act.pending);
    }
  }

  lemma EnterKeeps(s: Sys, a: Action)
    requires (a.Create? || a.Restore?) && Enabled(s, a) && RunOk(s, a.id)
    ensures RunOk(Next(s, a), a.id)
  {
    var act := Started(s, a);
    if act.pending != [] {
      assert act.pending[0].UpsertRun?;
    }
  }

  lemma BeginStepKeeps(s: Sys, a: Action)
    requires a.BeginStep? && Enabled(s, a) && RunOk(s, a.id)
    ensures RunOk(Next(s, a), a.id)
  {
    StepSound(s.live[a.id].run.gov, OpPreStep(a.now));
    var act := Started(s, a);
    assert act.pending[|act.pending| - 1].UpsertRun?;
  }

  lemma RecordCallKeeps(s: Sys, a: Action)
    requires a.RecordCall? && Enabled(s, a) && RunOk(s, a.id)
    ensures RunOk(Next(s, a), a.id)
  {
    StepSound(s.live[a.id].run.gov, OpRecordUsage(a.c.prompt, a.c.completion, a.c.dollars, a.now));
    assert Started(s, a).pending[2].UpsertRun?;
  }

  lemma OperationKeeps(s: Sys, a: Action)
    requires !a.Flush? && !a.Crash? && Enabled(s, a) && RunOk(s, a.id)
    ensures RunOk(Next(s, a), a.id)
  {
    match a
    case Create(_, _, _, _, _, _) => EnterKeeps(s, a);
    case Restore(_, _) => EnterKeeps(s, a);
    case BeginStep(_, _) => BeginStepKeeps(s, a);
    case RecordCall(_, _, _) => RecordCallKeeps(s, a);
    case Proceed(id, now) =>
      StepSound(s.live[id].run.gov, OpCanProceed(now));
      if Started(s, a).pending != [] {
        assert Started(s, a).pending[0].UpsertRun?;
      }
    case Kill(id, _) =>
      StepSound(s.live[id].run.gov, OpCancel);
      assert Started(s, a).pending[0].UpsertRun?;
    case Checkpoint(_, _, _, _) =>
  }

  lemma StepKeeps(s: Sys, a: Action)
    requires Inv(s)
    ensures Inv(Next(s, a))
  {
    forall id ensures RunOk(Next(s, a), id) {
      assert RunOk(s, id);
      if a.Crash? || a.id != id {
        OtherRunUntouched(s, a, id);
      } else if Enabled(s, a) {
        if a.Flush? {
          FlushKeeps(s, id);
        } else {
          OperationKeeps(s, a);
        }
      }
    }
  }

  lemma {:induction false} Reachable(acts: seq<Action>)
    ensures Inv(Exec(BOOT, acts))
  {
    if acts != [] {
      Reachable(acts[..|acts| - 1]);
      StepKeeps(Exec(BOOT, acts[..|acts| - 1]), acts[|acts| - 1]);
    }
  }
}

/** A run in memory is the run its row describes. */
module Carrying {
  import opened Prelude
  import opened Governor
  import opened GovernorSafety
  import opened Storage
  import opened Runs
  import opened Machine
  import opened MachineInvariant

  /** Name, bundle, metadata and creation time are the row's; the time of the last change too, once it is written. */
  predicate Carries(s: Sys, id: RunId) {
    id in s.live && id in s.tables.runs ==>
      var r, row := s.live[id].run, s.tables.runs[id];
      && r.id == row.id == id && r.name == row.name && r.metadata == row.metadata
      && r.policyRef == row.policyRef && r.createdAt == row.createdAt
      && (!OwesRow(s.live[id].pending) ==> r.updatedAt == row.updatedAt)
  }

  lemma FlushCarries(s: Sys, id: RunId)
    requires RunOk(s, id) && Enabled(s, Flush(id)) && Carries(s, id)
    ensures Carries(Next(s, Flush(id)), id)
  {
    var act := s.live[id];
    var w, rest := act.pending[0], act.pending[1..];
    WriteIsSeen(s.tables, w);
    if !OwesRow(rest) && !w.UpsertRun? {
      forall i | 0 <= i < |act.pending| ensures !act.pending[i].UpsertRun? {
        if i > 0 {
          assert rest[i - 1] == act.pending[i];
        }
      }
    }
  }

  lemma OperationCarries(s: Sys, a: Action)
    requires !a.Flush? && !a.Crash? && Enabled(s, a) && RunOk(s, a.id) && Carries(s, a.id)
    ensures Carries(Next(s, a), a.id)
  {
    var act := Started(s, a);
    match a
    case RecordCall(_, _, _) => assert act.pending[2].UpsertRun?;
    case BeginStep(_, _) => assert act.pending[|act.pending| - 1].UpsertRun?;
    case Kill(_, _) => assert act.pending[0].UpsertRun?;
    case Proceed(_, _) => if act.pending != [] { assert act.pending[0].UpsertRun?; }
    case _ =>
  }

  lemma StepCarries(s: Sys, a: Action, id: RunId)
    requires Inv(s) && Carries(s, id)
    ensures Carries(Next(s, a), id)
  {
    assert RunOk(s, id);
    if a.Crash? || a.id != id {
      OtherRunUntouched(s, a, id);
    } else if Enabled(s, a) {
      if a.Flush? {
        FlushCarries(s, id);
      } else {
        OperationCarries(s, a);
      }
    }
  }

  lemma {:induction false} AlwaysCarries(acts: seq<Action>, id: RunId)
    ensures Carries(Exec(BOOT, acts), id)
  {
    if acts != [] {
      AlwaysCarries(acts[..|acts| - 1], id);
      Reachable(acts[..|acts| - 1]);
      StepCarries(Exec(BOOT, acts[..|acts| - 1]), acts[|acts| - 1], id);
    }
  }

  /** In every reachable state, restarts included, a run in memory has its row's name, bundle, metadata, creation time and budget. */
  lemma {:induction false} LiveRunIsItsRow(acts: seq<Action>, id: RunId)
    requires id in Exec(BOOT, acts).live && id in Exec(BOOT, acts).tables.runs
    ensures var r, row := Exec(BOOT, acts).live[id].run, Exec(BOOT, acts).tables.runs[id];
            && r.id == row.id == id && r.name == row.name && r.policyRef == row.policyRef && r.metadata == row.metadata
            && r.createdAt == row.createdAt && r.gov.budget == row.budget
  {
    AlwaysCarries(acts, id);
    Reachable(acts);
    assert RunOk(Exec(BOOT, acts), id);
  }

  /** Between operations the row is the run, field by field. */
  lemma {:induction false} IdleRowIsTheRun(acts: seq<Action>, id: RunId)
    requires Idle(Exec(BOOT, acts), id)
    ensures id in Exec(BOOT, acts).tables.runs
    ensures var r, row := Exec(BOOT, acts).live[id].run, Exec(BOOT, acts).tables.runs[id];
            && row.id == id && row.name == r.name && row.policyRef == r.policyRef && row.metadata == r.metadata
            && row.createdAt == r.createdAt && row.updatedAt == r.updatedAt
            && row.budget == r.gov.budget && row.usage == r.gov.usage && row.haltReason == r.gov.halted
            && (row.status == StatusRunning <==> r.gov.halted == NotHalted)
            && (row.status == StatusCancelled <==> r.gov.halted == Cancelled)
  {
    AlwaysCarries(acts, id);
    Reachable(acts);
    assert RunOk(Exec(BOOT, acts), id);
  }

  /** A stored run's name, bundle, metadata and creation time never change. */
  lemma {:induction false} IdentityIsForGood(before: seq<Action>, after: seq<Action>, id: RunId)
    requires id in Exec(BOOT, before).tables.runs
    ensures var row, t' := Exec(BOOT, before).tables.runs[id], Exec(BOOT, before + after).tables;
            && id in t'.runs && t'.runs[id].name == row.name && t'.runs[id].policyRef == row.policyRef
            && t'.runs[id].metadata == row.metadata && t'.runs[id].createdAt == row.createdAt
  {
    var all := before + after;
    if after == [] {
      assert all == before;
    } else {
      var prefix, a := all[..|all| - 1], all[|all| - 1];
      assert prefix == before + after[..|after| - 1];
      IdentityIsForGood(before, after[..|after| - 1], id);
      Reachable(prefix);
      AlwaysCarries(prefix, id);
      StepKeepsIdentity(Exec(BOOT, prefix), a, id);
    }
  }

  lemma StepKeepsIdentity(s: Sys, a: Action, id: RunId)
    requires Inv(s) && Carries(s, id) && id in s.tables.runs
    ensures var row, t' := s.tables.runs[id], Next(s, a).tables;
            && id in t'.runs && t'.runs[id].name == row.name && t'.runs[id].policyRef == row.policyRef
            && t'.runs[id].metadata == row.metadata && t'.runs[id].createdAt == row.createdAt
  {
    assert RunOk(s, id);
    if a.Crash? || a.id != id {
      OtherRunUntouched(s, a, id);
    } else if a.Flush? && Enabled(s, a) {
      WriteIsSeen(s.tables, s.live[id].pending[0]);
    }
  }
}
