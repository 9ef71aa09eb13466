/** What each operation, once all its writes are done, leaves in memory and in the tables, column by column. */
module Operations {
  import opened Prelude
  import opened Governor
  import opened GovernorSafety
  import opened Storage
  import opened Runs
  import opened Machine
  import opened MachineInvariant

  lemma CreateLeaves(s: Sys, id: RunId, name: Token, budget: Budget, policyRef: Token, metadata: Token, now: Instant)
    requires id !in s.live && id !in s.tables.runs
    ensures var s' := Exec(s, Segment(Create(id, name, budget, policyRef, metadata, now), 1));
            && Idle(s', id) && s'.live[id].run.gov.startedAt == now && !s'.live[id].run.gov.cancelled
            && s'.live[id].run.gov.budget == budget && s'.live[id].run.gov.usage == Usage(0, 0, 0.0, 0)
            && s'.live[id].run.policyRef == policyRef
            && s'.tables == s.tables.(runs := s.tables.runs[id := RunRecord(
                 id, name, StatusRunning, NotHalted, policyRef, budget, Usage(0, 0, 0.0, 0), metadata, now, now)])
  {
    var a := Create(id, name, budget, policyRef, metadata, now);
    SegmentRuns(s, a, 1);
    OneWrite(s.tables, Started(s, a).pending, 0);
  }

  /**
   A restart: the run comes back under its own name, bundle and budget; a halted one with its
   reason and its usage, a running one with the usage of its checkpoint if that has fewer loops
   than the row, and with the row's usage otherwise. The time budget starts anew.
   */
  lemma RestoreLeaves(s: Sys, id: RunId, now: Instant)
    requires id !in s.live && id in s.tables.runs && s.tables.runs[id].id == id
    ensures var row, cp := s.tables.runs[id], Latest(s.tables, id);
            var over := row.status == StatusHalted || row.status == StatusCancelled;
            var back := !over && cp.Some? && cp.value.usage.loops < row.usage.loops;
            var usage := if back then cp.value.usage else row.usage;
            var halted := if over then row.haltReason else NotHalted;
            var s' := Exec(s, Segment(Restore(id, now), if back then 1 else 0));
            && Idle(s', id) && s'.live[id].run.id == id
            && s'.live[id].run.name == row.name && s'.live[id].run.policyRef == row.policyRef
            && s'.live[id].run.metadata == row.metadata && s'.live[id].run.createdAt == row.createdAt
            && s'.live[id].run.gov == Gov(row.budget, usage, halted, now, halted != NotHalted)
            && s'.tables == s.tables.(runs := s.tables.runs[id :=
                 if back then row.(usage := usage, status := StatusRunning, haltReason := NotHalted) else row])
  {
    var a := Restore(id, now);
    var plan := Started(s, a).pending;
    SegmentRuns(s, a, |plan|);
    if plan == [] {
      assert s.tables.runs[id := s.tables.runs[id]] == s.tables.runs;
    } else {
      OneWrite(s.tables, plan, 0);
    }
  }

  lemma Stepwise(t: Tables, plan: seq<Write>)
    ensures |plan| == 2 ==> ApplyAll(t, plan[..2]) == Apply(Apply(t, plan[0]), plan[1])
    ensures |plan| == 4 ==> ApplyAll(t, plan[..4]) == Apply(Apply(Apply(Apply(t, plan[0]), plan[1]), plan[2]), plan[3])
  {
    if |plan| == 2 || |plan| == 4 {
      OneWrite(t, plan, 0);
      OneWrite(t, plan, 1);
    }
    if |plan| == 4 {
      OneWrite(t, plan, 2);
      OneWrite(t, plan, 3);
    }
  }

  /** The writes of a granted step. */
  lemma GrantedStep(r: RunState, now: Instant)
    requires var g := r.gov;
             && g.halted == NotHalted && (g.budget.loops > 0 ==> g.usage.loops < g.budget.loops)
             && (g.budget.seconds > 0 ==> now - g.startedAt < g.budget.seconds * 1_000_000_000)
    ensures var n := r.gov.usage.loops + 1;
            var r' := r.(gov := r.gov.(usage := r.gov.usage.(loops := n)), updatedAt := now, curStepStarted := now);
            && AfterBeginStep(r, now) == r'
            && BeginStepPlan(r, now) == [UpsertStep(StepRecord(r.id, n, StepRunning, 0, 0, 0.0, now, None)), UpsertRun(Record(r'))]
  {
  }

  /** A granted step counts one loop and opens its row; a step begun again after a rollback keeps its first start time. */
  lemma StepLeaves(s: Sys, id: RunId, now: Instant)
    requires Idle(s, id) && s.live[id].run.id == id
    requires var g := s.live[id].run.gov;
             && g.halted == NotHalted && (g.budget.loops > 0 ==> g.usage.loops < g.budget.loops)
             && (g.budget.seconds > 0 ==> now - g.startedAt < g.budget.seconds * 1_000_000_000)
    ensures var r, s' := s.live[id].run, Exec(s, Segment(BeginStep(id, now), 2));
            var n := r.gov.usage.loops + 1;
            var started := if (id, n) in s.tables.steps then s.tables.steps[(id, n)].startedAt else now;
            && Idle(s', id)
            && s'.live[id].run == r.(gov := r.gov.(usage := r.gov.usage.(loops := n)), updatedAt := now, curStepStarted := now)
            && s'.tables.steps == s.tables.steps[(id, n) := StepRecord(id, n, StepRunning, 0, 0, 0.0, started, None)]
            && s'.tables.ledger == s.tables.ledger && s'.tables.checkpoints == s.tables.checkpoints
            && id in s'.tables.runs && s'.tables.runs[id].usage.loops == n && s'.tables.runs[id].updatedAt == now
  {
    var a := BeginStep(id, now);
    var plan := Started(s, a).pending;
    GrantedStep(s.live[id].run, now);
    SegmentRuns(s, a, 2);
    Stepwise(s.tables, plan);
  }

  /** The writes of a refusal: its row alone, with the breached dimension. */
  lemma RefusedPlans(r: RunState, now: Instant)
    ensures var g := AfterPreStep(r.gov, now);
            g.halted != NotHalted ==> BeginStepPlan(r, now) == [UpsertRun(Record(r.(gov := g, updatedAt := now)))]
    ensures var g := AfterCanProceed(r.gov, now);
            ProceedPlan(r, now) == if g.halted != NotHalted then [UpsertRun(Record(r.(gov := g, updatedAt := now)))] else []
  {
  }

  /**
   A refused step or check leaves the run halted in memory and in its row, with the reason it had
   or the first breached dimension, and counts and spends nothing.
   */
  lemma RefusalLeaves(s: Sys, id: RunId, a: Action, now: Instant)
    requires Idle(s, id) && s.live[id].run.id == id && (a == BeginStep(id, now) || a == Proceed(id, now))
    requires var g := s.live[id].run.gov;
             var late := g.budget.seconds > 0 && now - g.startedAt >= g.budget.seconds * 1_000_000_000;
             || g.halted != NotHalted || late
             || (a.BeginStep? && g.budget.loops > 0 && g.usage.loops >= g.budget.loops)
             || (a.Proceed? && g.budget.tokens > 0 && g.usage.prompt + g.usage.completion >= g.budget.tokens)
             || (a.Proceed? && g.budget.dollars > 0.0 && g.usage.dollars >= g.budget.dollars)
    ensures var r, s' := s.live[id].run, Exec(s, Segment(a, 1));
            var late := r.gov.budget.seconds > 0 && now - r.gov.startedAt >= r.gov.budget.seconds * 1_000_000_000;
            var reason := if r.gov.halted != NotHalted then r.gov.halted
                          else if late then TimeBudget
                          else if a.BeginStep? then LoopBudget
                          else if r.gov.budget.tokens > 0 && r.gov.usage.prompt + r.gov.usage.completion >= r.gov.budget.tokens
                          then TokenBudget else DollarBudget;
            && Idle(s', id) && s'.live[id].run.gov.halted == reason && s'.live[id].run.gov.usage == r.gov.usage
            && id in s'.tables.runs && s'.tables.runs[id].haltReason == reason && s'.tables.runs[id].usage == r.gov.usage
            && s'.tables.runs[id].status == (if reason == Cancelled then StatusCancelled else StatusHalted)
            && s'.tables == s.tables.(runs := s'.tables.runs)
  {
    var plan := Started(s, a).pending;
    PreStepExactly(s.live[id].run.gov, now);
    OtherGuardsExactly(s.live[id].run.gov, 0, 0, 0.0, now);
    RefusedPlans(s.live[id].run, now);
    SegmentRuns(s, a, 1);
    OneWrite(s.tables, plan, 0);
  }

  /**
   A recorded call leaves one ledger row with its own columns, its step's row closed, the run's row
   up to date, and a checkpoint of the new usage without a payload.
   */
  lemma RecordLeaves(s: Sys, id: RunId, c: Call, now: Instant)
    requires Idle(s, id) && s.live[id].run.id == id
    ensures var r, s' := s.live[id].run, Exec(s, Segment(RecordCall(id, c, now), 4));
            && Idle(s', id)
            && var g := s'.live[id].run.gov;
               var u := Usage(r.gov.usage.prompt + c.prompt, r.gov.usage.completion + c.completion,
                              r.gov.usage.dollars + c.dollars, r.gov.usage.loops);
               var key := (id, c.stepIndex);
               var started := if key in s.tables.steps then s.tables.steps[key].startedAt else r.curStepStarted;
               && g.usage == u
               && s'.tables.ledger == s.tables.ledger + [LedgerEntry(
                    id, c.stepIndex, c.provider, c.model, c.prompt, c.completion, c.dollars, c.priced, c.responseId, now)]
               && s'.tables.steps == s.tables.steps[key := StepRecord(
                    id, c.stepIndex, if g.halted == NotHalted then StepCompleted else StepHalted,
                    c.prompt, c.completion, c.dollars, started, Some(now))]
               && s'.tables.checkpoints == s.tables.checkpoints + [CheckpointRecord(id, c.stepIndex, 0, u, None, now)]
               && id in s'.tables.runs && s'.tables.runs[id].usage == u && s'.tables.runs[id].haltReason == g.halted
               && s'.tables.runs[id].updatedAt == now
  {
    var a := RecordCall(id, c, now);
    var plan := Started(s, a).pending;
    SegmentRuns(s, a, 4);
    Stepwise(s.tables, plan);
    OtherGuardsExactly(s.live[id].run.gov, c.prompt, c.completion, c.dollars, now);
  }

  /** A checkpoint snapshots the governor with the caller's name and payload and changes nothing else. */
  lemma CheckpointLeaves(s: Sys, id: RunId, title: Token, payload: Payload, now: Instant)
    requires Idle(s, id) && s.live[id].run.id == id
    ensures var u, s' := s.live[id].run.gov.usage, Exec(s, Segment(Checkpoint(id, title, payload, now), 1));
            && Idle(s', id) && s'.live[id].run == s.live[id].run
            && s'.tables == s.tables.(checkpoints := s.tables.checkpoints
                                      + [CheckpointRecord(id, u.loops, title, u, payload, now)])
  {
    var a := Checkpoint(id, title, payload, now);
    SegmentRuns(s, a, 1);
    OneWrite(s.tables, Started(s, a).pending, 0);
  }

  /** The kill switch writes the row at once, and the reason is cancelled unless the run had halted before. */
  lemma KillLeaves(s: Sys, id: RunId, now: Instant)
    requires Idle(s, id) && s.live[id].run.id == id
    ensures var r, s' := s.live[id].run, Exec(s, Segment(Kill(id, now), 1));
            var reason := if r.gov.halted == NotHalted then Cancelled else r.gov.halted;
            && Idle(s', id) && s'.live[id].run.gov.halted == reason && s'.live[id].run.gov.usage == r.gov.usage
            && id in s'.tables.runs && s'.tables.runs[id].haltReason == reason && s'.tables.runs[id].usage == r.gov.usage
            && s'.tables.runs[id].status == (if reason == Cancelled then StatusCancelled else StatusHalted)
            && s'.tables.steps == s.tables.steps && s'.tables.ledger == s.tables.ledger
            && s'.tables.checkpoints == s.tables.checkpoints
  {
    var a := Kill(id, now);
    SegmentRuns(s, a, 1);
    OneWrite(s.tables, Started(s, a).pending, 0);
  }
}
