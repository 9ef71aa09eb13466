/** What holds over every run of the machine: any operations on any runs, any number of crashes, anywhere. */
module CrashSafety {
  import opened Prelude
  import opened Governor
  import opened GovernorSafety
  import opened Storage
  import opened Runs
  import opened Machine
  import opened MachineInvariant
  import Carrying

  // ----- the crash bracket -----

  /**
   Crash here and the run comes back between its latest durable checkpoint and what it had
   used at the crash, with a governor that is sound for that usage.
   */
  lemma CrashBracket(acts: seq<Action>, id: RunId, now: Instant)
    requires id in Exec(BOOT, acts).tables.runs
    ensures var s := Exec(BOOT, acts);
            var back := Restored(s.tables.checkpoints, s.tables.runs[id], now).gov;
            && Sound(back)
            && (Latest(s.tables, id).Some? ==> Latest(s.tables, id).value.usage.AtMost(back.usage))
            && (id in s.live ==> back.usage.AtMost(s.live[id].run.gov.usage))
            && (Idle(s, id) && !RollsBack(s.tables.checkpoints, s.tables.runs[id])
                ==> back.usage == s.live[id].run.gov.usage && back.halted == s.live[id].run.gov.halted)
  {
    Reachable(acts);
    assert RunOk(Exec(BOOT, acts), id);
  }

  /** One action: the latest checkpoint only moves up, and a stored run keeps its row, budget, bundle and creation time. */
  lemma StepKeepsDurable(s: Sys, a: Action, id: RunId)
    requires Inv(s)
    ensures var t, t' := s.tables, Next(s, a).tables;
            && (Latest(t, id).Some? ==> Latest(t', id).Some? && Latest(t, id).value.usage.AtMost(Latest(t', id).value.usage))
            && (id in t.runs ==> id in t'.runs && t'.runs[id].budget == t.runs[id].budget
                                 && t'.runs[id].policyRef == t.runs[id].policyRef
                                 && t'.runs[id].createdAt == t.runs[id].createdAt)
  {
    assert RunOk(s, id);
    if a.Crash? || a.id != id {
      OtherRunUntouched(s, a, id);
    } else if a.Flush? && Enabled(s, a) {
      var w := s.live[id].pending[0];
      WriteIsSeen(s.tables, w);
      if w.UpsertRun? {
        assert OwesRow(s.live[id].pending);
      }
    }
  }

  /** No later crash loses anything a checkpoint has covered. */
  lemma {:induction false} CheckpointsNeverLost(before: seq<Action>, after: seq<Action>, id: RunId)
    requires Latest(Exec(BOOT, before).tables, id).Some?
    ensures var t, t' := Exec(BOOT, before).tables, Exec(BOOT, before + after).tables;
            && Latest(t', id).Some? && id in t'.runs
            && Latest(t, id).value.usage.AtMost(Latest(t', id).value.usage)
            && Latest(t, id).value.usage.AtMost(RecoveredUsage(t', id))
  {
    Reachable(before + after);
    assert RunOk(Exec(BOOT, before + after), id);
    if after == [] {
      assert before + after == before;
    } else {
      var all := before + after;
      assert all[..|all| - 1] == before + after[..|after| - 1];
      CheckpointsNeverLost(before, after[..|after| - 1], id);
      Reachable(all[..|all| - 1]);
      StepKeepsDurable(Exec(BOOT, all[..|all| - 1]), all[|all| - 1], id);
    }
  }

  /** A stored run is never handed another budget, by restart, restore or anything else. */
  lemma {:induction false} BudgetIsForGood(before: seq<Action>, after: seq<Action>, id: RunId)
    requires id in Exec(BOOT, before).tables.runs
    ensures var s' := Exec(BOOT, before + after);
            var row := Exec(BOOT, before).tables.runs[id];
            && id in s'.tables.runs && s'.tables.runs[id].budget == row.budget && s'.tables.runs[id].policyRef == row.policyRef
            && (id in s'.live ==> s'.live[id].run.gov.budget == row.budget && s'.live[id].run.policyRef == row.policyRef)
  {
    Reachable(before + after);
    Carrying.AlwaysCarries(before + after, id);
    assert RunOk(Exec(BOOT, before + after), id);
    if after == [] {
      assert before + after == before;
    } else {
      var all := before + after;
      assert all[..|all| - 1] == before + after[..|after| - 1];
      BudgetIsForGood(before, after[..|after| - 1], id);
      Reachable(all[..|all| - 1]);
      StepKeepsDurable(Exec(BOOT, all[..|all| - 1]), all[|all| - 1], id);
    }
  }

  /** In every reachable state, restarts included, halts are justified and a running run is under budget. */
  lemma HaltsJustifiedAcrossRestarts(acts: seq<Action>, id: RunId, at: Instant)
    requires id in Exec(BOOT, acts).live
    ensures var g := Exec(BOOT, acts).live[id].run.gov;
            && Justified(g.budget, g.usage, g.halted)
            && (g.halted == NotHalted ==> UnderSpend(g.budget, g.usage))
            && (g.halted != NotHalted ==> ContextDead(g, at))
            && (g.budget.loops > 0 ==> g.usage.loops <= g.budget.loops)
  {
    Reachable(acts);
    assert RunOk(Exec(BOOT, acts), id);
  }

  // ----- terminal for good -----

  predicate DurablyHalted(s: Sys, id: RunId, reason: HaltReason) {
    id in s.tables.runs && s.tables.runs[id].haltReason == reason && reason != NotHalted
  }

  lemma StepKeepsTerminal(s: Sys, a: Action, id: RunId, reason: HaltReason)
    requires Inv(s) && DurablyHalted(s, id, reason)
    ensures DurablyHalted(Next(s, a), id, reason)
  {
    assert RunOk(s, id);
    if a.Crash? || a.id != id {
      OtherRunUntouched(s, a, id);
    } else if a.Flush? && Enabled(s, a) {
      var w := s.live[id].pending[0];
      WriteIsSeen(s.tables, w);
      if w.UpsertRun? {
        assert OwesRow(s.live[id].pending);
      }
    }
  }

  /**
   Once a halt or a cancel is durable nothing changes the row's status or reason again, and
   whenever the run is in memory, restored or not, each guard refuses with that reason.
   */
  lemma {:induction false} TerminalForGood(before: seq<Action>, after: seq<Action>, id: RunId, reason: HaltReason, now: Instant)
    requires DurablyHalted(Exec(BOOT, before), id, reason)
    ensures var s := Exec(BOOT, before + after);
            && DurablyHalted(s, id, reason)
            && s.tables.runs[id].status == (if reason == Cancelled then StatusCancelled else StatusHalted)
            && RestoredHalt(s.tables.runs[id]) == reason
            && (id in s.live ==> RefusesWith(s.live[id].run, reason, now))
            && RefusesWith(Restored(s.tables.checkpoints, s.tables.runs[id], now), reason, now)
  {
    var all := before + after;
    Reachable(all);
    if after == [] {
      assert all == before;
    } else {
      assert all[..|all| - 1] == before + after[..|after| - 1];
      TerminalForGood(before, after[..|after| - 1], id, reason, now);
      Reachable(all[..|all| - 1]);
      StepKeepsTerminal(Exec(BOOT, all[..|all| - 1]), all[|all| - 1], id, reason);
    }
    assert RunOk(Exec(BOOT, all), id);
  }

  /** Every guard reports `reason`, and none of them lets a step or a call through. */
  ghost predicate RefusesWith(r: RunState, reason: HaltReason, now: Instant) {
    && Verdict(AfterBeginStep(r, now).gov) == Some(HaltError(reason, r.gov.usage))
    && Verdict(AfterProceed(r, now).gov) == Some(HaltError(reason, r.gov.usage))
    && (forall c: Call :: Verdict(AfterRecordCall(r, c, now).gov)
                          == Some(HaltError(reason, Spent(r.gov.usage, c.prompt, c.completion, c.dollars))))
  }

  /**
   Create files a fresh row under its id, so it must not be given an id in use: there it puts
   the row back to running with nothing used, under the new budget, whatever halt it carried.
   It takes a halt back exactly when the row it meets had one.
   */
  lemma CreateOnAUsedIdRevives(acts: seq<Action>, id: RunId, name: Token, budget: Budget, policyRef: Token, metadata: Token,
                               now: Instant)
    requires id in Exec(BOOT, acts).tables.runs
    ensures var t := Exec(BOOT, acts).tables;
            var t' := Apply(t, UpsertRun(Record(NewRunState(id, name, budget, policyRef, metadata, now))));
            && id in t'.runs && t'.runs[id].status == StatusRunning && RestoredHalt(t'.runs[id]) == NotHalted
            && t'.runs[id].usage == NO_USAGE && t'.runs[id].budget == budget
            && t'.runs[id].createdAt == t.runs[id].createdAt && t'.runs[id].policyRef == t.runs[id].policyRef
            && (t'.runs[id].haltReason != t.runs[id].haltReason <==> Terminal(t.runs[id]))
  {
    Reachable(acts);
    assert RunOk(Exec(BOOT, acts), id);
  }
}
