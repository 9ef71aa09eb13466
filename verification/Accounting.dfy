/** The cost ledger against the governor's meter, over every run of the machine, in each measure. */
module Accounting {
  import opened Prelude
  import opened Governor
  import opened GovernorSafety
  import opened Storage
  import opened Runs
  import opened Machine
  import opened MachineInvariant

  function CallAmount(m: Measure, c: Call): Money {
    Amount(m, c.prompt, c.completion, c.dollars)
  }

  /** The call whose recording a crash right now would interrupt. */
  function InFlight(m: Measure, s: Sys, id: RunId): Money {
    if id in s.live && s.live[id].pending != [] && s.live[id].call.Some? then CallAmount(m, s.live[id].call.value) else 0.0
  }

  /** The states just before each action. */
  function StatesOf(acts: seq<Action>): (states: seq<Sys>)
    ensures |states| == |acts|
    ensures forall i | 0 <= i < |acts| :: states[i] == Exec(BOOT, acts[..i])
  {
    if acts == [] then []
    else
      var before := acts[..|acts| - 1];
      assert forall i | 0 <= i < |before| :: before[..i] == acts[..i];
      StatesOf(before) + [Exec(BOOT, before)]
  }

  /** The sum, over the crashes in a run, of the call each one interrupted. */
  function InterruptedIn(m: Measure, states: seq<Sys>, acts: seq<Action>, id: RunId): Money
    requires |states| == |acts|
  {
    if acts == [] then 0.0
    else
      var n := |acts| - 1;
      InterruptedIn(m, states[..n], acts[..n], id) + if acts[n].Crash? then InFlight(m, states[n], id) else 0.0
  }

  function Interrupted(m: Measure, acts: seq<Action>, id: RunId): Money {
    InterruptedIn(m, StatesOf(acts), acts, id)
  }

  lemma InterruptedMore(m: Measure, acts: seq<Action>, id: RunId)
    requires acts != []
    ensures var before := acts[..|acts| - 1];
            Interrupted(m, acts, id)
            == Interrupted(m, before, id) + if acts[|acts| - 1].Crash? then InFlight(m, Exec(BOOT, before), id) else 0.0
  {
    assert StatesOf(acts)[..|acts| - 1] == StatesOf(acts[..|acts| - 1]);
  }

  /** The ledger row a recording still owes. */
  function Owed(m: Measure, act: Active): Money {
    if act.pending != [] && act.pending[0].AppendLedger? then EntryAmount(m, act.pending[0].entry) else 0.0
  }

  /** What a rollback can never go below. */
  function Floor(m: Measure, t: Tables, id: RunId): Money {
    if Latest(t, id).Some? then Used(m, Latest(t, id).value.usage)
    else if id in t.runs then Used(m, t.runs[id].usage) else 0.0
  }

  predicate RecordingShape(m: Measure, act: Active) {
    && (forall i | 0 < i < |act.pending| :: !act.pending[i].AppendLedger?)
    && (act.call.Some? && act.pending != [] ==> act.pending[|act.pending| - 1].SaveCheckpoint?)
    && (act.pending != [] && act.pending[0].AppendLedger?
        ==> act.call.Some? && Owed(m, act) == CallAmount(m, act.call.value))
  }

  predicate Accounted(m: Measure, s: Sys, id: RunId, lost: Money) {
    var ledger := Ledger(m, s.tables, id);
    && (id in s.tables.runs ==> Used(m, s.tables.runs[id].usage) <= ledger)
    && (id !in s.live ==> ledger <= Floor(m, s.tables, id) + lost)
    && (id in s.live ==>
          var act := s.live[id];
          var meter := Used(m, act.run.gov.usage);
          && RecordingShape(m, act)
          && meter <= ledger + Owed(m, act) <= meter + lost
          && ledger + Owed(m, act) <= Floor(m, s.tables, id) + lost + InFlight(m, s, id))
  }

  /** What one write does to the books: ledger rows add up, and row and checkpoint take the meter's value. */
  lemma FlushMoves(m: Measure, s: Sys, id: RunId)
    requires RunOk(s, id) && Enabled(s, Flush(id))
    ensures var t, t' := s.tables, Next(s, Flush(id)).tables;
            var w, meter := s.live[id].pending[0], Used(m, s.live[id].run.gov.usage);
            && Ledger(m, t', id) == Ledger(m, t, id) + Owed(m, s.live[id])
            && (w.UpsertRun? ==> id in t'.runs && Used(m, t'.runs[id].usage) == meter)
            && (!w.UpsertRun? ==> (id in t'.runs <==> id in t.runs) && (id in t.runs ==> t'.runs[id] == t.runs[id]))
            && Floor(m, t', id) == (if w.SaveCheckpoint? || (w.UpsertRun? && Latest(t, id).None?) then meter else Floor(m, t, id))
  {
    WriteIsSeen(s.tables, s.live[id].pending[0]);
  }

  lemma {:induction false} FlushAccounts(m: Measure, s: Sys, id: RunId, lost: Money)
    requires RunOk(s, id) && Accounted(m, s, id, lost) && Enabled(s, Flush(id))
    ensures Accounted(m, Next(s, Flush(id)), id, lost)
  {
    FlushMoves(m, s, id);
    FlushKeepsShape(m, s.live[id]);
  }

  /** The write at the head carries the ledger row, if any does, and the last carries the checkpoint of a recording. */
  lemma FlushKeepsShape(m: Measure, act: Active)
    requires RecordingShape(m, act) && act.pending != []
    ensures var act' := act.(pending := act.pending[1..]);
            && RecordingShape(m, act') && Owed(m, act') == 0.0
            && (act.call.Some? && act'.pending == [] ==> act.pending[0].SaveCheckpoint?)
  {
    var rest := act.pending[1..];
    assert forall i | 0 <= i < |rest| :: rest[i] == act.pending[i + 1];
  }

  lemma RecordCallAccounts(m: Measure, s: Sys, a: Action, lost: Money)
    requires a.RecordCall? && Enabled(s, a) && RunOk(s, a.id) && Accounted(m, s, a.id, lost)
    ensures Accounted(m, Next(s, a), a.id, lost)
  {
    var c := a.c;
    StepSound(s.live[a.id].run.gov, OpRecordUsage(c.prompt, c.completion, c.dollars, a.now));
    assert Used(m, Started(s, a).run.gov.usage) == Used(m, s.live[a.id].run.gov.usage) + CallAmount(m, c);
  }

  lemma EnterAccounts(m: Measure, s: Sys, a: Action, lost: Money)
    requires (a.Create? || a.Restore?) && Enabled(s, a) && RunOk(s, a.id) && Accounted(m, s, a.id, lost)
    ensures Accounted(m, Next(s, a), a.id, lost)
  {
  }

  /** No other operation moves the meter. */
  lemma QuietAccounts(m: Measure, s: Sys, a: Action, lost: Money)
    requires a.BeginStep? || a.Proceed? || a.Kill? || a.Checkpoint?
    requires Enabled(s, a) && RunOk(s, a.id) && Accounted(m, s, a.id, lost)
    ensures Accounted(m, Next(s, a), a.id, lost)
  {
    var act := Started(s, a);
    assert Used(m, act.run.gov.usage) == Used(m, s.live[a.id].run.gov.usage);
    assert act.call.None? && forall i | 0 <= i < |act.pending| :: !act.pending[i].AppendLedger?;
  }

  lemma CrashAccounts(m: Measure, s: Sys, id: RunId, lost: Money)
    requires RunOk(s, id) && Accounted(m, s, id, lost)
    ensures Accounted(m, Next(s, Crash), id, lost + InFlight(m, s, id))
  {
  }

  lemma OtherRunAccounts(m: Measure, s: Sys, s': Sys, id: RunId, lost: Money)
    requires Accounted(m, s, id, lost) && SameFor(s.tables, s'.tables, id)
    requires (id in s'.live <==> id in s.live) && (id in s.live ==> s'.live[id] == s.live[id])
    ensures Accounted(m, s', id, lost)
  {
    assert Ledger(m, s'.tables, id) == Ledger(m, s.tables, id);
    assert Floor(m, s'.tables, id) == Floor(m, s.tables, id);
  }

  lemma StepAccounts(m: Measure, s: Sys, a: Action, id: RunId, lost: Money)
    requires Inv(s) && Accounted(m, s, id, lost) && !a.Crash?
    ensures Accounted(m, Next(s, a), id, lost)
  {
    assert RunOk(s, id);
    if a.id != id {
      OtherRunUntouched(s, a, id);
      OtherRunAccounts(m, s, Next(s, a), id, lost);
    } else if Enabled(s, a) {
      match a
      case Flush(_) => FlushAccounts(m, s, id, lost);
      case RecordCall(_, _, _) => RecordCallAccounts(m, s, a, lost);
      case Create(_, _, _, _, _, _) => EnterAccounts(m, s, a, lost);
      case Restore(_, _) => EnterAccounts(m, s, a, lost);
      case _ => QuietAccounts(m, s, a, lost);
    }
  }

  lemma {:induction false} AlwaysAccounted(m: Measure, acts: seq<Action>, id: RunId)
    ensures Accounted(m, Exec(BOOT, acts), id, Interrupted(m, acts, id))
  {
    if acts != [] {
      var before := acts[..|acts| - 1];
      AlwaysAccounted(m, before, id);
      InterruptedMore(m, acts, id);
      Reachable(before);
      var a := acts[|acts| - 1];
      if a.Crash? {
        assert RunOk(Exec(BOOT, before), id);
        CrashAccounts(m, Exec(BOOT, before), id, Interrupted(m, before, id));
      } else {
        StepAccounts(m, Exec(BOOT, before), a, id, Interrupted(m, before, id));
      }
    }
  }

  /** Between operations the ledger is never below the meter, nor above it by more than the calls that crashes interrupted. */
  lemma {:induction false} LedgerBracketsMeter(m: Measure, acts: seq<Action>, id: RunId)
    requires Idle(Exec(BOOT, acts), id)
    ensures var s := Exec(BOOT, acts);
            var ledger, meter := Ledger(m, s.tables, id), Used(m, s.live[id].run.gov.usage);
            meter <= ledger <= meter + Interrupted(m, acts, id)
  {
    AlwaysAccounted(m, acts, id);
  }

  lemma {:induction false} NoCrashInterruptsNothing(m: Measure, states: seq<Sys>, acts: seq<Action>, id: RunId)
    requires |states| == |acts| && forall i | 0 <= i < |acts| :: !acts[i].Crash?
    ensures InterruptedIn(m, states, acts, id) == 0.0
  {
    if acts != [] {
      NoCrashInterruptsNothing(m, states[..|acts| - 1], acts[..|acts| - 1], id);
    }
  }

  /** Without crashes ledger and meter agree exactly at every operation boundary. */
  lemma {:induction false} LedgerEqualsMeter(m: Measure, acts: seq<Action>, id: RunId)
    requires Idle(Exec(BOOT, acts), id) && forall i | 0 <= i < |acts| :: !acts[i].Crash?
    ensures var s := Exec(BOOT, acts);
            Ledger(m, s.tables, id) == Used(m, s.live[id].run.gov.usage)
  {
    NoCrashInterruptsNothing(m, StatesOf(acts), acts, id);
    LedgerBracketsMeter(m, acts, id);
  }

  /** In each quantity: what the totals query sums is what the governor has metered. */
  lemma {:induction false} BooksBalance(acts: seq<Action>, id: RunId)
    requires Idle(Exec(BOOT, acts), id) && forall i | 0 <= i < |acts| :: !acts[i].Crash?
    ensures var ledger, u := Exec(BOOT, acts).tables.ledger, Exec(BOOT, acts).live[id].run.gov.usage;
            && LedgerTotal(PromptTokens, ledger, id) == u.prompt as real
            && LedgerTotal(CompletionTokens, ledger, id) == u.completion as real
            && LedgerTotal(Dollars, ledger, id) == u.dollars
  {
    LedgerEqualsMeter(PromptTokens, acts, id);
    LedgerEqualsMeter(CompletionTokens, acts, id);
    LedgerEqualsMeter(Dollars, acts, id);
  }
}

/** What a single crash does to the gap between ledger and meter, and exactly when it keeps the promise. */
module CrashGap {
  import opened Prelude
  import opened Governor
  import opened GovernorSafety
  import opened Storage
  import opened Runs
  import opened Machine
  import opened MachineInvariant
  import opened Accounting

  /** Ledger less meter, counting a row still owed as written, and a run that is down by what a restore brings back. */
  function Gap(m: Measure, s: Sys, id: RunId): real {
    if id in s.live then Ledger(m, s.tables, id) + Owed(m, s.live[id]) - Used(m, s.live[id].run.gov.usage)
    else if id in s.tables.runs then Ledger(m, s.tables, id) - Used(m, RecoveredUsage(s.tables, id))
    else Ledger(m, s.tables, id)
  }

  /**
   A crash here discards no more than the call being recorded: it rolls nothing back, or what
   was recorded since the latest checkpoint, the current call aside, is within the row still owed.
   */
  predicate Covered(m: Measure, s: Sys, id: RunId) {
    id in s.live && id in s.tables.runs && RollsBack(s.tables.checkpoints, s.tables.runs[id]) && Latest(s.tables, id).Some? ==>
      Used(m, s.live[id].run.gov.usage) - InFlight(m, s, id) - Used(m, Latest(s.tables, id).value.usage) <= Owed(m, s.live[id])
  }

  /** The row is behind the meter by at most the call being recorded. */
  predicate RowClose(m: Measure, s: Sys, id: RunId) {
    id in s.live ==>
      var meter := Used(m, s.live[id].run.gov.usage);
      && RecordingShape(m, s.live[id])
      && (if id in s.tables.runs then meter <= Used(m, s.tables.runs[id].usage) + InFlight(m, s, id)
          else meter == 0.0 && Owed(m, s.live[id]) == 0.0)
  }

  lemma OperationKeepsClose(m: Measure, s: Sys, a: Action)
    requires !a.Flush? && !a.Crash? && Enabled(s, a) && RunOk(s, a.id) && RowClose(m, s, a.id)
    ensures RowClose(m, Next(s, a), a.id) && Gap(m, Next(s, a), a.id) == Gap(m, s, a.id)
  {
    match a
    case RecordCall(id, c, now) => RecordCallKeepsClose(m, s, a);
    case Create(_, _, _, _, _, _) => EnterKeepsClose(m, s, a);
    case Restore(_, _) => EnterKeepsClose(m, s, a);
    case _ => QuietKeepsClose(m, s, a);
  }

  lemma RecordCallKeepsClose(m: Measure, s: Sys, a: Action)
    requires a.RecordCall? && Enabled(s, a) && RunOk(s, a.id) && RowClose(m, s, a.id)
    ensures RowClose(m, Next(s, a), a.id) && Gap(m, Next(s, a), a.id) == Gap(m, s, a.id)
  {
    StepSound(s.live[a.id].run.gov, OpRecordUsage(a.c.prompt, a.c.completion, a.c.dollars, a.now));
    assert Used(m, Started(s, a).run.gov.usage) == Used(m, s.live[a.id].run.gov.usage) + CallAmount(m, a.c);
  }

  lemma EnterKeepsClose(m: Measure, s: Sys, a: Action)
    requires (a.Create? || a.Restore?) && Enabled(s, a) && RunOk(s, a.id)
    ensures RowClose(m, Next(s, a), a.id) && Gap(m, Next(s, a), a.id) == Gap(m, s, a.id)
  {
  }

  lemma QuietKeepsClose(m: Measure, s: Sys, a: Action)
    requires a.BeginStep? || a.Proceed? || a.Kill? || a.Checkpoint?
    requires Enabled(s, a) && RunOk(s, a.id) && RowClose(m, s, a.id)
    ensures RowClose(m, Next(s, a), a.id) && Gap(m, Next(s, a), a.id) == Gap(m, s, a.id)
  {
    var act := Started(s, a);
    assert Used(m, act.run.gov.usage) == Used(m, s.live[a.id].run.gov.usage);
    assert act.call.None? && forall i | 0 <= i < |act.pending| :: !act.pending[i].AppendLedger?;
  }

  lemma FlushKeepsClose(m: Measure, s: Sys, id: RunId)
    requires RunOk(s, id) && Enabled(s, Flush(id)) && RowClose(m, s, id)
    ensures RowClose(m, Next(s, Flush(id)), id) && Gap(m, Next(s, Flush(id)), id) == Gap(m, s, id)
  {
    FlushMoves(m, s, id);
    FlushKeepsShape(m, s.live[id]);
    FlushKeeps(s, id);
    var s' := Next(s, Flush(id));
    if s'.live[id].pending == [] {
      assert Mirrors(s'.tables.runs[id], s'.live[id].run);
    }
  }

  lemma SameViewSameGap(m: Measure, s: Sys, s': Sys, id: RunId)
    requires RowClose(m, s, id) && SameFor(s.tables, s'.tables, id) && RunOk(s, id)
    requires (id in s'.live <==> id in s.live) && (id in s.live ==> s'.live[id] == s.live[id])
    ensures RowClose(m, s', id) && Gap(m, s', id) == Gap(m, s, id)
  {
    assert Ledger(m, s'.tables, id) == Ledger(m, s.tables, id);
  }

  lemma StepKeepsGap(m: Measure, s: Sys, a: Action, id: RunId)
    requires Inv(s) && RowClose(m, s, id) && !a.Crash?
    ensures RowClose(m, Next(s, a), id) && Gap(m, Next(s, a), id) == Gap(m, s, id)
  {
    assert RunOk(s, id);
    if a.id != id {
      OtherRunUntouched(s, a, id);
      SameViewSameGap(m, s, Next(s, a), id);
    } else if Enabled(s, a) {
      if a.Flush? {
        FlushKeepsClose(m, s, id);
      } else {
        OperationKeepsClose(m, s, a);
      }
    }
  }

  lemma {:induction false} AlwaysClose(m: Measure, acts: seq<Action>, id: RunId)
    ensures RowClose(m, Exec(BOOT, acts), id)
  {
    if acts != [] {
      AlwaysClose(m, acts[..|acts| - 1], id);
      Reachable(acts[..|acts| - 1]);
      if !acts[|acts| - 1].Crash? {
        StepKeepsGap(m, Exec(BOOT, acts[..|acts| - 1]), acts[|acts| - 1], id);
      }
    }
  }

  /** Nothing but a crash ever moves the gap. */
  lemma {:induction false} OnlyCrashesMoveTheGap(m: Measure, acts: seq<Action>, a: Action, id: RunId)
    requires !a.Crash?
    ensures Gap(m, Next(Exec(BOOT, acts), a), id) == Gap(m, Exec(BOOT, acts), id)
  {
    AlwaysClose(m, acts, id);
    Reachable(acts);
    StepKeepsGap(m, Exec(BOOT, acts), a, id);
  }

  /** One crash widens the gap by at most the call it interrupts exactly when the run is covered. */
  lemma {:induction false} CrashWidensWithinIff(m: Measure, acts: seq<Action>, id: RunId)
    ensures var s := Exec(BOOT, acts);
            Gap(m, Next(s, Crash), id) <= Gap(m, s, id) + InFlight(m, s, id) <==> Covered(m, s, id)
  {
    AlwaysClose(m, acts, id);
    Reachable(acts);
    assert RunOk(Exec(BOOT, acts), id);
  }

  /** At an operation boundary: a crash and restart leave the gap as it was exactly when they roll back no recorded usage. */
  lemma {:induction false} IdleCrashIff(m: Measure, acts: seq<Action>, id: RunId, now: Instant)
    requires Idle(Exec(BOOT, acts), id)
    ensures var s := Exec(BOOT, acts);
            var s' := Next(Next(s, Crash), Restore(id, now));
            && id in s.tables.runs && id in s'.live
            && (Ledger(m, s'.tables, id) - Used(m, s'.live[id].run.gov.usage)
                <= Ledger(m, s.tables, id) - Used(m, s.live[id].run.gov.usage)
                <==> !RollsBack(s.tables.checkpoints, s.tables.runs[id])
                     || (Latest(s.tables, id).Some?
                         && Used(m, Latest(s.tables, id).value.usage) == Used(m, s.tables.runs[id].usage)))
  {
    Reachable(acts);
    assert RunOk(Exec(BOOT, acts), id);
  }

  /** The k-th action widened the gap by no more than the call it found being recorded. */
  predicate KeptPromise(m: Measure, acts: seq<Action>, k: nat, id: RunId)
    requires k < |acts|
  {
    Gap(m, Exec(BOOT, acts[..k + 1]), id) <= Gap(m, Exec(BOOT, acts[..k]), id) + InFlight(m, Exec(BOOT, acts[..k]), id)
  }

  predicate CoveredAt(m: Measure, acts: seq<Action>, k: nat, id: RunId)
    requires k < |acts|
  {
    Covered(m, Exec(BOOT, acts[..k]), id)
  }

  /** A run keeps the promise crash by crash exactly when each of its crashes finds it covered. */
  lemma {:induction false} PromiseKeptIff(m: Measure, acts: seq<Action>, id: RunId)
    ensures (forall k | 0 <= k < |acts| && acts[k].Crash? :: KeptPromise(m, acts, k, id))
       <==> (forall k | 0 <= k < |acts| && acts[k].Crash? :: CoveredAt(m, acts, k, id))
  {
    forall k | 0 <= k < |acts| && acts[k].Crash? ensures KeptPromise(m, acts, k, id) <==> CoveredAt(m, acts, k, id) {
      CrashWidensWithinIff(m, acts[..k], id);
      assert acts[..k + 1][..k] == acts[..k] && acts[..k + 1][k] == Crash;
    }
  }
}

/** The accounting bound is on the sum of the interrupted calls: crash by crash it does not hold. */
module AccountingExample {
  import opened Prelude
  import opened Governor
  import opened Storage
  import opened Runs
  import opened Machine
  import opened Accounting

  const UNLIMITED := Budget(0, 0.0, 0, 0)

  const TEN_TOKENS := Call(1, NO_TEXT, NO_TEXT, 10, 0, 0.0, true, NO_TEXT)

  /** What the example follows: the meter, the row, the checkpoint and the ledger, in prompt tokens and loops. */
  predicate Books(s: Sys, meter: Usage, row: Usage, checkpoint: Option<Usage>, ledger: Money) {
    && (1 in s.live ==>
          var r := s.live[1].run;
          r.id == 1 && r.gov.usage == meter && r.gov.budget == UNLIMITED && r.gov.halted == NotHalted)
    && 1 in s.tables.runs
    && s.tables.runs[1].id == 1 && s.tables.runs[1].usage == row && s.tables.runs[1].status == StatusRunning
    && s.tables.runs[1].budget == UNLIMITED
    && (match checkpoint
        case None => Latest(s.tables, 1).None?
        case Some(u) => Latest(s.tables, 1).Some? && Latest(s.tables, 1).value.usage == u)
    && Ledger(PromptTokens, s.tables, 1) == ledger
  }

  lemma BooksAfterCreate()
    ensures var s := Exec(BOOT, Segment(Create(1, NO_TEXT, UNLIMITED, NO_TEXT, NO_TEXT, 0), 1));
            Idle(s, 1) && Books(s, NO_USAGE, NO_USAGE, None, 0.0)
  {
    var a := Create(1, NO_TEXT, UNLIMITED, NO_TEXT, NO_TEXT, 0);
    SegmentRuns(BOOT, a, 1);
    OneWrite(BOOT.tables, Started(BOOT, a).pending, 0);
    WriteIsSeen(BOOT.tables, Started(BOOT, a).pending[0]);
  }

  lemma BooksAfterStep(s: Sys, meter: Usage, checkpoint: Option<Usage>, ledger: Money)
    requires Idle(s, 1) && Books(s, meter, meter, checkpoint, ledger)
    ensures var s' := Exec(s, Segment(BeginStep(1, 0), 2));
            var u := meter.(loops := meter.loops + 1);
            Idle(s', 1) && Books(s', u, u, checkpoint, ledger)
  {
    var a := BeginStep(1, 0);
    var plan := Started(s, a).pending;
    SegmentRuns(s, a, 2);
    OneWrite(s.tables, plan, 0);
    OneWrite(s.tables, plan, 1);
    WriteIsSeen(s.tables, plan[0]);
    WriteIsSeen(Apply(s.tables, plan[0]), plan[1]);
  }

  lemma BooksAfterCheckpoint(s: Sys, meter: Usage, checkpoint: Option<Usage>, ledger: Money, payload: Payload)
    requires Idle(s, 1) && Books(s, meter, meter, checkpoint, ledger)
    ensures var s' := Exec(s, Segment(Checkpoint(1, NO_TEXT, payload, 0), 1));
            Idle(s', 1) && Books(s', meter, meter, Some(meter), ledger)
  {
    var a := Checkpoint(1, NO_TEXT, payload, 0);
    SegmentRuns(s, a, 1);
    OneWrite(s.tables, Started(s, a).pending, 0);
    WriteIsSeen(s.tables, Started(s, a).pending[0]);
  }

  /** Under no budget the call halts nothing, and its plan is ledger, step, row, checkpoint. */
  lemma TenTokenCall(r: RunState)
    requires r.gov.budget == UNLIMITED && r.gov.halted == NotHalted && r.id == 1
    ensures var r' := AfterRecordCall(r, TEN_TOKENS, 0);
            var plan := RecordCallPlan(r, TEN_TOKENS, 0);
            && r'.gov == r.gov.(usage := Spent(r.gov.usage, 10, 0, 0.0)) && r'.id == 1
            && |plan| == 4 && plan[0].AppendLedger? && plan[1].UpsertStep? && plan[2].UpsertRun?
            && (forall i | 0 <= i < 3 :: Target(plan[i]) == 1)
            && EntryAmount(PromptTokens, plan[0].entry) == 10.0
            && plan[2].run.usage == r'.gov.usage && plan[2].run.status == StatusRunning && plan[2].run.budget == UNLIMITED
  {
  }

  /** Cut off before its checkpoint: the ledger and the row have the call, the checkpoint has not. */
  lemma BooksAfterCutCall(s: Sys, meter: Usage, checkpoint: Option<Usage>, ledger: Money)
    requires Idle(s, 1) && Books(s, meter, meter, checkpoint, ledger)
    ensures var s' := Exec(s, Segment(RecordCall(1, TEN_TOKENS, 0), 3));
            var u := Spent(meter, 10, 0, 0.0);
            && Books(s', u, u, checkpoint, ledger + 10.0) && 1 in s'.live
            && InFlight(PromptTokens, s', 1) == 10.0
  {
    var a := RecordCall(1, TEN_TOKENS, 0);
    var act := Started(s, a);
    var plan := act.pending;
    TenTokenCall(s.live[1].run);
    SegmentRuns(s, a, 3);
    CutCallTables(s.tables, plan);
    assert act.pending[3..] != [];
  }

  lemma CutCallTables(t: Tables, plan: seq<Write>)
    requires |plan| >= 3 && plan[0].AppendLedger? && plan[1].UpsertStep? && plan[2].UpsertRun?
    requires Target(plan[0]) == Target(plan[1]) == Target(plan[2]) == 1
    ensures var t' := ApplyAll(t, plan[..3]);
            && Latest(t', 1) == Latest(t, 1)
            && Ledger(PromptTokens, t', 1) == Ledger(PromptTokens, t, 1) + EntryAmount(PromptTokens, plan[0].entry)
            && 1 in t'.runs && t'.runs[1].usage == plan[2].run.usage && t'.runs[1].id == 1
            && t'.runs[1].status == plan[2].run.status && t'.runs[1].budget == plan[2].run.budget
  {
    OneWrite(t, plan, 0);
    OneWrite(t, plan, 1);
    OneWrite(t, plan, 2);
    var t1 := Apply(t, plan[0]);
    WriteIsSeen(t, plan[0]);
    WriteIsSeen(t1, plan[1]);
    WriteIsSeen(Apply(t1, plan[1]), plan[2]);
  }

  lemma BooksAfterRestart(s: Sys, meter: Usage, row: Usage, checkpoint: Option<Usage>, ledger: Money)
    requires Books(s, meter, row, checkpoint, ledger)
    ensures var back := if checkpoint.Some? && checkpoint.value.loops < row.loops then checkpoint.value else row;
            Books(Exec(s, [Crash, Restore(1, 0)]), back, row, checkpoint, ledger)
    ensures checkpoint.None? || checkpoint.value.loops == row.loops ==> Idle(Exec(s, [Crash, Restore(1, 0)]), 1)
    ensures 1 in Exec(s, [Crash, Restore(1, 0)]).live
  {
    assert [Crash, Restore(1, 0)][..1] == [Crash] && [Crash][..0] == [];
    var down := s.(live := map[]);
    assert Exec(s, [Crash]) == down;
    assert Exec(s, [Crash, Restore(1, 0)]) == Next(down, Restore(1, 0));
  }

  /** One checkpointed step, a recording cut off before its checkpoint, a restart, then a second step. */
  function UpToSecondStep(): seq<Action> {
    Segment(Create(1, NO_TEXT, UNLIMITED, NO_TEXT, NO_TEXT, 0), 1) + Segment(BeginStep(1, 0), 2)
    + Segment(Checkpoint(1, NO_TEXT, None, 0), 1) + Segment(RecordCall(1, TEN_TOKENS, 0), 3)
    + [Crash, Restore(1, 0)] + Segment(BeginStep(1, 0), 2)
  }

  /**
   The first crash interrupts a ten-token call and costs the meter nothing; the second
   interrupts no call, and the meter falls ten tokens behind the ledger.
   */
  lemma ALaterCrashPays()
    ensures var s := Exec(BOOT, UpToSecondStep());
            var s' := Exec(BOOT, UpToSecondStep() + [Crash, Restore(1, 0)]);
            && Idle(s, 1) && InFlight(PromptTokens, s, 1) == 0.0
            && Used(PromptTokens, s.live[1].run.gov.usage) == Ledger(PromptTokens, s.tables, 1) == 10.0
            && 1 in s'.live && Ledger(PromptTokens, s'.tables, 1) == 10.0
            && Used(PromptTokens, s'.live[1].run.gov.usage) == 0.0
  {
    var one := Usage(0, 0, 0.0, 1);
    var p1 := Segment(Create(1, NO_TEXT, UNLIMITED, NO_TEXT, NO_TEXT, 0), 1);
    var p2 := p1 + Segment(BeginStep(1, 0), 2);
    var p3 := p2 + Segment(Checkpoint(1, NO_TEXT, None, 0), 1);
    var p4 := p3 + Segment(RecordCall(1, TEN_TOKENS, 0), 3);
    var p5 := p4 + [Crash, Restore(1, 0)];
    BooksAfterCreate();
    ExecConcat(BOOT, p1, Segment(BeginStep(1, 0), 2));
    BooksAfterStep(Exec(BOOT, p1), NO_USAGE, None, 0.0);
    ExecConcat(BOOT, p2, Segment(Checkpoint(1, NO_TEXT, None, 0), 1));
    BooksAfterCheckpoint(Exec(BOOT, p2), one, None, 0.0, None);
    ExecConcat(BOOT, p3, Segment(RecordCall(1, TEN_TOKENS, 0), 3));
    BooksAfterCutCall(Exec(BOOT, p3), one, Some(one), 0.0);
    ExecConcat(BOOT, p4, [Crash, Restore(1, 0)]);
    BooksAfterRestart(Exec(BOOT, p4), Usage(10, 0, 0.0, 1), Usage(10, 0, 0.0, 1), Some(one), 10.0);
    ExecConcat(BOOT, p5, Segment(BeginStep(1, 0), 2));
    BooksAfterStep(Exec(BOOT, p5), Usage(10, 0, 0.0, 1), Some(one), 10.0);
    ExecConcat(BOOT, UpToSecondStep(), [Crash, Restore(1, 0)]);
    BooksAfterRestart(Exec(BOOT, UpToSecondStep()), Usage(10, 0, 0.0, 2), Usage(10, 0, 0.0, 2), Some(one), 10.0);
  }
}
