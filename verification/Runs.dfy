/**
 Governed runs and their write-through persistence. A run's state is a value, RunState;
 each operation has a function giving the next state and a plan: the durable writes it
 makes, in order. The classes perform exactly these.
 */
module Runs {
  import opened Prelude
  import opened Governor
  import opened Storage

  datatype RunState = RunState(
    id: RunId, name: Token, policyRef: Token, metadata: Token,
    createdAt: Instant, updatedAt: Instant, curStepStarted: Instant, gov: Gov)

  /** The zero time of a run that has not begun a step. */
  const ZERO_TIME: Instant := 0

  datatype Call = Call(
    stepIndex: nat, provider: Token, model: Token, prompt: nat, completion: nat, dollars: Money,
    priced: bool, responseId: Token)

  function StatusFor(h: HaltReason): RunStatus {
    match h
    case NotHalted => StatusRunning
    case Cancelled => StatusCancelled
    case _ => StatusHalted
  }

  /** The persisted form of a run. */
  function Record(r: RunState): RunRecord {
    RunRecord(r.id, r.name, StatusFor(r.gov.halted), r.gov.halted, r.policyRef, r.gov.budget, r.gov.usage,
              r.metadata, r.createdAt, r.updatedAt)
  }

  function NewRunState(id: RunId, name: Token, budget: Budget, policyRef: Token,
                       metadata: Token, now: Instant): RunState {
    RunState(id, name, policyRef, metadata, now, now, ZERO_TIME, NewGov(budget, NO_USAGE, NotHalted, now))
  }

  // ----- operations: next state and plan -----

  function AfterBeginStep(r: RunState, now: Instant): RunState {
    var g := AfterPreStep(r.gov, now);
    if g.halted != NotHalted then r.(gov := g, updatedAt := now)
    else r.(gov := g, updatedAt := now, curStepStarted := now)
  }

  function BeginStepPlan(r: RunState, now: Instant): seq<Write> {
    var r' := AfterBeginStep(r, now);
    if r'.gov.halted != NotHalted then [UpsertRun(Record(r'))]
    else [UpsertStep(StepRecord(r.id, r'.gov.usage.loops, StepRunning, 0, 0, 0.0, now, None)), UpsertRun(Record(r'))]
  }

  function AfterProceed(r: RunState, now: Instant): RunState {
    var g := AfterCanProceed(r.gov, now);
    if g.halted != NotHalted then r.(gov := g, updatedAt := now) else r.(gov := g)
  }

  function ProceedPlan(r: RunState, now: Instant): seq<Write> {
    var r' := AfterProceed(r, now);
    if r'.gov.halted != NotHalted then [UpsertRun(Record(r'))] else []
  }

  function AfterRecordCall(r: RunState, c: Call, now: Instant): RunState {
    r.(gov := AfterRecordUsage(r.gov, c.prompt, c.completion, c.dollars, now), updatedAt := now)
  }

  function LedgerRow(id: RunId, c: Call, now: Instant): LedgerEntry {
    LedgerEntry(id, c.stepIndex, c.provider, c.model, c.prompt, c.completion, c.dollars, c.priced, c.responseId, now)
  }

  function RecordCallPlan(r: RunState, c: Call, now: Instant): seq<Write> {
    var r' := AfterRecordCall(r, c, now);
    [ AppendLedger(LedgerRow(r.id, c, now)),
      UpsertStep(StepRecord(r.id, c.stepIndex, if r'.gov.halted == NotHalted then StepCompleted else StepHalted,
                            c.prompt, c.completion, c.dollars, r.curStepStarted, Some(now))),
      UpsertRun(Record(r')),
      SaveCheckpoint(CheckpointRecord(r.id, c.stepIndex, NO_TEXT, r'.gov.usage, None, now)) ]
  }

  function AfterKill(r: RunState, now: Instant): RunState {
    r.(gov := AfterCancel(r.gov), updatedAt := now)
  }

  function KillPlan(r: RunState, now: Instant): seq<Write> {
    [UpsertRun(Record(AfterKill(r, now)))]
  }

  function CheckpointPlan(r: RunState, name: Token, payload: Payload, now: Instant): seq<Write> {
    [SaveCheckpoint(CheckpointRecord(r.id, r.gov.usage.loops, name, r.gov.usage, payload, now))]
  }

  // ----- restoring a run from its row -----

  predicate Terminal(rec: RunRecord) {
    rec.status == StatusHalted || rec.status == StatusCancelled
  }

  /** A live row one step ahead of the last checkpoint: the partial step is rolled back. */
  predicate RollsBack(cps: seq<CheckpointRecord>, rec: RunRecord) {
    var cp := LatestCheckpoint(cps, rec.id);
    !Terminal(rec) && cp.Some? && cp.value.usage.loops < rec.usage.loops
  }

  function RestoredUsage(cps: seq<CheckpointRecord>, rec: RunRecord): Usage {
    if RollsBack(cps, rec) then LatestCheckpoint(cps, rec.id).value.usage else rec.usage
  }

  function RestoredHalt(rec: RunRecord): HaltReason {
    if Terminal(rec) then rec.haltReason else NotHalted
  }

  function Restored(cps: seq<CheckpointRecord>, rec: RunRecord, now: Instant): RunState {
    RunState(rec.id, rec.name, rec.policyRef, rec.metadata, rec.createdAt, rec.updatedAt, ZERO_TIME,
             NewGov(rec.budget, RestoredUsage(cps, rec), RestoredHalt(rec), now))
  }

  function RestorePlan(cps: seq<CheckpointRecord>, rec: RunRecord, now: Instant): seq<Write> {
    if RollsBack(cps, rec) then [UpsertRun(Record(Restored(cps, rec, now)))] else []
  }

  /** The row a completed restore leaves behind. */
  function SettledRow(cps: seq<CheckpointRecord>, rec: RunRecord): RunRecord {
    if RollsBack(cps, rec) then rec.(status := StatusRunning, haltReason := NotHalted, usage := RestoredUsage(cps, rec))
    else rec
  }

  /** The tables a completed Reload leaves behind when `kept` are the runs already in memory. */
  function ReloadedTables(t: Tables, kept: set<RunId>): Tables {
    t.(runs := map id | id in t.runs ::
                 if id in kept || t.runs[id].status != StatusRunning then t.runs[id]
                 else SettledRow(t.checkpoints, t.runs[id]))
  }

  /** A write that a Reload of `t` can make. */
  predicate ReloadWrite(t: Tables, w: Write, now: Instant) {
    && w.UpsertRun? && w.run.id in t.runs && t.runs[w.run.id].status == StatusRunning
    && [w] == RestorePlan(t.checkpoints, t.runs[w.run.id], now)
  }

  /** A restore leaves the tables as they were, but for its own row settled. */
  lemma RestoreSettles(base: Tables, journal: seq<Write>, rec: RunRecord, now: Instant)
    requires var t := ApplyAll(base, journal); rec.id in t.runs && t.runs[rec.id] == rec
    ensures var t := ApplyAll(base, journal);
            ApplyAll(base, journal + RestorePlan(t.checkpoints, rec, now))
            == t.(runs := t.runs[rec.id := SettledRow(t.checkpoints, rec)])
  {
    var t := ApplyAll(base, journal);
    var plan := RestorePlan(t.checkpoints, rec, now);
    if RollsBack(t.checkpoints, rec) {
      assert (journal + plan)[..|journal + plan| - 1] == journal;
    } else {
      assert journal + plan == journal;
      assert t.runs[rec.id := rec] == t.runs;
    }
  }

  predicate ReloadWrites(t: Tables, ws: seq<Write>, now: Instant) {
    forall i | 0 <= i < |ws| :: ReloadWrite(t, ws[i], now)
  }

  /** The tables, the runs entered into memory, and the writes made. */
  datatype ReloadOutcome = ReloadOutcome(tables: Tables, entered: map<RunId, RunState>, plan: seq<Write>)

  /** The reload loop over the listed rows, when `kept` are the runs already in memory. */
  function ReloadLoop(t: Tables, recs: seq<RunRecord>, kept: set<RunId>, now: Instant): ReloadOutcome {
    if recs == [] then ReloadOutcome(t, map[], [])
    else
      var o := ReloadLoop(t, recs[..|recs| - 1], kept, now);
      var rec := recs[|recs| - 1];
      if rec.id in kept || rec.id in o.entered then o
      else
        var plan := RestorePlan(o.tables.checkpoints, rec, now);
        ReloadOutcome(ApplyAll(o.tables, plan), o.entered[rec.id := Restored(o.tables.checkpoints, rec, now)], o.plan + plan)
  }

  /** The rows listed by the reload query: the running ones, each once. */
  ghost predicate Listing(t: Tables, recs: seq<RunRecord>) {
    && (forall i | 0 <= i < |recs| ::
          recs[i].id in t.runs && t.runs[recs[i].id] == recs[i] && recs[i].status == StatusRunning)
    && (forall i, j | 0 <= i < j < |recs| :: recs[i].id != recs[j].id)
  }

  /** What the loop has done after a listing, row by row. */
  ghost predicate ListedIn(recs: seq<RunRecord>, id: RunId) {
    exists i :: 0 <= i < |recs| && recs[i].id == id
  }

  lemma ListedInMore(recs: seq<RunRecord>, id: RunId)
    requires recs != []
    ensures ListedIn(recs, id) <==> id == recs[|recs| - 1].id || ListedIn(recs[..|recs| - 1], id)
  {
    var before := recs[..|recs| - 1];
    if ListedIn(before, id) {
      var i :| 0 <= i < |before| && before[i].id == id;
      assert recs[i].id == id;
    }
  }

  lemma {:induction false} ReloadLoopEffect(t: Tables, recs: seq<RunRecord>, kept: set<RunId>, now: Instant)
    requires Listing(t, recs)
    ensures var o := ReloadLoop(t, recs, kept, now);
            && o.tables == t.(runs := o.tables.runs) && o.tables.runs.Keys == t.runs.Keys
            && (forall id | id in t.runs ::
                  o.tables.runs[id] == if id in o.entered then SettledRow(t.checkpoints, t.runs[id]) else t.runs[id])
            && (forall id :: id in o.entered <==> id !in kept && ListedIn(recs, id))
            && (forall id | id in o.entered :: id in t.runs && o.entered[id] == Restored(t.checkpoints, t.runs[id], now))
            && ReloadWrites(t, o.plan, now)
  {
    if recs != [] {
      var rec := recs[|recs| - 1];
      var before := recs[..|recs| - 1];
      ReloadLoopEffect(t, before, kept, now);
      var o := ReloadLoop(t, before, kept, now);
      forall id { ListedInMore(recs, id); }
      if rec.id !in kept {
        ReloadTurn(t, o.tables, rec, now);
      }
    }
  }

  /** One turn of the loop, in tables where the row is still as listed. */
  lemma ReloadTurn(t: Tables, cur: Tables, rec: RunRecord, now: Instant)
    requires cur.checkpoints == t.checkpoints && rec.id in cur.runs && cur.runs[rec.id] == rec
    requires rec.id in t.runs && t.runs[rec.id] == rec && rec.status == StatusRunning
    ensures var plan := RestorePlan(cur.checkpoints, rec, now);
            && ApplyAll(cur, plan) == cur.(runs := cur.runs[rec.id := SettledRow(t.checkpoints, rec)])
            && ReloadWrites(t, plan, now)
  {
    var plan := RestorePlan(cur.checkpoints, rec, now);
    RestoreSettles(cur, [], rec, now);
    assert [] + plan == plan;
  }

  /** A completed reload enters exactly the running rows not kept and settles those rows, whatever the listing order. */
  lemma ReloadCompletes(t: Tables, recs: seq<RunRecord>, kept: set<RunId>, now: Instant)
    requires Listing(t, recs)
    requires forall id | id in t.runs && t.runs[id].status == StatusRunning :: ListedIn(recs, id)
    ensures var o := ReloadLoop(t, recs, kept, now);
            && o.tables == ReloadedTables(t, kept)
            && o.entered == (map id | id in t.runs && t.runs[id].status == StatusRunning && id !in kept ::
                               Restored(t.checkpoints, t.runs[id], now))
            && ReloadWrites(t, o.plan, now)
  {
    ReloadLoopEffect(t, recs, kept, now);
    var o := ReloadLoop(t, recs, kept, now);
    assert o.tables.runs == ReloadedTables(t, kept).runs;
  }

  lemma Associative<T>(a: seq<T>, b: seq<T>, c: seq<T>)
    ensures (a + b) + c == a + (b + c)
  {
  }

  // ----- the objects -----

  class Run {
    const id: RunId
    const name: Token
    const metadata: Token
    const createdAt: Instant
    const mgr: Manager
    const gov: Governor.Run
    var policyRef: Token
    var updatedAt: Instant
    var curStepStarted: Instant

    ghost function State(): RunState
      reads this, gov
    {
      RunState(id, name, policyRef, metadata, createdAt, updatedAt, curStepStarted, gov.State())
    }

    /** newRun: a run that has used nothing. */
    constructor Fresh(m: Manager, id: RunId, name: Token, budget: Budget, metadata: Token, now: Instant)
      ensures State() == NewRunState(id, name, budget, NO_TEXT, metadata, now)
      ensures mgr == m && fresh(gov) && gov.owner == id
    {
      this.id, this.name, this.metadata, mgr := id, name, metadata, m;
      createdAt, updatedAt, curStepStarted, policyRef := now, now, ZERO_TIME, NO_TEXT;
      var g := new Governor.Run.New(budget, NO_USAGE, NotHalted, now, id);
      gov := g;
    }

    /** The run literal of reloadRun: a run rebuilt from a row. */
    constructor FromRow(m: Manager, rec: RunRecord, usage: Usage, halt: HaltReason, now: Instant)
      ensures State() == RunState(rec.id, rec.name, rec.policyRef, rec.metadata, rec.createdAt, rec.updatedAt,
                                  ZERO_TIME, NewGov(rec.budget, usage, halt, now))
      ensures mgr == m && fresh(gov) && gov.owner == id
    {
      id, name, metadata, mgr := rec.id, rec.name, rec.metadata, m;
      createdAt, updatedAt, curStepStarted, policyRef := rec.createdAt, rec.updatedAt, ZERO_TIME, rec.policyRef;
      var g := new Governor.Run.New(rec.budget, usage, halt, now, rec.id);
      gov := g;
    }

    method BeginStep(now: Instant) returns (index: nat, err: Option<HaltError>)
      requires mgr.DiskOk()
      modifies this, gov, mgr.store
      ensures State() == AfterBeginStep(old(State()), now)
      ensures err == Verdict(State().gov)
      ensures index == if err.None? then State().gov.usage.loops else 0
      ensures mgr.Wrote(BeginStepPlan(old(State()), now))
    {
      err := gov.PreStep(now);
      if err.Some? {
        PersistHalt(now);
        return 0, err;
      }
      updatedAt := now;
      curStepStarted := now;
      mgr.PersistStepStart(this, gov.usage.loops, now);
      index := gov.usage.loops;
    }

    method CanProceed(now: Instant) returns (err: Option<HaltError>)
      requires mgr.DiskOk()
      modifies this, gov, mgr.store
      ensures State() == AfterProceed(old(State()), now)
      ensures err == Verdict(State().gov)
      ensures mgr.Wrote(ProceedPlan(old(State()), now))
    {
      err := gov.CanProceed(now);
      if err.Some? {
        PersistHalt(now);
      }
    }

    method PersistHalt(now: Instant)
      requires mgr.DiskOk()
      modifies this`updatedAt, mgr.store
      ensures State() == old(State()).(updatedAt := now)
      ensures mgr.Wrote([UpsertRun(Record(State()))])
    {
      updatedAt := now;
      mgr.PersistRun(this);
    }

    method RecordCall(c: Call, now: Instant) returns (err: Option<HaltError>)
      requires mgr.DiskOk()
      modifies this, gov, mgr.store
      ensures State() == AfterRecordCall(old(State()), c, now)
      ensures err == Verdict(State().gov)
      ensures mgr.Wrote(RecordCallPlan(old(State()), c, now))
    {
      err := gov.RecordUsage(c.prompt, c.completion, c.dollars, now);
      updatedAt := now;
      mgr.PersistCall(this, c, err, now);
    }

    method Cancel(now: Instant)
      requires mgr.DiskOk()
      modifies this, gov, mgr.store
      ensures State() == AfterKill(old(State()), now)
      ensures mgr.Wrote(KillPlan(old(State()), now))
    {
      gov.Cancel();
      updatedAt := now;
      mgr.PersistRun(this);
    }

    method Close()
      modifies gov
      ensures State() == old(State()).(gov := old(State()).gov.(cancelled := true))
    {
      gov.Close();
    }

    method ToRecord() returns (rec: RunRecord)
      ensures rec == Record(State())
    {
      var status := if gov.halted == NotHalted then StatusRunning
                    else if gov.halted == Cancelled then StatusCancelled else StatusHalted;
      rec := RunRecord(id, name, status, gov.halted, policyRef, gov.budget, gov.usage, metadata, createdAt, updatedAt);
    }
  }

  /** No id means mint one; no budget means the manager's default. */
  datatype CreateOptions = CreateOptions(
    id: Option<RunId>, name: Token, budget: Option<Budget>, policyRef: Token, metadata: Token)

  class Manager {
    const defaultBudget: Budget
    const store: Store?
    var runs: map<RunId, Run>

    ghost predicate DiskOk()
      reads this, store
    {
      store != null ==> store.Valid()
    }

    /** Exactly these writes reached the store, in this order; with no store there are none. */
    twostate predicate Wrote(plan: seq<Write>)
      reads this, store
    {
      store != null ==> store.Valid() && store.journal == old(store.journal) + plan
    }

    /** Every entry is filed under its own id and owns its own governor. */
    ghost predicate Valid()
      reads this, store
    {
      && DiskOk()
      && (forall id | id in runs :: runs[id].id == id && runs[id].mgr == this && runs[id].gov.owner == id)
    }

    constructor (defaultBudget: Budget, store: Store?)
      requires store != null ==> store.Valid()
      ensures Valid() && runs == map[] && this.defaultBudget == defaultBudget && this.store == store
    {
      this.defaultBudget, this.store, runs := defaultBudget, store, map[];
    }

    method Get(id: RunId) returns (r: Option<Run>)
      ensures r == if id in runs then Some(runs[id]) else None
    {
      if id in runs {
        return Some(runs[id]);
      }
      return None;
    }

    /** `minted` is the UUID drawn when the options name no id. */
    method Create(opts: CreateOptions, minted: RunId, now: Instant) returns (r: Run)
      requires Valid()
      modifies this`runs, store
      ensures Valid() && fresh(r) && fresh(r.gov)
      ensures r.State() == NewRunState(if opts.id.Some? then opts.id.value else minted, opts.name,
                                       if opts.budget.Some? then opts.budget.value else defaultBudget,
                                       opts.policyRef, opts.metadata, now)
      ensures runs == old(runs)[r.id := r]
      ensures Wrote([UpsertRun(Record(r.State()))])
    {
      var budget := defaultBudget;
      if opts.budget.Some? {
        budget := opts.budget.value;
      }
      var rid := minted;
      if opts.id.Some? {
        rid := opts.id.value;
      }
      r := new Run.Fresh(this, rid, opts.name, budget, opts.metadata, now);
      r.policyRef := opts.policyRef;
      runs := runs[rid := r];
      PersistRun(r);
    }

    /**
     The entry if there is one; else the stored run restored, whatever its status; else a
     fresh run under the default budget. An existing run is never handed a fresh budget.
     */
    method GetOrCreate(id: RunId, now: Instant) returns (r: Run)
      requires Valid()
      modifies this`runs, store
      ensures Valid() && r.mgr == this
      ensures id in old(runs) ==> r == old(runs)[id] && runs == old(runs) && Wrote([])
      ensures id !in old(runs) ==> fresh(r) && fresh(r.gov) && runs == old(runs)[id := r]
      ensures id !in old(runs) && store != null && id in old(store.tables.runs) ==>
                var rec := old(store.tables.runs[id]);
                && r.State() == Restored(old(store.tables.checkpoints), rec, now)
                && Wrote(RestorePlan(old(store.tables.checkpoints), rec, now))
      ensures id !in old(runs) && (store == null || id !in old(store.tables.runs)) ==>
                && r.State() == NewRunState(id, NO_TEXT, defaultBudget, NO_TEXT, NO_TEXT, now)
                && Wrote([UpsertRun(Record(r.State()))])
    {
      var found := Get(id);
      if found.Some? {
        return found.value;
      }
      var restored := RestoreFromStore(id, now);
      if restored == null {
        r := new Run.Fresh(this, id, NO_TEXT, defaultBudget, NO_TEXT, now);
      } else {
        r := restored;
      }
      runs := runs[id := r];
      if restored == null {
        PersistRun(r);
      }
    }

    method RestoreFromStore(id: RunId, now: Instant) returns (r: Run?)
      requires DiskOk()
      modifies store
      ensures r == null <==> store == null || id !in old(store.tables.runs)
      ensures r == null ==> Wrote([])
      ensures r != null ==>
                var rec := old(store.tables.runs[id]);
                && fresh(r) && fresh(r.gov) && r.mgr == this && r.id == r.gov.owner == id
                && r.State() == Restored(old(store.tables.checkpoints), rec, now)
                && Wrote(RestorePlan(old(store.tables.checkpoints), rec, now))
    {
      if store == null {
        return null;
      }
      var rec := store.GetRun(id);
      if rec.None? {
        return null;
      }
      r := ReloadRun(rec.value, now);
    }

    /** Restores the running rows. Returns how many were not in memory already. */
    method Reload(now: Instant) returns (n: nat)
      requires Valid()
      modifies this`runs, store
      ensures Valid()
      ensures store == null ==> n == 0 && runs == old(runs)
      ensures forall id | id in old(runs) :: id in runs && runs[id] == old(runs)[id]
      ensures store != null ==>
                var t := old(store.tables);
                && n == |set id | id in t.runs && t.runs[id].status == StatusRunning && id !in old(runs)|
                && (forall id :: id in runs <==> id in old(runs) || (id in t.runs && t.runs[id].status == StatusRunning))
                && (forall id | id in runs && id !in old(runs) ::
                      runs[id].State() == Restored(t.checkpoints, t.runs[id], now))
                && store.tables == ReloadedTables(t, old(runs).Keys)
                && old(store.journal) <= store.journal
                && ReloadWrites(t, store.journal[|old(store.journal)|..], now)
    {
      if store == null {
        return 0;
      }
      ghost var t, kept := store.tables, runs.Keys;
      var recs := store.ListRunsByStatus(StatusRunning);
      n := ReloadAll(recs, now);
      ReloadCompletes(t, recs, kept, now);
      assert ReloadLoop(t, recs, kept, now).entered.Keys
          == set id | id in t.runs && t.runs[id].status == StatusRunning && id !in kept;
    }

    method ReloadAll(recs: seq<RunRecord>, now: Instant) returns (n: nat)
      requires Valid() && store != null
      modifies this`runs, store
      ensures Valid()
      ensures forall id | id in old(runs) :: id in runs && runs[id] == old(runs)[id]
      ensures var o := ReloadLoop(old(store.tables), recs, old(runs).Keys, now);
              && n == |o.entered|
              && store.tables == o.tables && store.journal == old(store.journal) + o.plan
              && (forall id :: id in runs <==> id in old(runs) || id in o.entered)
              && (forall id | id in o.entered :: runs[id].State() == o.entered[id])
    {
      ghost var o := ReloadOutcome(store.tables, map[], []);
      n := 0;
      var i := 0;
      while i < |recs|
        invariant 0 <= i <= |recs|
        invariant Valid()
        invariant o == ReloadLoop(old(store.tables), recs[..i], old(runs).Keys, now)
        invariant n == |o.entered|
        invariant forall id | id in old(runs) :: id in runs && runs[id] == old(runs)[id]
        invariant store.tables == o.tables && store.journal == old(store.journal) + o.plan
        invariant forall id | id in runs :: id in old(runs) || id in o.entered
        invariant forall id | id in o.entered :: id in runs && runs[id].State() == o.entered[id]
      {
        assert recs[..i + 1][..i] == recs[..i];
        var rec := recs[i];
        if rec.id !in runs {
          ghost var step := RestorePlan(o.tables.checkpoints, rec, now);
          Associative(old(store.journal), o.plan, step);
          o := ReloadOutcome(ApplyAll(o.tables, step), o.entered[rec.id := Restored(o.tables.checkpoints, rec, now)],
                             o.plan + step);
          ReloadOne(rec, now);
          n := n + 1;
        }
        i := i + 1;
      }
      assert recs[..i] == recs;
    }

    method ReloadOne(rec: RunRecord, now: Instant)
      requires Valid() && store != null && rec.id !in runs
      modifies this`runs, store
      ensures Valid()
      ensures rec.id in runs && runs[rec.id].State() == Restored(old(store.tables.checkpoints), rec, now)
      ensures forall id | id in old(runs) :: id in runs && runs[id] == old(runs)[id] && runs[id].State() == old(runs[id].State())
      ensures forall id | id in runs :: id in old(runs) || id == rec.id
      ensures store.tables == ApplyAll(old(store.tables), RestorePlan(old(store.tables.checkpoints), rec, now))
      ensures store.journal == old(store.journal) + RestorePlan(old(store.tables.checkpoints), rec, now)
    {
      var r := ReloadRun(rec, now);
      runs := runs[rec.id := r];
    }

    method ReloadRun(rec: RunRecord, now: Instant) returns (r: Run)
      requires DiskOk() && store != null
      modifies store
      ensures fresh(r) && fresh(r.gov) && r.mgr == this && r.id == r.gov.owner == rec.id
      ensures r.State() == Restored(old(store.tables.checkpoints), rec, now)
      ensures Wrote(RestorePlan(old(store.tables.checkpoints), rec, now))
      ensures store.tables == ApplyAll(old(store.tables), RestorePlan(old(store.tables.checkpoints), rec, now))
    {
      ghost var was, journal := store.tables, store.journal;
      var usage := rec.usage;
      var terminal := rec.status == StatusHalted || rec.status == StatusCancelled;
      var rolledBack := false;
      if !terminal {
        var cp := LatestCheckpoint(store.tables.checkpoints, rec.id);
        if cp.Some? && cp.value.usage.loops < rec.usage.loops {
          usage := cp.value.usage;
          rolledBack := true;
        }
      }
      r := new Run.FromRow(this, rec, usage, if terminal then rec.haltReason else NotHalted, now);
      if rolledBack {
        PersistRun(r);
      }
      ApplyAllConcat(store.base, journal, RestorePlan(was.checkpoints, rec, now));
    }

    /** Saves a checkpoint of the run's usage with the caller's payload; false if the run is unknown. */
    method Checkpoint(id: RunId, name: Token, payload: Payload, now: Instant) returns (ok: bool)
      requires Valid()
      modifies store
      ensures ok <==> id in runs
      ensures Wrote(if ok then CheckpointPlan(runs[id].State(), name, payload, now) else [])
      ensures forall k | k in runs :: runs[k].State() == old(runs[k].State())
    {
      var r := Get(id);
      if r.None? {
        return false;
      }
      if store != null {
        var u := r.value.gov.usage;
        store.SaveCheckpoint(CheckpointRecord(id, u.loops, name, u, payload, now));
      }
      ok := true;
    }

    method PersistRun(r: Run)
      requires DiskOk()
      modifies store
      ensures Wrote([UpsertRun(Record(r.State()))])
    {
      if store == null {
        return;
      }
      var rec := r.ToRecord();
      store.UpsertRun(rec);
    }

    method PersistStepStart(r: Run, index: nat, started: Instant)
      requires DiskOk()
      modifies store
      ensures Wrote([UpsertStep(StepRecord(r.id, index, StepRunning, 0, 0, 0.0, started, None)),
                     UpsertRun(Record(r.State()))])
    {
      if store == null {
        return;
      }
      store.UpsertStep(StepRecord(r.id, index, StepRunning, 0, 0, 0.0, started, None));
      PersistRun(r);
    }

    method PersistCall(r: Run, c: Call, haltErr: Option<HaltError>, now: Instant)
      requires DiskOk()
      modifies store
      ensures Wrote([ AppendLedger(LedgerRow(r.id, c, now)),
                      UpsertStep(StepRecord(r.id, c.stepIndex, if haltErr.None? then StepCompleted else StepHalted,
                                            c.prompt, c.completion, c.dollars, r.curStepStarted, Some(now))),
                      UpsertRun(Record(r.State())),
                      SaveCheckpoint(CheckpointRecord(r.id, c.stepIndex, NO_TEXT, r.gov.usage, None, now)) ])
    {
      if store == null {
        return;
      }
      store.AppendLedger(LedgerEntry(r.id, c.stepIndex, c.provider, c.model, c.prompt, c.completion, c.dollars,
                                     c.priced, c.responseId, now));
      var stepStatus := StepCompleted;
      if haltErr.Some? {
        stepStatus := StepHalted;
      }
      store.UpsertStep(StepRecord(r.id, c.stepIndex, stepStatus, c.prompt, c.completion, c.dollars,
                                  r.curStepStarted, Some(now)));
      PersistRun(r);
      store.SaveCheckpoint(CheckpointRecord(r.id, c.stepIndex, NO_TEXT, r.gov.usage, None, now));
    }
  }
}
