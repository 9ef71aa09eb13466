/** The durable tables and the row semantics of the statements that touch them. */
module Storage {
  import opened Prelude
  import opened Governor

  /** Ids are only ever compared for equality. */
  type RunId = nat

  /** The status column: the strings "running", "halted" and "cancelled". */
  datatype RunStatus = StatusRunning | StatusHalted | StatusCancelled

  datatype RunRecord = RunRecord(
    id: RunId, name: Token, status: RunStatus, haltReason: HaltReason, policyRef: Token,
    budget: Budget, usage: Usage, metadata: Token, createdAt: Instant, updatedAt: Instant)

  datatype StepStatus = StepRunning | StepCompleted | StepHalted

  datatype StepRecord = StepRecord(
    runId: RunId, index: nat, status: StepStatus, prompt: nat, completion: nat, dollars: Money,
    startedAt: Instant, endedAt: Option<Instant>)

  datatype LedgerEntry = LedgerEntry(
    runId: RunId, stepIndex: nat, provider: Token, model: Token, prompt: nat, completion: nat,
    dollars: Money, priced: bool, responseId: Token, createdAt: Instant)

  /** A payload is known by the cursor it carries. A nil payload is stored, and read back, as the empty one. */
  type Payload = Option<nat>

  datatype CheckpointRecord = CheckpointRecord(
    runId: RunId, stepIndex: nat, name: Token, usage: Usage, payload: Payload, createdAt: Instant)

  datatype Tables = Tables(
    runs: map<RunId, RunRecord>,
    steps: map<(RunId, nat), StepRecord>,
    ledger: seq<LedgerEntry>,
    checkpoints: seq<CheckpointRecord>)

  const EMPTY_TABLES := Tables(map[], map[], [], [])

  /** Primary key of the runs table. */
  predicate Keyed(t: Tables) {
    forall id | id in t.runs :: t.runs[id].id == id
  }

  /** One durable write. Each is a single statement, so it happens entirely or not at all. */
  datatype Write =
    | UpsertRun(run: RunRecord)
    | UpsertStep(step: StepRecord)
    | AppendLedger(entry: LedgerEntry)
    | SaveCheckpoint(checkpoint: CheckpointRecord)

  function Target(w: Write): RunId {
    match w
    case UpsertRun(run) => run.id
    case UpsertStep(step) => step.runId
    case AppendLedger(entry) => entry.runId
    case SaveCheckpoint(checkpoint) => checkpoint.runId
  }

  /** On a conflict created_at and policy_ref keep their stored values. */
  function UpsertedRun(t: Tables, run: RunRecord): RunRecord {
    if run.id in t.runs
    then run.(createdAt := t.runs[run.id].createdAt, policyRef := t.runs[run.id].policyRef)
    else run
  }

  /** On a conflict started_at keeps its stored value. */
  function UpsertedStep(t: Tables, step: StepRecord): StepRecord {
    var key := (step.runId, step.index);
    if key in t.steps then step.(startedAt := t.steps[key].startedAt) else step
  }

  function Apply(t: Tables, w: Write): Tables {
    match w
    case UpsertRun(run) => t.(runs := t.runs[run.id := UpsertedRun(t, run)])
    case UpsertStep(step) => t.(steps := t.steps[(step.runId, step.index) := UpsertedStep(t, step)])
    case AppendLedger(entry) => t.(ledger := t.ledger + [entry])
    case SaveCheckpoint(checkpoint) => t.(checkpoints := t.checkpoints + [checkpoint])
  }

  function ApplyAll(t: Tables, ws: seq<Write>): Tables {
    if ws == [] then t else Apply(ApplyAll(t, ws[..|ws| - 1]), ws[|ws| - 1])
  }

  lemma {:induction false} ApplyAllConcat(t: Tables, a: seq<Write>, b: seq<Write>)
    ensures ApplyAll(t, a + b) == ApplyAll(ApplyAll(t, a), b)
  {
    if b == [] {
      assert a + b == a;
    } else {
      assert (a + b)[..|a + b| - 1] == a + b[..|b| - 1];
      ApplyAllConcat(t, a, b[..|b| - 1]);
    }
  }

  lemma OneWrite(t: Tables, plan: seq<Write>, k: nat)
    requires k < |plan|
    ensures ApplyAll(t, plan[..k + 1]) == Apply(ApplyAll(t, plan[..k]), plan[k])
  {
    assert plan[..k + 1][..k] == plan[..k];
  }

  /** The most recently appended checkpoint of a run. */
  function LatestCheckpoint(cps: seq<CheckpointRecord>, id: RunId): (r: Option<CheckpointRecord>)
    ensures r.Some? ==> r.value in cps && r.value.runId == id
    ensures r.None? <==> forall i | 0 <= i < |cps| :: cps[i].runId != id
  {
    if cps == [] then None
    else if cps[|cps| - 1].runId == id then Some(cps[|cps| - 1])
    else LatestCheckpoint(cps[..|cps| - 1], id)
  }

  /** It is the last one appended for the run, whatever was appended for others since. */
  lemma {:induction false} LatestIsLastAppended(cps: seq<CheckpointRecord>, id: RunId, i: nat)
    requires i < |cps| && cps[i].runId == id && forall j | i < j < |cps| :: cps[j].runId != id
    ensures LatestCheckpoint(cps, id) == Some(cps[i])
  {
    if i < |cps| - 1 {
      LatestIsLastAppended(cps[..|cps| - 1], id, i);
    }
  }

  /** The three quantities a call is metered in. */
  datatype Measure = PromptTokens | CompletionTokens | Dollars

  function Amount(m: Measure, prompt: nat, completion: nat, dollars: Money): (r: Money) {
    match m
    case PromptTokens => prompt as real
    case CompletionTokens => completion as real
    case Dollars => dollars
  }

  function Used(m: Measure, u: Usage): Money {
    Amount(m, u.prompt, u.completion, u.dollars)
  }

  function EntryAmount(m: Measure, e: LedgerEntry): Money {
    Amount(m, e.prompt, e.completion, e.dollars)
  }

  /** The sum the ledger query returns for one run. */
  function LedgerTotal(m: Measure, ledger: seq<LedgerEntry>, id: RunId): Money {
    if ledger == [] then 0.0
    else
      var e := ledger[|ledger| - 1];
      LedgerTotal(m, ledger[..|ledger| - 1], id) + if e.runId == id then EntryAmount(m, e) else 0.0
  }

  /** The number of calls the ledger query returns for one run. */
  function LedgerCalls(ledger: seq<LedgerEntry>, id: RunId): nat {
    if ledger == [] then 0
    else LedgerCalls(ledger[..|ledger| - 1], id) + if ledger[|ledger| - 1].runId == id then 1 else 0
  }

  /** An appended row moves each total of its own run by its own column, and no total of any other run. */
  lemma {:induction false} TotalsByColumn(ledger: seq<LedgerEntry>, e: LedgerEntry, id: RunId)
    ensures var more, own := ledger + [e], e.runId == id;
            && LedgerCalls(more, id) == LedgerCalls(ledger, id) + (if own then 1 else 0)
            && LedgerTotal(PromptTokens, more, id) == LedgerTotal(PromptTokens, ledger, id) + (if own then e.prompt as real else 0.0)
            && LedgerTotal(CompletionTokens, more, id) == LedgerTotal(CompletionTokens, ledger, id) + (if own then e.completion as real else 0.0)
            && LedgerTotal(Dollars, more, id) == LedgerTotal(Dollars, ledger, id) + (if own then e.dollars else 0.0)
  {
    assert (ledger + [e])[..|ledger|] == ledger;
  }

  predicate TotalsAre(ledger: seq<LedgerEntry>, id: RunId, calls: nat, prompt: nat, completion: nat, dollars: Money) {
    && calls == LedgerCalls(ledger, id)
    && prompt as real == LedgerTotal(PromptTokens, ledger, id)
    && completion as real == LedgerTotal(CompletionTokens, ledger, id)
    && dollars == LedgerTotal(Dollars, ledger, id)
  }

  lemma OneMoreEntry(ledger: seq<LedgerEntry>, e: LedgerEntry, id: RunId, calls: nat, prompt: nat, completion: nat, dollars: Money)
    requires TotalsAre(ledger, id, calls, prompt, completion, dollars)
    ensures if e.runId == id
            then TotalsAre(ledger + [e], id, calls + 1, prompt + e.prompt, completion + e.completion, dollars + e.dollars)
            else TotalsAre(ledger + [e], id, calls, prompt, completion, dollars)
  {
    TotalsByColumn(ledger, e, id);
  }

  /** Everything durable about one run that a restore or a total can see. */
  ghost predicate SameFor(t: Tables, t': Tables, id: RunId) {
    && (id in t.runs <==> id in t'.runs)
    && (id in t.runs ==> t.runs[id] == t'.runs[id])
    && LatestCheckpoint(t.checkpoints, id) == LatestCheckpoint(t'.checkpoints, id)
    && (forall m: Measure :: LedgerTotal(m, t.ledger, id) == LedgerTotal(m, t'.ledger, id))
  }

  /** A write is invisible to every run other than its own. */
  lemma {:induction false} WriteIsLocal(t: Tables, w: Write, id: RunId)
    requires Target(w) != id
    ensures SameFor(t, Apply(t, w), id)
  {
    match w
    case UpsertRun(_) =>
    case UpsertStep(_) =>
    case AppendLedger(entry) => assert (t.ledger + [entry])[..|t.ledger|] == t.ledger;
    case SaveCheckpoint(cp) => assert (t.checkpoints + [cp])[..|t.checkpoints|] == t.checkpoints;
  }

  lemma WriteIsSeen(t: Tables, w: Write)
    ensures var t' := Apply(t, w); var id := Target(w);
            && t'.runs.Keys == t.runs.Keys + (if w.UpsertRun? then {id} else {})
            && (w.UpsertRun? ==> t'.runs[id] == UpsertedRun(t, w.run))
            && (!w.UpsertRun? ==> t'.runs == t.runs)
            && LatestCheckpoint(t'.checkpoints, id)
               == (if w.SaveCheckpoint? then Some(w.checkpoint) else LatestCheckpoint(t.checkpoints, id))
            && (forall m: Measure ::
                  LedgerTotal(m, t'.ledger, id)
                  == LedgerTotal(m, t.ledger, id) + if w.AppendLedger? then EntryAmount(m, w.entry) else 0.0)
  {
    match w
    case UpsertRun(_) =>
    case UpsertStep(_) =>
    case AppendLedger(entry) => assert (t.ledger + [entry])[..|t.ledger|] == t.ledger;
    case SaveCheckpoint(cp) => assert (t.checkpoints + [cp])[..|t.checkpoints|] == t.checkpoints;
  }

  /** The store. `journal` is the history of writes this process made, in order. */
  class Store {
    var tables: Tables
    ghost const base: Tables
    ghost var journal: seq<Write>

    ghost predicate Valid()
      reads this
    {
      tables == ApplyAll(base, journal) && Keyed(tables)
    }

    constructor Open(existing: Tables)
      requires Keyed(existing)
      ensures Valid() && tables == base == existing && journal == []
    {
      tables := existing;
      base := existing;
      journal := [];
    }

    method UpsertRun(run: RunRecord)
      requires Valid()
      modifies this
      ensures Valid() && tables == Apply(old(tables), Write.UpsertRun(run))
      ensures journal == old(journal) + [Write.UpsertRun(run)]
    {
      var row := run;
      if run.id in tables.runs {
        row := row.(createdAt := tables.runs[run.id].createdAt, policyRef := tables.runs[run.id].policyRef);
      }
      tables := tables.(runs := tables.runs[run.id := row]);
      ghost var was := journal;
      journal := journal + [Write.UpsertRun(run)];
      assert journal[..|journal| - 1] == was;
    }

    method UpsertStep(step: StepRecord)
      requires Valid()
      modifies this
      ensures Valid() && tables == Apply(old(tables), Write.UpsertStep(step))
      ensures journal == old(journal) + [Write.UpsertStep(step)]
    {
      var row := step;
      var key := (step.runId, step.index);
      if key in tables.steps {
        row := row.(startedAt := tables.steps[key].startedAt);
      }
      tables := tables.(steps := tables.steps[key := row]);
      ghost var was := journal;
      journal := journal + [Write.UpsertStep(step)];
      assert journal[..|journal| - 1] == was;
    }

    method AppendLedger(entry: LedgerEntry)
      requires Valid()
      modifies this
      ensures Valid() && tables == Apply(old(tables), Write.AppendLedger(entry))
      ensures journal == old(journal) + [Write.AppendLedger(entry)]
    {
      tables := tables.(ledger := tables.ledger + [entry]);
      ghost var was := journal;
      journal := journal + [Write.AppendLedger(entry)];
      assert journal[..|journal| - 1] == was;
    }

    method SaveCheckpoint(checkpoint: CheckpointRecord)
      requires Valid()
      modifies this
      ensures Valid() && tables == Apply(old(tables), Write.SaveCheckpoint(checkpoint))
      ensures journal == old(journal) + [Write.SaveCheckpoint(checkpoint)]
    {
      tables := tables.(checkpoints := tables.checkpoints + [checkpoint]);
      ghost var was := journal;
      journal := journal + [Write.SaveCheckpoint(checkpoint)];
      assert journal[..|journal| - 1] == was;
    }

    method GetRun(id: RunId) returns (r: Option<RunRecord>)
      ensures r == if id in tables.runs then Some(tables.runs[id]) else None
    {
      if id in tables.runs {
        return Some(tables.runs[id]);
      }
      return None;
    }

    /** Every row with the given status, once each, in some order. */
    method ListRunsByStatus(status: RunStatus) returns (out: seq<RunRecord>)
      requires Valid()
      ensures forall i | 0 <= i < |out| ::
                out[i].id in tables.runs && tables.runs[out[i].id] == out[i] && out[i].status == status
      ensures forall i, j | 0 <= i < j < |out| :: out[i].id != out[j].id
      ensures forall id | id in tables.runs && tables.runs[id].status == status ::
                exists i :: 0 <= i < |out| && out[i].id == id
    {
      out := [];
      var todo := set id | id in tables.runs && tables.runs[id].status == status;
      ghost var all, listed := todo, {};
      while todo != {}
        invariant listed <= all && todo == all - listed
        invariant forall i | 0 <= i < |out| :: out[i].id in listed && tables.runs[out[i].id] == out[i]
        invariant forall i, j | 0 <= i < j < |out| :: out[i].id != out[j].id
        invariant forall id | id in listed :: exists i :: 0 <= i < |out| && out[i].id == id
      {
        var id :| id in todo;
        todo, listed := todo - {id}, listed + {id};
        ghost var was := out;
        out := out + [tables.runs[id]];
        assert out[|was|].id == id;
        forall k | k in listed ensures exists i :: 0 <= i < |out| && out[i].id == k {
          if k != id {
            var i :| 0 <= i < |was| && was[i].id == k;
            assert out[i].id == k;
          }
        }
      }
      forall id | id in tables.runs && tables.runs[id].status == status
        ensures exists i :: 0 <= i < |out| && out[i].id == id
      {
        assert id in all;
      }
    }

    /** The count of the run's ledger rows and the sums over them. */
    method Totals(id: RunId) returns (calls: nat, prompt: nat, completion: nat, dollars: Money)
      ensures TotalsAre(tables.ledger, id, calls, prompt, completion, dollars)
    {
      calls, prompt, completion, dollars := 0, 0, 0, 0.0;
      var i := 0;
      while i < |tables.ledger|
        invariant 0 <= i <= |tables.ledger|
        invariant TotalsAre(tables.ledger[..i], id, calls, prompt, completion, dollars)
      {
        var e := tables.ledger[i];
        assert tables.ledger[..i + 1] == tables.ledger[..i] + [e];
        OneMoreEntry(tables.ledger[..i], e, id, calls, prompt, completion, dollars);
        if e.runId == id {
          calls := calls + 1;
          prompt, completion, dollars := prompt + e.prompt, completion + e.completion, dollars + e.dollars;
        }
        i := i + 1;
      }
      assert tables.ledger[..i] == tables.ledger;
    }
  }
}
