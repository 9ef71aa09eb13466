/**
 The checkpointing agent on top of the machine: step, work, checkpoint(cursor + 1), and
 after a daemon crash resume at the latest checkpoint's cursor. Other clients use other
 runs, unless the run is shared; an operator may kill this one.
 */
module Agent {
  import opened Prelude
  import opened Governor
  import opened Storage
  import opened Runs
  import opened Machine
  import opened MachineInvariant

  /** No attempt running; at the head of the loop; between a granted step and its checkpoint. */
  datatype Phase = Off | AtHead | InStep

  /** `shared` says whether model calls are also made on the agent's run. */
  datatype World = World(sys: Sys, me: RunId, total: nat, phase: Phase, i: nat, shared: bool)

  datatype Event =
    | Open(budget: Budget, now: Instant)
    | Resume
    | Step(now: Instant)
    | Save(title: Token, now: Instant)
    | Leave
    | Environment(a: Action)

  /** The checkpoints of one run, oldest first. */
  function Mine(cps: seq<CheckpointRecord>, id: RunId): seq<CheckpointRecord> {
    if cps == [] then []
    else Mine(cps[..|cps| - 1], id) + if cps[|cps| - 1].runId == id then [cps[|cps| - 1]] else []
  }

  /** The newest of them is the one a restore reads. */
  lemma {:induction false} LatestIsLastOfMine(cps: seq<CheckpointRecord>, id: RunId)
    ensures var mine := Mine(cps, id);
            LatestCheckpoint(cps, id) == if mine == [] then None else Some(mine[|mine| - 1])
  {
    if cps != [] {
      LatestIsLastOfMine(cps[..|cps| - 1], id);
    }
  }

  /** Where a resumed attempt starts: an absent checkpoint and an empty payload both mean 0. */
  function Cursor(t: Tables, id: RunId): nat {
    var cp := Latest(t, id);
    if cp.Some? && cp.value.payload.Some? then cp.value.payload.value else 0
  }

  /** What the rest of the world may do: write, crash, restore, kill, anything on other runs, and calls on a shared one. */
  predicate Foreign(w: World, a: Action) {
    || a.Crash? || a.Flush? || a.Restore? || a.Kill? || a.id != w.me
    || (w.shared && (a.BeginStep? || a.Proceed? || a.RecordCall?))
  }

  predicate Possible(w: World, e: Event) {
    match e
    case Open(budget, now) => w.phase == Off && Enabled(w.sys, Create(w.me, NO_TEXT, budget, NO_TEXT, NO_TEXT, now))
    case Resume => w.phase == Off && Idle(w.sys, w.me)
    case Step(_) => w.phase == AtHead && w.i < w.total && Idle(w.sys, w.me)
    case Save(_, _) => w.phase == InStep && Idle(w.sys, w.me)
    case Leave => w.phase == AtHead && Idle(w.sys, w.me)
    case Environment(a) => Foreign(w, a) && Enabled(w.sys, a)
  }

  function Advance(w: World, e: Event): World {
    if !Possible(w, e) then w
    else match e
      case Open(budget, now) =>
        w.(sys := Next(w.sys, Create(w.me, NO_TEXT, budget, NO_TEXT, NO_TEXT, now)), phase := AtHead, i := 0)
      case Resume => w.(phase := AtHead, i := Cursor(w.sys.tables, w.me))
      case Step(now) =>
        var sys := Next(w.sys, BeginStep(w.me, now));
        w.(sys := sys, phase := if sys.live[w.me].run.gov.halted == NotHalted then InStep else Off)
      case Save(title, now) =>
        w.(sys := Next(w.sys, Checkpoint(w.me, title, Some(w.i + 1), now)), phase := AtHead, i := w.i + 1)
      case Leave => w.(phase := Off)
      case Environment(a) => w.(sys := Next(w.sys, a), phase := if a.Crash? then Off else w.phase)
  }

  function Begin(me: RunId, total: nat): World {
    World(BOOT, me, total, Off, 0, false)
  }

  function Live(w: World, es: seq<Event>): World {
    if es == [] then w else Advance(Live(w, es[..|es| - 1]), es[|es| - 1])
  }

  predicate Saving(act: Active) {
    act.pending != [] && act.pending[0].SaveCheckpoint?
  }

  /** The first step is in the durable row, and no checkpoint is durable yet. */
  predicate Exposed(w: World) {
    && Latest(w.sys.tables, w.me).None?
    && w.me in w.sys.live && w.me in w.sys.tables.runs
    && (w.phase == InStep || (w.phase == AtHead && Saving(w.sys.live[w.me])))
    && w.sys.tables.runs[w.me].usage.loops == w.sys.live[w.me].run.gov.usage.loops
  }

  /** How many crashes hit the exposed window: each leaves a step in the row that will be redone. */
  function Kept(w: World, es: seq<Event>): nat {
    if es == [] then 0
    else
      var before := es[..|es| - 1];
      Kept(w, before) + if es[|es| - 1] == Environment(Crash) && Exposed(Live(w, before)) then 1 else 0
  }

  // ----- the invariant -----

  predicate Numbered(mine: seq<CheckpointRecord>, kept: nat) {
    forall j | 0 <= j < |mine| :: mine[j].payload == Some(j + 1) && mine[j].usage.loops == j + 1 + kept
  }

  /** Exactly the finished steps, or one more on a run that will never be granted another. */
  predicate Counts(w: World, loops: nat, halted: HaltReason, done: nat, kept: nat) {
    loops == done + kept || (halted != NotHalted && done < w.total && loops == done + kept + 1)
  }

  predicate RowCounts(w: World, done: nat, kept: nat) {
    && (w.me !in w.sys.tables.runs ==> kept == 0)
    && (w.me in w.sys.tables.runs ==>
          var row := w.sys.tables.runs[w.me];
          && done + kept <= row.usage.loops <= done + kept + 1
          && (row.usage.loops == done + kept + 1 ==> done < w.total)
          && (done == 0 && row.haltReason == NotHalted && row.usage.loops == kept + 1 ==> Exposed(w)))
  }

  predicate LiveCounts(w: World, act: Active, done: nat, kept: nat) {
    var g := act.run.gov;
    && (forall i | 0 < i < |act.pending| :: !act.pending[i].SaveCheckpoint?)
    && (Saving(act) ==>
          && w.phase == AtHead && |act.pending| == 1 && done < w.total && w.i == done + 1
          && act.pending[0].checkpoint.payload == Some(done + 1) && g.usage.loops == done + 1 + kept)
    && (!Saving(act) ==>
          && (w.phase == AtHead ==> w.i == done)
          && (w.phase == InStep ==> w.i == done && done < w.total && g.usage.loops == done + 1 + kept)
          && (w.phase != InStep ==> Counts(w, g.usage.loops, g.halted, done, kept)))
  }

  predicate Exact(w: World, kept: nat) {
    var mine := Mine(w.sys.tables.checkpoints, w.me);
    && !w.shared
    && Numbered(mine, kept) && |mine| <= w.total
    && RowCounts(w, |mine|, kept)
    && (w.me in w.sys.live ==> LiveCounts(w, w.sys.live[w.me], |mine|, kept))
    && (w.me !in w.sys.live ==> w.phase == Off)
  }

  // ----- every event keeps it -----

  lemma MineAfter(t: Tables, w: Write, id: RunId)
    ensures Mine(Apply(t, w).checkpoints, id)
         == Mine(t.checkpoints, id) + if w.SaveCheckpoint? && Target(w) == id then [w.checkpoint] else []
  {
    if w.SaveCheckpoint? {
      assert (t.checkpoints + [w.checkpoint])[..|t.checkpoints|] == t.checkpoints;
    }
  }

  lemma CursorIsCount(w: World, kept: nat)
    requires Numbered(Mine(w.sys.tables.checkpoints, w.me), kept)
    ensures Cursor(w.sys.tables, w.me) == |Mine(w.sys.tables.checkpoints, w.me)|
  {
    LatestIsLastOfMine(w.sys.tables.checkpoints, w.me);
  }

  lemma OpenKeeps(w: World, e: Event, kept: nat)
    requires e.Open? && Possible(w, e) && RunOk(w.sys, w.me) && Exact(w, kept)
    ensures Exact(Advance(w, e), kept)
  {
    LatestIsLastOfMine(w.sys.tables.checkpoints, w.me);
  }

  lemma StepPlanShape(r: RunState, now: Instant)
    ensures forall i | 0 <= i < |BeginStepPlan(r, now)| :: !BeginStepPlan(r, now)[i].SaveCheckpoint?
    ensures var g, g' := r.gov, AfterBeginStep(r, now).gov;
            && (g.halted != NotHalted ==> g'.halted != NotHalted)
            && g'.usage.loops == g.usage.loops + if g'.halted == NotHalted then 1 else 0
  {
  }

  lemma StepKeepsExact(w: World, e: Event, kept: nat)
    requires e.Step? && Possible(w, e) && Exact(w, kept)
    requires w.me in w.sys.tables.runs && Mirrors(w.sys.tables.runs[w.me], w.sys.live[w.me].run)
    ensures Exact(Advance(w, e), kept)
  {
    StepPlanShape(w.sys.live[w.me].run, e.now);
    assert Mine(Advance(w, e).sys.tables.checkpoints, w.me) == Mine(w.sys.tables.checkpoints, w.me);
  }

  /** What a queued checkpoint shows the invariant. */
  lemma SaveShows(w: World, e: Event)
    requires e.Save? && Possible(w, e)
    ensures var w', act := Advance(w, e), w.sys.live[w.me];
            && w' == w.(sys := w'.sys, phase := AtHead, i := w.i + 1)
            && w'.sys.tables == w.sys.tables
            && w.me in w'.sys.live && w'.sys.live[w.me].run == act.run
            && |w'.sys.live[w.me].pending| == 1 && Saving(w'.sys.live[w.me])
            && w'.sys.live[w.me].pending[0].checkpoint.payload == Some(w.i + 1)
  {
  }

  lemma SaveKeepsCounts(w: World, w': World, done: nat, kept: nat)
    requires w.phase == InStep && w' == w.(sys := w'.sys, phase := AtHead, i := w.i + 1)
    requires w'.sys.tables == w.sys.tables && w.me in w.sys.live && w.sys.live[w.me].pending == []
    requires w.me in w'.sys.live && w'.sys.live[w.me].run == w.sys.live[w.me].run
    requires |w'.sys.live[w.me].pending| == 1 && Saving(w'.sys.live[w.me])
    requires w'.sys.live[w.me].pending[0].checkpoint.payload == Some(w.i + 1)
    requires LiveCounts(w, w.sys.live[w.me], done, kept) && RowCounts(w, done, kept)
    ensures LiveCounts(w', w'.sys.live[w.me], done, kept) && RowCounts(w', done, kept)
  {
    assert Exposed(w) ==> Exposed(w');
  }

  lemma SaveKeepsExact(w: World, e: Event, kept: nat)
    requires e.Save? && Possible(w, e) && Exact(w, kept)
    ensures Exact(Advance(w, e), kept)
  {
    SaveShows(w, e);
    SaveKeepsCounts(w, Advance(w, e), |Mine(w.sys.tables.checkpoints, w.me)|, kept);
  }

  /** Attaching and leaving write nothing. */
  lemma AttachKeepsExact(w: World, e: Event, kept: nat)
    requires (e.Resume? || e.Leave?) && Possible(w, e) && RunOk(w.sys, w.me) && Exact(w, kept)
    ensures Exact(Advance(w, e), kept)
  {
    CursorIsCount(w, kept);
  }

  lemma CrashKeeps(w: World, kept: nat)
    requires RunOk(w.sys, w.me) && Exact(w, kept)
    ensures Exact(Advance(w, Environment(Crash)), kept + if Exposed(w) then 1 else 0)
  {
    LatestIsLastOfMine(w.sys.tables.checkpoints, w.me);
    var w' := Advance(w, Environment(Crash));
    assert w'.sys.tables == w.sys.tables && w'.me == w.me && w'.me !in w'.sys.live;
    assert Exposed(w) ==> Mine(w.sys.tables.checkpoints, w.me) == [];
  }

  /** What one of our own writes shows the invariant. */
  lemma {:induction false} FlushShows(w: World)
    requires RunOk(w.sys, w.me) && Enabled(w.sys, Flush(w.me))
    ensures var sys' := Next(w.sys, Flush(w.me));
            var act := w.sys.live[w.me];
            var wr := act.pending[0];
            && w.me in sys'.live && sys'.live[w.me] == act.(pending := act.pending[1..])
            && Mine(sys'.tables.checkpoints, w.me)
               == Mine(w.sys.tables.checkpoints, w.me) + (if wr.SaveCheckpoint? then [wr.checkpoint] else [])
            && (wr.SaveCheckpoint? ==> wr.checkpoint.usage == act.run.gov.usage)
            && (if wr.UpsertRun? then
                  && w.me in sys'.tables.runs
                  && sys'.tables.runs[w.me].usage == act.run.gov.usage
                  && sys'.tables.runs[w.me].haltReason == act.run.gov.halted
                else sys'.tables.runs == w.sys.tables.runs)
  {
    var act := w.sys.live[w.me];
    HeadIsOwn(act);
    WriteShows(w.sys.tables, act.pending[0], act.run);
  }

  lemma {:induction false} WriteShows(t: Tables, wr: Write, r: RunState)
    requires Target(wr) == r.id && (wr.UpsertRun? ==> wr.run == Record(r))
    ensures Mine(Apply(t, wr).checkpoints, r.id) == Mine(t.checkpoints, r.id) + if wr.SaveCheckpoint? then [wr.checkpoint] else []
    ensures if wr.UpsertRun? then
              && r.id in Apply(t, wr).runs
              && Apply(t, wr).runs[r.id].usage == r.gov.usage && Apply(t, wr).runs[r.id].haltReason == r.gov.halted
            else Apply(t, wr).runs == t.runs
  {
    MineAfter(t, wr, r.id);
  }

  lemma HeadIsOwn(act: Active)
    requires PendingOk(act) && act.pending != []
    ensures var wr := act.pending[0];
            && Target(wr) == act.run.id
            && (wr.UpsertRun? ==> wr.run == Record(act.run))
            && (wr.SaveCheckpoint? ==> wr.checkpoint.usage == act.run.gov.usage)
  {
  }

  /** While a checkpoint is all that is left to write, the row is up to date. */
  lemma SavingRow(s: Sys, id: RunId)
    requires RunOk(s, id) && id in s.live && |s.live[id].pending| == 1 && Saving(s.live[id])
    ensures id in s.tables.runs && s.tables.runs[id].usage == s.live[id].run.gov.usage
  {
    assert !OwesRow(s.live[id].pending);
  }

  lemma {:induction false} FlushKeepsExact(w: World, kept: nat)
    requires RunOk(w.sys, w.me) && Exact(w, kept) && Enabled(w.sys, Flush(w.me))
    ensures Exact(w.(sys := Next(w.sys, Flush(w.me))), kept)
  {
    FlushShows(w);
    var w' := w.(sys := Next(w.sys, Flush(w.me)));
    var done := |Mine(w.sys.tables.checkpoints, w.me)|;
    if Saving(w.sys.live[w.me]) {
      SavingRow(w.sys, w.me);
      SavedExact(w, w', done, kept);
    } else {
      WrittenExact(w, w', done, kept);
    }
  }

  lemma SavedExact(w: World, w': World, done: nat, kept: nat)
    requires Exact(w, kept) && w' == w.(sys := w'.sys) && done == |Mine(w.sys.tables.checkpoints, w.me)|
    requires w.me in w.sys.live && Saving(w.sys.live[w.me])
    requires w.me in w'.sys.live && w'.sys.live[w.me] == w.sys.live[w.me].(pending := w.sys.live[w.me].pending[1..])
    requires var cp := w.sys.live[w.me].pending[0].checkpoint;
             && Mine(w'.sys.tables.checkpoints, w.me) == Mine(w.sys.tables.checkpoints, w.me) + [cp]
             && cp.usage == w.sys.live[w.me].run.gov.usage
    requires w'.sys.tables.runs == w.sys.tables.runs
    requires w.me in w.sys.tables.runs && w.sys.tables.runs[w.me].usage == w.sys.live[w.me].run.gov.usage
    ensures Exact(w', kept)
  {
  }

  lemma WrittenExact(w: World, w': World, done: nat, kept: nat)
    requires Exact(w, kept) && w' == w.(sys := w'.sys) && done == |Mine(w.sys.tables.checkpoints, w.me)|
    requires w.me in w.sys.live && w.sys.live[w.me].pending != [] && !Saving(w.sys.live[w.me])
    requires w.me in w'.sys.live && w'.sys.live[w.me] == w.sys.live[w.me].(pending := w.sys.live[w.me].pending[1..])
    requires Mine(w'.sys.tables.checkpoints, w.me) == Mine(w.sys.tables.checkpoints, w.me)
    requires || w'.sys.tables.runs == w.sys.tables.runs
             || (w.me in w'.sys.tables.runs && w'.sys.tables.runs[w.me].usage == w.sys.live[w.me].run.gov.usage
                 && w'.sys.tables.runs[w.me].haltReason == w.sys.live[w.me].run.gov.halted)
    ensures Exact(w', kept)
  {
    var rest := w.sys.live[w.me].pending[1..];
    assert forall i | 0 <= i < |rest| :: !rest[i].SaveCheckpoint?;
    LatestIsLastOfMine(w.sys.tables.checkpoints, w.me);
    LatestIsLastOfMine(w'.sys.tables.checkpoints, w.me);
  }

  lemma RestoreKeepsExact(w: World, now: Instant, kept: nat)
    requires RunOk(w.sys, w.me) && Exact(w, kept) && Enabled(w.sys, Restore(w.me, now))
    ensures Exact(w.(sys := Next(w.sys, Restore(w.me, now))), kept)
  {
    LatestIsLastOfMine(w.sys.tables.checkpoints, w.me);
  }

  lemma KillKeepsExact(w: World, now: Instant, kept: nat)
    requires RunOk(w.sys, w.me) && Exact(w, kept) && Enabled(w.sys, Kill(w.me, now))
    ensures Exact(w.(sys := Next(w.sys, Kill(w.me, now))), kept)
  {
  }

  lemma OthersKeepExact(w: World, a: Action, kept: nat)
    requires Inv(w.sys) && Exact(w, kept) && Enabled(w.sys, a) && !a.Crash? && a.id != w.me
    ensures Exact(w.(sys := Next(w.sys, a)), kept)
  {
    OtherRunUntouched(w.sys, a, w.me);
    OtherRunKeepsMine(w.sys, a, w.me);
    SameViewExact(w, w.(sys := Next(w.sys, a)), kept);
  }

  lemma {:induction false} OtherRunKeepsMine(s: Sys, a: Action, id: RunId)
    requires Inv(s) && Enabled(s, a) && !a.Crash? && a.id != id
    ensures Mine(Next(s, a).tables.checkpoints, id) == Mine(s.tables.checkpoints, id)
  {
    if a.Flush? {
      assert RunOk(s, a.id);
      MineAfter(s.tables, s.live[a.id].pending[0], id);
    }
  }

  lemma SameViewExact(w: World, w': World, kept: nat)
    requires Exact(w, kept) && w' == w.(sys := w'.sys) && SameFor(w.sys.tables, w'.sys.tables, w.me)
    requires Mine(w'.sys.tables.checkpoints, w.me) == Mine(w.sys.tables.checkpoints, w.me)
    requires w.me in w'.sys.live <==> w.me in w.sys.live
    requires w.me in w.sys.live ==> w'.sys.live[w.me] == w.sys.live[w.me]
    ensures Exact(w', kept)
  {
    assert Exposed(w') == Exposed(w);
  }

  lemma {:induction false} OwnKeepsExact(w: World, a: Action, kept: nat)
    requires RunOk(w.sys, w.me) && Exact(w, kept) && Foreign(w, a) && Enabled(w.sys, a) && !a.Crash? && a.id == w.me
    ensures Exact(w.(sys := Next(w.sys, a)), kept)
  {
    match a
    case Flush(_) => FlushKeepsExact(w, kept);
    case Restore(_, now) => RestoreKeepsExact(w, now, kept);
    case Kill(_, now) => KillKeepsExact(w, now, kept);
  }

  lemma {:induction false} EnvironmentKeeps(w: World, a: Action, kept: nat)
    requires Inv(w.sys) && Exact(w, kept) && Foreign(w, a) && Enabled(w.sys, a)
    ensures Exact(Advance(w, Environment(a)), kept + if a.Crash? && Exposed(w) then 1 else 0)
  {
    assert !a.Crash? ==> Advance(w, Environment(a)) == w.(sys := Next(w.sys, a));
    assert RunOk(w.sys, w.me);
    if a.Crash? {
      CrashKeeps(w, kept);
    } else if a.id != w.me {
      OthersKeepExact(w, a, kept);
    } else {
      OwnKeepsExact(w, a, kept);
    }
  }

  lemma {:induction false} AgentKeeps(w: World, e: Event, kept: nat)
    requires RunOk(w.sys, w.me) && Exact(w, kept) && Possible(w, e) && !e.Environment?
    ensures Exact(Advance(w, e), kept)
  {
    match e
    case Open(_, _) => OpenKeeps(w, e, kept);
    case Step(_) => StepKeepsExact(w, e, kept);
    case Save(_, _) => SaveKeepsExact(w, e, kept);
    case _ => AttachKeepsExact(w, e, kept);
  }

  lemma {:induction false} EventKeeps(w: World, e: Event, kept: nat)
    requires Inv(w.sys) && Exact(w, kept) && Possible(w, e)
    ensures Exact(Advance(w, e), kept + if e == Environment(Crash) && Exposed(w) then 1 else 0)
  {
    if e.Environment? {
      EnvironmentKeeps(w, e.a, kept);
    } else {
      assert RunOk(w.sys, w.me);
      AgentKeeps(w, e, kept);
    }
  }

  /** The agent only ever moves the daemon by its own actions. */
  lemma EventKeepsInv(w: World, e: Event)
    requires Inv(w.sys)
    ensures Inv(Advance(w, e).sys)
  {
    match e
    case Open(budget, now) => StepKeeps(w.sys, Create(w.me, NO_TEXT, budget, NO_TEXT, NO_TEXT, now));
    case Step(now) => StepKeeps(w.sys, BeginStep(w.me, now));
    case Save(title, now) => StepKeeps(w.sys, Checkpoint(w.me, title, Some(w.i + 1), now));
    case Environment(a) => StepKeeps(w.sys, a);
    case _ =>
  }

  lemma {:induction false} AlwaysInv(w: World, es: seq<Event>)
    requires Inv(w.sys)
    ensures Inv(Live(w, es).sys) && Live(w, es).me == w.me && Live(w, es).total == w.total
  {
    if es != [] {
      AlwaysInv(w, es[..|es| - 1]);
      EventKeepsInv(Live(w, es[..|es| - 1]), es[|es| - 1]);
    }
  }

  lemma {:induction false} EventStays(w: World, e: Event, kept: nat)
    requires Inv(w.sys) && Exact(w, kept)
    ensures Exact(Advance(w, e), if e == Environment(Crash) && Exposed(w) then kept + 1 else kept)
  {
    if Possible(w, e) {
      EventKeeps(w, e, kept);
    } else {
      assert Advance(w, e) == w && e != Environment(Crash);
    }
  }

  lemma {:induction false} StaysExact(w: World, es: seq<Event>)
    requires Inv(w.sys) && Exact(w, 0)
    ensures Exact(Live(w, es), Kept(w, es))
  {
    if es != [] {
      var before, e := es[..|es| - 1], es[|es| - 1];
      StaysExact(w, before);
      AlwaysInv(w, before);
      EventStays(Live(w, before), e, Kept(w, before));
    }
  }

  lemma AlwaysExact(me: RunId, total: nat, es: seq<Event>)
    ensures var w := Live(Begin(me, total), es);
            Exact(w, Kept(Begin(me, total), es)) && w.me == me && w.total == total
  {
    Reachable([]);
    StaysExact(Begin(me, total), es);
    AlwaysInv(Begin(me, total), es);
  }

  // ----- the results -----

  /**
   Exactly-once steps. The n-th checkpoint ever saved carries cursor n and n + Kept loops:
   however many crashes, each step is checkpointed once and in order, and every checkpoint
   has the same loops minus cursor.
   */
  lemma {:induction false} CheckpointsAreConsecutive(me: RunId, total: nat, es: seq<Event>, j: nat)
    requires j < |Mine(Live(Begin(me, total), es).sys.tables.checkpoints, me)|
    ensures var cp := Mine(Live(Begin(me, total), es).sys.tables.checkpoints, me)[j];
            cp.payload == Some(j + 1) && cp.usage.loops == j + 1 + Kept(Begin(me, total), es)
    ensures |Mine(Live(Begin(me, total), es).sys.tables.checkpoints, me)| <= total
  {
    AlwaysExact(me, total, es);
  }

  /** At the end of the work the counter is exactly the number of steps if and only if no crash hit the exposed window. */
  lemma {:induction false} CounterEndsAtTotal(me: RunId, total: nat, es: seq<Event>)
    requires var w := Live(Begin(me, total), es); w.phase == AtHead && w.i == total && Idle(w.sys, me)
    ensures var loops := Live(Begin(me, total), es).sys.live[me].run.gov.usage.loops;
            && loops == total + Kept(Begin(me, total), es)
            && (loops == total <==>
                  forall k | 0 <= k < |es| && es[k] == Environment(Crash) :: !Exposed(Live(Begin(me, total), es[..k])))
  {
    AlwaysExact(me, total, es);
    KeptCounts(Begin(me, total), es);
  }

  lemma {:induction false} KeptCounts(w: World, es: seq<Event>)
    ensures Kept(w, es) == 0 <==> forall k | 0 <= k < |es| && es[k] == Environment(Crash) :: !Exposed(Live(w, es[..k]))
  {
    if es != [] {
      var n := |es| - 1;
      KeptCounts(w, es[..n]);
      assert forall k | 0 <= k < n :: es[..n][k] == es[k] && es[..n][..k] == es[..k];
    }
  }

  /** A resumed attempt picks up at the first step not checkpointed, with no finished step ahead of it in the meter. */
  lemma {:induction false} ResumeIsExact(me: RunId, total: nat, es: seq<Event>)
    requires var w := Live(Begin(me, total), es); w.phase == Off && Idle(w.sys, me)
    ensures var w := Live(Begin(me, total), es);
            var w' := Advance(w, Resume);
            && w'.i == |Mine(w.sys.tables.checkpoints, me)|
            && (w.sys.live[me].run.gov.halted == NotHalted
                ==> w.sys.live[me].run.gov.usage.loops == w'.i + Kept(Begin(me, total), es))
  {
    AlwaysExact(me, total, es);
    CursorIsCount(Live(Begin(me, total), es), Kept(Begin(me, total), es));
  }

  /** A governed call's own checkpoint carries no payload: recorded on this run, it sends the next attempt back to 0. */
  lemma RecordedCallResetsCursor(t: Tables, r: RunState, c: Call, now: Instant)
    ensures Cursor(ApplyAll(t, RecordCallPlan(r, c, now)), r.id) == 0
  {
    var plan := RecordCallPlan(r, c, now);
    WriteIsSeen(ApplyAll(t, plan[..3]), plan[3]);
  }

  // ----- the loop itself -----

  /** The run after n granted turns of the loop. */
  function Looped(r: RunState, start: nat, n: nat, clock: nat -> Instant): RunState {
    if n == 0 then r else AfterBeginStep(Looped(r, start, n - 1, clock), clock(start + n - 1))
  }

  /** A turn writes the step and its row and, when the step is granted, then the checkpoint that covers it. */
  function TurnPlan(r: RunState, title: Token, i: nat, now: Instant): seq<Write> {
    var r' := AfterBeginStep(r, now);
    BeginStepPlan(r, now)
    + if r'.gov.halted == NotHalted then CheckpointPlan(r', title, Some(i + 1), now) else []
  }

  function LoopPlan(r: RunState, title: Token, start: nat, n: nat, clock: nat -> Instant): seq<Write> {
    if n == 0 then []
    else LoopPlan(r, title, start, n - 1, clock)
         + TurnPlan(Looped(r, start, n - 1, clock), title, start + n - 1, clock(start + n - 1))
  }

  method Turn(run: Runs.Run, title: Token, i: nat, now: Instant) returns (refused: Option<HaltError>)
    requires run.mgr.Valid() && run.id in run.mgr.runs && run.mgr.runs[run.id] == run
    modifies run, run.gov, run.mgr.store
    ensures run.mgr.Valid()
    ensures run.State() == AfterBeginStep(old(run.State()), now) && refused == Verdict(run.State().gov)
    ensures run.mgr.Wrote(TurnPlan(old(run.State()), title, i, now))
  {
    var _, err := run.BeginStep(now);
    refused := err;
    if refused.None? {
      var _ := run.mgr.Checkpoint(run.id, title, Some(i + 1), now);
    }
  }

  /** Each turn that was not refused advanced the meter by one, as it advanced the cursor. */
  lemma {:induction false} LoopCounts(r: RunState, start: nat, n: nat, clock: nat -> Instant)
    ensures Looped(r, start, n, clock).id == r.id
    ensures var g := Looped(r, start, n, clock).gov;
            g.halted == NotHalted ==> r.gov.halted == NotHalted && g.usage == r.gov.usage.(loops := r.gov.usage.loops + n)
  {
    if n > 0 {
      LoopCounts(r, start, n - 1, clock);
    }
  }

  /** What a granted step saves: the next cursor, with the step counted. */
  predicate Saved(cp: CheckpointRecord, id: RunId, title: Token, cursor: nat, loops: nat) {
    cp.runId == id && cp.name == title && cp.payload == Some(cursor) && cp.usage.loops == loops && cp.stepIndex == loops
  }

  lemma {:induction false} NothingSaved(t: Tables, plan: seq<Write>)
    requires forall j | 0 <= j < |plan| :: !plan[j].SaveCheckpoint?
    ensures ApplyAll(t, plan).checkpoints == t.checkpoints
  {
    if plan != [] {
      NothingSaved(t, plan[..|plan| - 1]);
    }
  }

  /** A granted turn saves one checkpoint and counts one loop, a refused one neither. */
  lemma TurnSaves(t: Tables, r: RunState, title: Token, i: nat, now: Instant) returns (cp: CheckpointRecord)
    ensures var g, t' := AfterBeginStep(r, now).gov, ApplyAll(t, TurnPlan(r, title, i, now));
            if g.halted != NotHalted then g.usage == r.gov.usage && t'.checkpoints == t.checkpoints
            else g.usage == r.gov.usage.(loops := r.gov.usage.loops + 1) && t'.checkpoints == t.checkpoints + [cp]
                 && Saved(cp, r.id, title, i + 1, g.usage.loops)
  {
    var r' := AfterBeginStep(r, now);
    var step, save := BeginStepPlan(r, now), CheckpointPlan(r', title, Some(i + 1), now);
    cp := save[0].checkpoint;
    StepPlanShape(r, now);
    NothingSaved(t, step);
    if r'.gov.halted != NotHalted {
      assert TurnPlan(r, title, i, now) == step;
    } else {
      ApplyAllConcat(t, step, save);
      assert save[..0] == [];
    }
  }

  /** The cursors start + 1, start + 2, and so on, in order, each with its step counted. */
  predicate SavedInOrder(saved: seq<CheckpointRecord>, id: RunId, title: Token, start: nat, loops: nat) {
    forall k | 0 <= k < |saved| :: Saved(saved[k], id, title, start + 1 + k, loops + 1 + k)
  }

  lemma OneMoreInOrder(cps: seq<CheckpointRecord>, saved: seq<CheckpointRecord>, cp: CheckpointRecord, id: RunId, title: Token, start: nat, loops: nat)
    requires SavedInOrder(saved, id, title, start, loops) && Saved(cp, id, title, start + 1 + |saved|, loops + 1 + |saved|)
    ensures SavedInOrder(saved + [cp], id, title, start, loops) && cps + (saved + [cp]) == cps + saved + [cp]
  {
  }

  lemma {:induction false} OneMoreSaves(t: Tables, plan: seq<Write>, r: RunState, title: Token, i: nat, now: Instant)
    returns (cp: CheckpointRecord)
    requires AfterBeginStep(r, now).gov.halted == NotHalted
    ensures ApplyAll(t, plan + TurnPlan(r, title, i, now)).checkpoints == ApplyAll(t, plan).checkpoints + [cp]
    ensures Saved(cp, r.id, title, i + 1, r.gov.usage.loops + 1)
  {
    cp := TurnSaves(ApplyAll(t, plan), r, title, i, now);
    ApplyAllConcat(t, plan, TurnPlan(r, title, i, now));
  }

  /** n granted turns save n checkpoints, in order, and nothing but them. */
  lemma {:induction false} TurnsSave(t: Tables, r: RunState, title: Token, start: nat, n: nat, clock: nat -> Instant)
    returns (saved: seq<CheckpointRecord>)
    requires Looped(r, start, n, clock).gov.halted == NotHalted
    ensures |saved| == n && SavedInOrder(saved, r.id, title, start, r.gov.usage.loops)
    ensures ApplyAll(t, LoopPlan(r, title, start, n, clock)).checkpoints == t.checkpoints + saved
  {
    saved := [];
    if n > 0 {
      var before, plan, i := Looped(r, start, n - 1, clock), LoopPlan(r, title, start, n - 1, clock), start + n - 1;
      LoopCounts(r, start, n - 1, clock);
      saved := TurnsSave(t, r, title, start, n - 1, clock);
      var cp := OneMoreSaves(t, plan, before, title, i, clock(i));
      OneMoreInOrder(t.checkpoints, saved, cp, r.id, title, start, r.gov.usage.loops);
      saved := saved + [cp];
    }
  }

  /** As many turns and then a refused one leave the meter and the checkpoints as they were before it. */
  lemma {:induction false} LoopSaves(t: Tables, r: RunState, title: Token, start: nat, n: nat, refused: bool, clock: nat -> Instant)
    returns (saved: seq<CheckpointRecord>)
    requires n > 0 ==> Looped(r, start, n, clock).gov.halted == NotHalted
    requires refused ==> Looped(r, start, n + 1, clock).gov.halted != NotHalted
    ensures var turns := if refused then n + 1 else n;
            && Looped(r, start, turns, clock).gov.usage == r.gov.usage.(loops := r.gov.usage.loops + n)
            && ApplyAll(t, LoopPlan(r, title, start, turns, clock)).checkpoints == t.checkpoints + saved
    ensures |saved| == n && SavedInOrder(saved, r.id, title, start, r.gov.usage.loops)
  {
    LoopCounts(r, start, n, clock);
    saved := [];
    if n > 0 {
      saved := TurnsSave(t, r, title, start, n, clock);
    }
    if refused {
      var before, plan, i := Looped(r, start, n, clock), LoopPlan(r, title, start, n, clock), start + n;
      var _ := TurnSaves(ApplyAll(t, plan), before, title, i, clock(i));
      ApplyAllConcat(t, plan, TurnPlan(before, title, i, clock(i)));
    }
  }

  lemma CursorIsLast(t: Tables, cps: seq<CheckpointRecord>, saved: seq<CheckpointRecord>, id: RunId, title: Token, start: nat, loops: nat)
    requires t.checkpoints == cps + saved && SavedInOrder(saved, id, title, start, loops)
    ensures saved != [] ==> Cursor(t, id) == start + |saved|
  {
    if saved != [] {
      assert t.checkpoints[|t.checkpoints| - 1] == saved[|saved| - 1];
      LatestIsLastAppended(t.checkpoints, id, |t.checkpoints| - 1);
    }
  }

  /** Steps [start, total), checkpointing each, or up to the demo's stopping point; the first refused step ends the loop. */
  method Turns(run: Runs.Run, title: Token, start: nat, total: nat, stopAfter: nat, clock: nat -> Instant)
    returns (i: nat, err: Option<HaltError>, ghost n: nat, ghost turns: nat)
    requires run.mgr.Valid() && run.id in run.mgr.runs && run.mgr.runs[run.id] == run
    modifies run, run.gov, run.mgr.store
    ensures run.mgr.Valid()
    ensures i == start + n && (n > 0 ==> i <= total && i <= stopAfter)
    ensures turns == if err.Some? then n + 1 else n
    ensures err.None? <==> i >= total || i >= stopAfter
    ensures err.Some? ==> run.gov.halted == err.value.reason != NotHalted
    ensures n > 0 ==> Looped(old(run.State()), start, n, clock).gov.halted == NotHalted
    ensures run.State() == Looped(old(run.State()), start, turns, clock)
    ensures run.mgr.Wrote(LoopPlan(old(run.State()), title, start, turns, clock))
  {
    i, err, n, turns := start, None, 0, 0;
    ghost var r := run.State();
    while i < total
      invariant run.mgr.Valid()
      invariant i == start + n && turns == n && err.None? && (n > 0 ==> i <= total && i <= stopAfter)
      invariant n > 0 ==> run.gov.halted == NotHalted
      invariant run.State() == Looped(r, start, n, clock)
      invariant run.mgr.Wrote(LoopPlan(r, title, start, n, clock))
    {
      if i >= stopAfter {
        break;
      }
      if run.mgr.store != null {
        Associative(old(run.mgr.store.journal), LoopPlan(r, title, start, n, clock),
                    TurnPlan(Looped(r, start, n, clock), title, start + n, clock(start + n)));
      }
      err := Turn(run, title, i, clock(i));
      turns := n + 1;
      if err.Some? {
        return;
      }
      i, n := i + 1, n + 1;
    }
  }

  /**
   The loop, by what it leaves: the meter advances with the cursor, the checkpoints added are
   start + 1 to i in order, each with its step counted, and a resume would start at i.
   */
  method RunLoop(run: Runs.Run, title: Token, start: nat, total: nat, stopAfter: nat, clock: nat -> Instant)
    returns (i: nat, err: Option<HaltError>, ghost saved: seq<CheckpointRecord>)
    requires run.mgr.Valid() && run.id in run.mgr.runs && run.mgr.runs[run.id] == run
    modifies run, run.gov, run.mgr.store
    ensures start <= i && (start < i ==> i <= total && i <= stopAfter)
    ensures err.None? <==> i >= total || i >= stopAfter
    ensures err.Some? ==> run.gov.halted == err.value.reason != NotHalted
    ensures run.gov.usage == old(run.gov.usage).(loops := old(run.gov.usage.loops) + (i - start))
    ensures |saved| == i - start && SavedInOrder(saved, run.id, title, start, old(run.gov.usage.loops))
    ensures run.mgr.store != null ==>
              && run.mgr.store.tables.checkpoints == old(run.mgr.store.tables.checkpoints) + saved
              && (i > start ==> Cursor(run.mgr.store.tables, run.id) == i)
  {
    ghost var r := run.State();
    ghost var t, journal := EMPTY_TABLES, [];
    if run.mgr.store != null {
      t, journal := run.mgr.store.tables, run.mgr.store.journal;
    }
    ghost var n, turns;
    i, err, n, turns := Turns(run, title, start, total, stopAfter, clock);
    saved := LoopSaves(t, r, title, start, n, err.Some?, clock);
    if run.mgr.store != null {
      ApplyAllConcat(run.mgr.store.base, journal, LoopPlan(r, title, start, turns, clock));
      CursorIsLast(run.mgr.store.tables, t.checkpoints, saved, run.id, title, start, r.gov.usage.loops);
    }
  }
}

/** The agent on a run that model calls are recorded on too: what a resumed attempt finds. */
module AgentSharing {
  import opened Prelude
  import opened Governor
  import opened Storage
  import opened Runs
  import opened Machine
  import opened MachineInvariant
  import opened Agent

  function BeginShared(me: RunId, total: nat): World {
    Begin(me, total).(shared := true)
  }

  /** The event makes a checkpoint of the agent's run durable. */
  predicate Saves(w: World, e: Event) {
    e == Environment(Flush(w.me)) && Possible(w, e) && Saving(w.sys.live[w.me])
  }

  /** One the agent asked for, rather than one that recording a call adds. */
  predicate SavesOwn(w: World, e: Event) {
    Saves(w, e) && w.sys.live[w.me].call.None?
  }

  /** The step number of the agent's last durable checkpoint; 0 before the first. */
  function LastSaved(w: World, es: seq<Event>): nat {
    if es == [] then 0
    else
      var before, e := es[..|es| - 1], es[|es| - 1];
      if SavesOwn(Live(w, before), e) then Live(w, before).i else LastSaved(w, before)
  }

  /** Whether a recorded call's checkpoint became durable after the agent's last one. */
  predicate CallSince(w: World, es: seq<Event>) {
    es != [] && (
      var before, e := es[..|es| - 1], es[|es| - 1];
      if Saves(Live(w, before), e) then !SavesOwn(Live(w, before), e) else CallSince(w, before))
  }

  /** How many checkpoints of the agent became durable. */
  function OwnSaves(w: World, es: seq<Event>): nat {
    if es == [] then 0
    else
      var before, e := es[..|es| - 1], es[|es| - 1];
      OwnSaves(w, before) + if SavesOwn(Live(w, before), e) then 1 else 0
  }

  // ----- what the latest checkpoint tells -----

  /** A queued checkpoint is last in its plan and carries nothing if a recording adds it; else it is alone, with the agent's step. */
  predicate QueueOk(w: World, act: Active) {
    forall j | 0 <= j < |act.pending| && act.pending[j].SaveCheckpoint? ::
      && j == |act.pending| - 1
      && act.pending[j].checkpoint.payload == (if act.call.Some? then None else Some(w.i))
      && (act.call.None? ==> j == 0 && w.i > 0)
  }

  predicate Tells(w: World, last: nat, since: bool) {
    var cp := Latest(w.sys.tables, w.me);
    && (cp.None? ==> last == 0 && !since)
    && (cp.Some? && !since ==> last > 0 && cp.value.payload == Some(last))
    && (since ==> cp.Some? && cp.value.payload == None)
    && (w.me in w.sys.live ==> QueueOk(w, w.sys.live[w.me]))
  }

  function LastAfter(w: World, e: Event, last: nat): nat {
    if SavesOwn(w, e) then w.i else last
  }

  predicate SinceAfter(w: World, e: Event, since: bool) {
    if Saves(w, e) then !SavesOwn(w, e) else since
  }

  lemma AgentTells(w: World, e: Event, last: nat, since: bool)
    requires RunOk(w.sys, w.me) && Tells(w, last, since) && Possible(w, e) && !e.Environment?
    ensures Tells(Advance(w, e), last, since)
  {
  }

  lemma OthersTell(w: World, a: Action, last: nat, since: bool)
    requires Inv(w.sys) && Tells(w, last, since) && Foreign(w, a) && Enabled(w.sys, a) && (a.Crash? || a.id != w.me)
    ensures Tells(Advance(w, Environment(a)), last, since)
  {
    OtherRunUntouched(w.sys, a, w.me);
  }

  lemma OperationTells(w: World, a: Action, last: nat, since: bool)
    requires RunOk(w.sys, w.me) && Tells(w, last, since) && Foreign(w, a) && Enabled(w.sys, a)
    requires !a.Crash? && !a.Flush? && a.id == w.me
    ensures Tells(Advance(w, Environment(a)), last, since)
  {
  }

  lemma FlushTells(w: World, last: nat, since: bool)
    requires RunOk(w.sys, w.me) && Tells(w, last, since) && Enabled(w.sys, Flush(w.me))
    ensures var e := Environment(Flush(w.me)); Tells(Advance(w, e), LastAfter(w, e, last), SinceAfter(w, e, since))
  {
    var act := w.sys.live[w.me];
    HeadIsOwn(act);
    WriteIsSeen(w.sys.tables, act.pending[0]);
    var rest := act.pending[1..];
    assert forall j | 0 <= j < |rest| :: rest[j] == act.pending[j + 1];
  }

  lemma EventTells(w: World, e: Event, last: nat, since: bool)
    requires Inv(w.sys) && Tells(w, last, since)
    ensures Tells(Advance(w, e), LastAfter(w, e, last), SinceAfter(w, e, since))
  {
    assert RunOk(w.sys, w.me);
    if Possible(w, e) {
      if !e.Environment? {
        AgentTells(w, e, last, since);
      } else if e.a.Crash? || e.a.id != w.me {
        OthersTell(w, e.a, last, since);
      } else if e.a.Flush? {
        FlushTells(w, last, since);
      } else {
        OperationTells(w, e.a, last, since);
      }
    }
  }

  lemma {:induction false} AlwaysTells(me: RunId, total: nat, es: seq<Event>)
    ensures var w0 := BeginShared(me, total); Tells(Live(w0, es), LastSaved(w0, es), CallSince(w0, es))
  {
    if es != [] {
      var w0, before := BeginShared(me, total), es[..|es| - 1];
      AlwaysTells(me, total, before);
      Reachable([]);
      AlwaysInv(w0, before);
      EventTells(Live(w0, before), es[|es| - 1], LastSaved(w0, before), CallSince(w0, before));
    }
  }

  // ----- the results -----

  /** The agent had no checkpoint yet, or no recorded call's became durable after its last one. */
  predicate CursorIntact(w: World, es: seq<Event>) {
    LastSaved(w, es) == 0 || !CallSince(w, es)
  }

  /** A resumed attempt starts right after the agent's own last checkpoint if and only if no recorded call's came after it. */
  lemma {:induction false} ResumedCursorIff(me: RunId, total: nat, es: seq<Event>)
    requires Possible(Live(BeginShared(me, total), es), Resume)
    ensures var w0 := BeginShared(me, total);
            Advance(Live(w0, es), Resume).i == LastSaved(w0, es) <==> CursorIntact(w0, es)
  {
    AlwaysTells(me, total, es);
    Reachable([]);
    AlwaysInv(BeginShared(me, total), es);
  }

  /** The agent is where its own checkpoints say. */
  predicate InStepWithSaves(w: World, last: nat) {
    w.phase != Off ==>
      w.me in w.sys.live && w.i == last + if Saving(w.sys.live[w.me]) && w.sys.live[w.me].call.None? then 1 else 0
  }

  predicate DownUnsaved(w: World) {
    w.phase == Off && w.me in w.sys.live ==> !(Saving(w.sys.live[w.me]) && w.sys.live[w.me].call.None?)
  }

  lemma AgentKeepsStep(w: World, e: Event, last: nat, since: bool)
    requires RunOk(w.sys, w.me) && Tells(w, last, since) && InStepWithSaves(w, last) && DownUnsaved(w)
    requires Possible(w, e) && !e.Environment? && (e == Resume ==> last == 0 || !since)
    ensures InStepWithSaves(Advance(w, e), last) && DownUnsaved(Advance(w, e))
  {
  }

  lemma EnvironmentKeepsStep(w: World, a: Action, last: nat, since: bool)
    requires RunOk(w.sys, w.me) && Tells(w, last, since) && InStepWithSaves(w, last) && DownUnsaved(w)
    requires Foreign(w, a) && Enabled(w.sys, a)
    ensures var e := Environment(a);
            InStepWithSaves(Advance(w, e), LastAfter(w, e, last)) && DownUnsaved(Advance(w, e))
  {
  }

  lemma EventKeepsStep(w: World, e: Event, last: nat, since: bool)
    requires RunOk(w.sys, w.me) && Tells(w, last, since) && InStepWithSaves(w, last) && DownUnsaved(w)
    requires e == Resume && Possible(w, e) ==> last == 0 || !since
    ensures InStepWithSaves(Advance(w, e), LastAfter(w, e, last)) && DownUnsaved(Advance(w, e))
  {
    if Possible(w, e) {
      if e.Environment? {
        EnvironmentKeepsStep(w, e.a, last, since);
      } else {
        AgentKeepsStep(w, e, last, since);
      }
    }
  }

  lemma SavesGrow(me: RunId, total: nat, before: seq<Event>, e: Event)
    requires var w0 := BeginShared(me, total);
             && OwnSaves(w0, before) == LastSaved(w0, before)
             && InStepWithSaves(Live(w0, before), LastSaved(w0, before)) && DownUnsaved(Live(w0, before))
             && (e == Resume && Possible(Live(w0, before), Resume) ==> CursorIntact(w0, before))
    ensures var w0, es := BeginShared(me, total), before + [e];
            && OwnSaves(w0, es) == LastSaved(w0, es)
            && InStepWithSaves(Live(w0, es), LastSaved(w0, es)) && DownUnsaved(Live(w0, es))
  {
    var w0 := BeginShared(me, total);
    var w := Live(w0, before);
    assert (before + [e])[..|before|] == before;
    AlwaysTells(me, total, before);
    assert RunOk(w.sys, w.me) by {
      Reachable([]);
      AlwaysInv(w0, before);
    }
    EventKeepsStep(w, e, LastSaved(w0, before), CallSince(w0, before));
  }

  /** Wherever the run was resumed with its cursor intact, the agent's checkpoints are steps 1, 2, 3, and so on, each once. */
  lemma {:induction false} IntactResumesCountSteps(me: RunId, total: nat, es: seq<Event>)
    requires var w0 := BeginShared(me, total);
             forall k | 0 <= k < |es| && es[k] == Resume && Possible(Live(w0, es[..k]), Resume) :: CursorIntact(w0, es[..k])
    ensures var w0 := BeginShared(me, total);
            && OwnSaves(w0, es) == LastSaved(w0, es)
            && InStepWithSaves(Live(w0, es), LastSaved(w0, es)) && DownUnsaved(Live(w0, es))
  {
    if es != [] {
      var before, e := es[..|es| - 1], es[|es| - 1];
      assert forall k | 0 <= k < |before| :: before[..k] == es[..k] && before[k] == es[k];
      IntactResumesCountSteps(me, total, before);
      SavesGrow(me, total, before, e);
      assert before + [e] == es;
    }
  }
}

/** The exposed window is real: a one-step job that crashes in it ends with two loops counted. */
module AgentExample {
  import opened Prelude
  import opened Governor
  import opened Storage
  import opened Runs
  import opened Machine
  import opened AccountingExample
  import opened Agent

  function Writes(k: nat): seq<Event> {
    if k == 0 then [] else Writes(k - 1) + [Environment(Flush(1))]
  }

  lemma {:induction false} LiveConcat(w: World, a: seq<Event>, b: seq<Event>)
    ensures Live(w, a + b) == Live(Live(w, a), b)
  {
    if b == [] {
      assert a + b == a;
    } else {
      assert (a + b)[..|a + b| - 1] == a + b[..|b| - 1];
      LiveConcat(w, a, b[..|b| - 1]);
    }
  }

  lemma OneWriteFlushes(w: World)
    requires w.me == 1 && Enabled(w.sys, Flush(1))
    ensures Advance(w, Environment(Flush(1))) == w.(sys := Next(w.sys, Flush(1)))
  {
  }

  lemma {:induction false} WritesFlush(w: World, k: nat)
    requires w.me == 1 && 1 in w.sys.live && k <= |w.sys.live[1].pending|
    ensures Live(w, Writes(k)) == w.(sys := Exec(w.sys, Flushes(1, k)))
  {
    if k == 0 {
      assert Flushes(1, 0) == [];
    } else {
      WritesFlush(w, k - 1);
      CrashLeavesPrefix(w.sys, 1, k - 1);
      assert Flushes(1, k)[..k - 1] == Flushes(1, k - 1);
      OneWriteFlushes(Live(w, Writes(k - 1)));
    }
  }

  /** An agent event that starts operation a, and k of its writes. */
  lemma EventThenWrites(w: World, e: Event, a: Action, k: nat)
    requires w.me == 1 && Possible(w, e) && !a.Crash? && !a.Flush? && a.id == 1 && Enabled(w.sys, a)
    requires Advance(w, e).sys == Next(w.sys, a) && k <= |Started(w.sys, a).pending|
    ensures Live(w, [e] + Writes(k)) == Advance(w, e).(sys := Exec(w.sys, Segment(a, k)))
  {
    LiveConcat(w, [e], Writes(k));
    assert [e][..0] == [];
    assert Live(w, [e]) == Advance(w, e);
    WritesFlush(Advance(w, e), k);
    ExecConcat(w.sys, [a], Flushes(1, k));
    assert [a][..0] == [];
    assert Exec(w.sys, [a]) == Next(w.sys, a);
  }

  /** Opened, and the one step begun and written. */
  function UpToTheWindow(): seq<Event> {
    [Open(UNLIMITED, 0)] + Writes(1) + ([Step(0)] + Writes(2))
  }

  /** Crash, restart, resume, and the step again, this time with its checkpoint. */
  function SecondAttempt(): seq<Event> {
    [Environment(Crash), Environment(Restore(1, 0)), Resume] + ([Step(0)] + Writes(2)) + ([Save(NO_TEXT, 0)] + Writes(1))
  }

  lemma StepInBooks(w: World, meter: Usage)
    requires w.me == 1 && w.phase == AtHead && w.i < w.total && Idle(w.sys, 1) && Books(w.sys, meter, meter, None, 0.0)
    ensures var w' := Live(w, [Step(0)] + Writes(2)); var u := meter.(loops := meter.loops + 1);
            && w' == w.(sys := w'.sys, phase := InStep)
            && Idle(w'.sys, 1) && Books(w'.sys, u, u, None, 0.0)
  {
    EventThenWrites(w, Step(0), BeginStep(1, 0), 2);
    BooksAfterStep(w.sys, meter, None, 0.0);
  }

  /** The window is reached. */
  lemma WindowIsReached()
    ensures var w := Live(Begin(1, 1), UpToTheWindow());
            && Exposed(w) && w == World(w.sys, 1, 1, InStep, 0, false)
            && Books(w.sys, NO_USAGE.(loops := 1), NO_USAGE.(loops := 1), None, 0.0)
  {
    var w0 := Begin(1, 1);
    EventThenWrites(w0, Open(UNLIMITED, 0), Create(1, NO_TEXT, UNLIMITED, NO_TEXT, NO_TEXT, 0), 1);
    BooksAfterCreate();
    LiveConcat(w0, [Open(UNLIMITED, 0)] + Writes(1), [Step(0)] + Writes(2));
    StepInBooks(Live(w0, [Open(UNLIMITED, 0)] + Writes(1)), NO_USAGE);
  }

  lemma RestartInBooks(w: World, u: Usage)
    requires w.me == 1 && Books(w.sys, u, u, None, 0.0)
    ensures var w' := Live(w, [Environment(Crash), Environment(Restore(1, 0)), Resume]);
            && w' == w.(sys := Exec(w.sys, [Crash, Restore(1, 0)]), phase := AtHead, i := 0)
            && Idle(w'.sys, 1) && Books(w'.sys, u, u, None, 0.0)
  {
    var es := [Environment(Crash), Environment(Restore(1, 0)), Resume];
    BooksAfterRestart(w.sys, u, u, None, 0.0);
    var acts := [Crash, Restore(1, 0)];
    assert acts[..1] == [Crash] && acts[..1][..0] == [];
    assert Exec(w.sys, acts[..1]) == Next(w.sys, Crash);
    assert Exec(w.sys, acts) == Next(Next(w.sys, Crash), Restore(1, 0));
    assert es[..2][..1] == [Environment(Crash)] && es[..2][..1][..0] == [];
    var w1 := w.(sys := Next(w.sys, Crash), phase := Off);
    assert Live(w, es[..2][..1]) == w1;
    var w2 := w1.(sys := Exec(w.sys, acts));
    assert Live(w, es[..2]) == w2;
  }

  /** A crash in the window: the job of one step ends with a count of two. */
  lemma TheCounterCanEndHigher()
    ensures var w := Live(Begin(1, 1), UpToTheWindow() + SecondAttempt());
            && w.phase == AtHead && w.i == w.total == 1 && Idle(w.sys, 1) && w.sys.live[1].run.gov.usage.loops == 2
  {
    var w0 := Begin(1, 1);
    var one, two := NO_USAGE.(loops := 1), NO_USAGE.(loops := 2);
    WindowIsReached();
    LiveConcat(w0, UpToTheWindow(), SecondAttempt());
    var w := Live(w0, UpToTheWindow());
    var restart, step, save := [Environment(Crash), Environment(Restore(1, 0)), Resume], [Step(0)] + Writes(2),
                               [Save(NO_TEXT, 0)] + Writes(1);
    LiveConcat(w, restart + step, save);
    LiveConcat(w, restart, step);
    RestartInBooks(w, one);
    StepInBooks(Live(w, restart), one);
    var at := Live(w, restart + step);
    EventThenWrites(at, Save(NO_TEXT, 0), Checkpoint(1, NO_TEXT, Some(1), 0), 1);
    BooksAfterCheckpoint(at.sys, two, None, 0.0, Some(1));
  }
}
