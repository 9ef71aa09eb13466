/**
 Who wins when several GetOrCreate calls and a Reload race for one id. Each map access,
 store access and close of a call is its own step; the manager's lock is held across a
 Reload's restore. Clients work on the run as soon as it is in the map; a guard call of
 theirs and the row write it makes are one step, as for a run used serially.
 */
module Registry {
  import opened Prelude
  import opened Governor
  import opened GovernorSafety
  import opened Storage
  import opened Runs

  /** Where one call stands. A call builds at most one run object, known by the call's number. */
  datatype Phase =
    | AtStart
    | Missed
    | NoRow
    | ReadRow(rec: RunRecord)
    | RollingBack
    | Built
    | Losing
    | Persisting
    | Returned(obj: nat)

  /** A Reload of this id: before its listing, then with the row it listed. */
  datatype Reloading = NotListed | Listed(rec: RunRecord) | Restoring | Writing | Finished

  datatype Object = Object(run: RunState, closed: bool)

  datatype World = World(
    id: RunId, defaultBudget: Budget, tables: Tables, entry: Option<nat>, objects: map<nat, Object>,
    calls: map<nat, Phase>, reloads: map<nat, Reloading>, lock: Option<nat>)

  datatype Action =
    | Arrive(p: nat)
    | Look(p: nat)
    | ReadStore(p: nat)
    | Build(p: nat, now: Instant)
    | WriteBack(p: nat)
    | Enter(p: nat, now: Instant)
    | Close(p: nat)
    | Persist(p: nat)
    | StartReload(p: nat)
    | List(p: nat)
    | Restore(p: nat, now: Instant)
    | WriteBackLocked(p: nat)
    | EnterLocked(p: nat)
    | Work(op: Op, now: Instant)
    | Save(title: Token, payload: Payload, now: Instant)

  function Row(w: World): Option<RunRecord> {
    if w.id in w.tables.runs then Some(w.tables.runs[w.id]) else None
  }

  predicate At(w: World, p: nat, phase: Phase) {
    p in w.calls && w.calls[p] == phase
  }

  predicate Free(w: World, p: nat) {
    p !in w.calls && p !in w.reloads && p !in w.objects
  }

  /** Map accesses wait for the lock. */
  predicate Enabled(w: World, a: Action) {
    match a
    case Arrive(p) => Free(w, p)
    case Look(p) => At(w, p, AtStart) && w.lock.None?
    case ReadStore(p) => At(w, p, Missed)
    case Build(p, _) => p in w.calls && w.calls[p].ReadRow?
    case WriteBack(p) => At(w, p, RollingBack) && p in w.objects
    case Enter(p, _) => (At(w, p, NoRow) || (At(w, p, Built) && p in w.objects)) && w.lock.None?
    case Close(p) => At(w, p, Losing) && p in w.objects && w.entry.Some?
    case Persist(p) => At(w, p, Persisting) && p in w.objects
    case StartReload(p) => Free(w, p)
    case List(p) => p in w.reloads && w.reloads[p].NotListed?
    case Restore(p, _) => p in w.reloads && w.reloads[p].Listed? && w.lock.None?
    case WriteBackLocked(p) => p in w.reloads && w.reloads[p].Writing? && p in w.objects
    case EnterLocked(p) => p in w.reloads && w.reloads[p].Restoring? && p in w.objects
    case Work(_, _) => w.entry.Some? && w.entry.value in w.objects
    case Save(_, _, _) => w.entry.Some? && w.entry.value in w.objects
  }

  function Moved(w: World, p: nat, phase: Phase): World {
    w.(calls := w.calls[p := phase])
  }

  function Wrote(w: World, r: RunState): Tables {
    Apply(w.tables, UpsertRun(Record(r)))
  }

  function WithObject(w: World, p: nat, r: RunState): World {
    w.(objects := w.objects[p := Object(r, false)])
  }

  /** A guard call on the entered run. Only CanProceed without a halt leaves the row alone. */
  function Worked(w: World, op: Op, now: Instant): World
    requires w.entry.Some? && w.entry.value in w.objects
  {
    var o := w.objects[w.entry.value];
    var g := Do(o.run.gov, op);
    var r := o.run.(gov := g, updatedAt := now);
    if op.OpCanProceed? && g.halted == NotHalted then w
    else w.(objects := w.objects[w.entry.value := o.(run := r)], tables := Wrote(w, r))
  }

  function Next(w: World, a: Action): World {
    if !Enabled(w, a) then w
    else match a
      case Arrive(p) => Moved(w, p, AtStart)
      case Look(p) => Moved(w, p, if w.entry.Some? then Returned(w.entry.value) else Missed)
      case ReadStore(p) => Moved(w, p, if Row(w).Some? then ReadRow(Row(w).value) else NoRow)
      case Build(p, now) =>
        var rec := w.calls[p].rec;
        var cps := w.tables.checkpoints;
        Moved(WithObject(w, p, Restored(cps, rec, now)), p, if RollsBack(cps, rec) then RollingBack else Built)
      case WriteBack(p) => Moved(w.(tables := Wrote(w, w.objects[p].run)), p, Built)
      case Enter(p, now) =>
        if w.entry.Some? then Moved(w, p, if At(w, p, Built) then Losing else Returned(w.entry.value))
        else if At(w, p, Built) then Moved(w.(entry := Some(p)), p, Returned(p))
        else Moved(WithObject(w, p, NewRunState(w.id, NO_TEXT, w.defaultBudget, NO_TEXT, NO_TEXT, now)).(entry := Some(p)),
                   p, Persisting)
      case Close(p) =>
        Moved(w.(objects := w.objects[p := w.objects[p].(closed := true)]), p, Returned(w.entry.value))
      case Persist(p) => Moved(w.(tables := Wrote(w, w.objects[p].run)), p, Returned(p))
      case StartReload(p) => w.(reloads := w.reloads[p := NotListed])
      case List(p) =>
        var row := Row(w);
        w.(reloads := w.reloads[p := if row.Some? && row.value.status == StatusRunning then Listed(row.value) else Finished])
      case Restore(p, now) =>
        var rec := w.reloads[p].rec;
        var cps := w.tables.checkpoints;
        if w.entry.Some? then w.(reloads := w.reloads[p := Finished])
        else WithObject(w, p, Restored(cps, rec, now)).(
               lock := Some(p), reloads := w.reloads[p := if RollsBack(cps, rec) then Writing else Restoring])
      case WriteBackLocked(p) => w.(tables := Wrote(w, w.objects[p].run), reloads := w.reloads[p := Restoring])
      case EnterLocked(p) => w.(entry := Some(p), lock := None, reloads := w.reloads[p := Finished])
      case Work(op, now) => Worked(w, op, now)
      case Save(title, payload, now) =>
        var r := w.objects[w.entry.value].run;
        w.(tables := Apply(w.tables, SaveCheckpoint(CheckpointRecord(w.id, r.gov.usage.loops, title, r.gov.usage, payload, now))))
  }

  function Begin(id: RunId, defaultBudget: Budget, tables: Tables): World {
    World(id, defaultBudget, tables, None, map[], map[], map[], None)
  }

  function Exec(w: World, acts: seq<Action>): World {
    if acts == [] then w else Next(Exec(w, acts[..|acts| - 1]), acts[|acts| - 1])
  }

  // ----- the invariant; `old0` is the row stored beforehand, if any -----

  predicate RowSane(rec: RunRecord, id: RunId) {
    rec.id == id && rec.status == StatusFor(rec.haltReason)
  }

  /** A row or a run carries the budget stored beforehand, and its halt if it had one. */
  predicate Carries(old0: Option<RunRecord>, budget: Budget, halted: HaltReason) {
    old0.Some? ==> budget == old0.value.budget && (Terminal(old0.value) ==> halted == old0.value.haltReason)
  }

  predicate ObjectOk(w: World, old0: Option<RunRecord>, p: nat) {
    p in w.objects ==>
      var o := w.objects[p];
      && o.run.id == w.id && Carries(old0, o.run.gov.budget, o.run.gov.halted)
      && (p in w.calls || p in w.reloads)
      && (o.closed ==> w.entry.Some? && w.entry.value != p)
  }

  predicate CallOk(w: World, old0: Option<RunRecord>, p: nat) {
    p in w.calls ==>
      && p !in w.reloads
      && match w.calls[p]
         case AtStart => p !in w.objects
         case Missed => p !in w.objects
         case NoRow => p !in w.objects && old0.None? && (w.entry.None? ==> Row(w).None?)
         case ReadRow(rec) => p !in w.objects && Row(w).Some? && RowSane(rec, w.id) && Carries(old0, rec.budget, rec.haltReason)
         case RollingBack => p in w.objects && !w.objects[p].closed && w.entry != Some(p) && Row(w).Some?
                             && w.objects[p].run.gov.halted == NotHalted
         case Built => p in w.objects && !w.objects[p].closed && w.entry != Some(p) && Row(w).Some?
         case Losing => p in w.objects && w.entry.Some? && w.entry.value != p
         case Persisting => p in w.objects && w.entry == Some(p) && old0.None?
         case Returned(obj) => w.entry == Some(obj) && (p in w.objects && obj != p ==> w.objects[p].closed)
  }

  predicate ReloadOk(w: World, old0: Option<RunRecord>, p: nat) {
    p in w.reloads ==>
      && p !in w.calls
      && match w.reloads[p]
         case NotListed => p !in w.objects
         case Listed(rec) =>
           p !in w.objects && Row(w).Some? && RowSane(rec, w.id) && Carries(old0, rec.budget, rec.haltReason) && rec.status == StatusRunning
         case Restoring => p in w.objects && Row(w).Some? && w.lock == Some(p) && w.entry.None?
         case Writing => p in w.objects && Row(w).Some? && w.lock == Some(p) && w.entry.None?
                         && w.objects[p].run.gov.halted == NotHalted
         case Finished => p in w.objects ==> w.entry == Some(p)
  }

  predicate EntryOk(w: World, old0: Option<RunRecord>) {
    && (old0.Some? ==> Row(w).Some?)
    && (Row(w).Some? ==> RowSane(Row(w).value, w.id) && Carries(old0, Row(w).value.budget, Row(w).value.haltReason))
    && (old0.None? && w.entry.None? ==> Row(w).None?)
    && (w.entry.Some? ==> w.entry.value in w.objects
                          && (Row(w).Some? && Terminal(Row(w).value) ==>
                                w.objects[w.entry.value].run.gov.halted == Row(w).value.haltReason))
    && (w.entry.None? && Row(w).Some? && Terminal(Row(w).value) ==> old0.Some? && Terminal(old0.value))
    && (w.lock.Some? ==> w.entry.None?)
  }

  ghost predicate Inv(w: World, old0: Option<RunRecord>) {
    && (old0.Some? ==> RowSane(old0.value, w.id))
    && EntryOk(w, old0)
    && (forall p: nat :: ObjectOk(w, old0, p) && CallOk(w, old0, p) && ReloadOk(w, old0, p))
  }

  predicate ProcOk(w: World, old0: Option<RunRecord>, p: nat) {
    ObjectOk(w, old0, p) && CallOk(w, old0, p) && ReloadOk(w, old0, p)
  }

  // ----- every step keeps it -----

  lemma ReadingKeeps(w: World, a: Action, old0: Option<RunRecord>, p: nat)
    requires Inv(w, old0) && Enabled(w, a) && (a.Arrive? || a.Look? || a.ReadStore?)
    ensures EntryOk(Next(w, a), old0) && ProcOk(Next(w, a), old0, p)
  {
    assert ProcOk(w, old0, p) && ProcOk(w, old0, a.p);
  }

  lemma BuildKeeps(w: World, a: Action, old0: Option<RunRecord>, p: nat)
    requires Inv(w, old0) && Enabled(w, a) && a.Build?
    ensures EntryOk(Next(w, a), old0) && ProcOk(Next(w, a), old0, p)
  {
    assert ProcOk(w, old0, p) && ProcOk(w, old0, a.p);
  }

  lemma WritingKeeps(w: World, a: Action, old0: Option<RunRecord>, p: nat)
    requires Inv(w, old0) && Enabled(w, a) && (a.WriteBack? || a.Persist?)
    ensures EntryOk(Next(w, a), old0) && ProcOk(Next(w, a), old0, p)
  {
    assert ProcOk(w, old0, p) && ProcOk(w, old0, a.p);
  }

  lemma CloseKeeps(w: World, a: Action, old0: Option<RunRecord>, p: nat)
    requires Inv(w, old0) && Enabled(w, a) && a.Close?
    ensures EntryOk(Next(w, a), old0) && ProcOk(Next(w, a), old0, p)
  {
    assert ProcOk(w, old0, p) && ProcOk(w, old0, a.p);
  }

  lemma EnterKeeps(w: World, a: Action, old0: Option<RunRecord>, p: nat)
    requires Inv(w, old0) && Enabled(w, a) && a.Enter?
    ensures EntryOk(Next(w, a), old0) && ProcOk(Next(w, a), old0, p)
  {
    assert ProcOk(w, old0, p) && ProcOk(w, old0, a.p);
  }

  lemma ListKeeps(w: World, a: Action, old0: Option<RunRecord>, p: nat)
    requires Inv(w, old0) && Enabled(w, a) && (a.StartReload? || a.List?)
    ensures EntryOk(Next(w, a), old0) && ProcOk(Next(w, a), old0, p)
  {
    assert ProcOk(w, old0, p) && ProcOk(w, old0, a.p);
  }

  lemma LockedKeeps(w: World, a: Action, old0: Option<RunRecord>, p: nat)
    requires Inv(w, old0) && Enabled(w, a) && (a.Restore? || a.WriteBackLocked? || a.EnterLocked?)
    ensures EntryOk(Next(w, a), old0) && ProcOk(Next(w, a), old0, p)
  {
    assert ProcOk(w, old0, p) && ProcOk(w, old0, a.p);
  }

  lemma WorkKeeps(w: World, a: Action, old0: Option<RunRecord>, p: nat)
    requires Inv(w, old0) && Enabled(w, a) && (a.Work? || a.Save?)
    ensures EntryOk(Next(w, a), old0) && ProcOk(Next(w, a), old0, p)
  {
    assert ProcOk(w, old0, p) && ProcOk(w, old0, w.entry.value);
  }

  lemma StepKeeps(w: World, a: Action, old0: Option<RunRecord>)
    requires Inv(w, old0)
    ensures Inv(Next(w, a), old0)
  {
    if Enabled(w, a) {
      forall p: nat ensures EntryOk(Next(w, a), old0) && ProcOk(Next(w, a), old0, p) {
        match a
        case Build(_, _) => BuildKeeps(w, a, old0, p);
        case Enter(_, _) => EnterKeeps(w, a, old0, p);
        case Close(_) => CloseKeeps(w, a, old0, p);
        case WriteBack(_) => WritingKeeps(w, a, old0, p);
        case Persist(_) => WritingKeeps(w, a, old0, p);
        case StartReload(_) => ListKeeps(w, a, old0, p);
        case List(_) => ListKeeps(w, a, old0, p);
        case Restore(_, _) => LockedKeeps(w, a, old0, p);
        case WriteBackLocked(_) => LockedKeeps(w, a, old0, p);
        case EnterLocked(_) => LockedKeeps(w, a, old0, p);
        case Work(_, _) => WorkKeeps(w, a, old0, p);
        case Save(_, _, _) => WorkKeeps(w, a, old0, p);
        case _ => ReadingKeeps(w, a, old0, p);
      }
      assert ProcOk(Next(w, a), old0, 0);
      assert Next(w, a).id == w.id;
      forall p: nat ensures ObjectOk(Next(w, a), old0, p) && CallOk(Next(w, a), old0, p) && ReloadOk(Next(w, a), old0, p) {
        assert ProcOk(Next(w, a), old0, p);
      }
    }
  }

  /** The row stored before any of the calls. */
  function StoredRow(tables: Tables, id: RunId): Option<RunRecord> {
    if id in tables.runs then Some(tables.runs[id]) else None
  }

  lemma {:induction false} Reachable(id: RunId, b: Budget, tables: Tables, acts: seq<Action>)
    requires id in tables.runs ==> RowSane(tables.runs[id], id)
    ensures Inv(Exec(Begin(id, b, tables), acts), StoredRow(tables, id)) && Exec(Begin(id, b, tables), acts).id == id
  {
    if acts != [] {
      Reachable(id, b, tables, acts[..|acts| - 1]);
      StepKeeps(Exec(Begin(id, b, tables), acts[..|acts| - 1]), acts[|acts| - 1], StoredRow(tables, id));
    }
  }

  // ----- the results -----

  lemma StepKeepsEntry(w: World, a: Action, old0: Option<RunRecord>)
    requires Inv(w, old0) && w.entry.Some?
    ensures Next(w, a).entry == w.entry
  {
    if a.EnterLocked? {
      assert ReloadOk(w, old0, a.p);
    }
  }

  /** The map entry is written at most once: whenever there is one, it is the one there will ever be. */
  lemma {:induction false} EntryIsWrittenOnce(id: RunId, b: Budget, tables: Tables, before: seq<Action>, after: seq<Action>)
    requires id in tables.runs ==> RowSane(tables.runs[id], id)
    requires Exec(Begin(id, b, tables), before).entry.Some?
    ensures Exec(Begin(id, b, tables), before + after).entry == Exec(Begin(id, b, tables), before).entry
  {
    var w0, all := Begin(id, b, tables), before + after;
    if after == [] {
      assert all == before;
    } else {
      assert all[..|all| - 1] == before + after[..|after| - 1];
      EntryIsWrittenOnce(id, b, tables, before, after[..|after| - 1]);
      Reachable(id, b, tables, all[..|all| - 1]);
      StepKeepsEntry(Exec(w0, all[..|all| - 1]), all[|all| - 1], StoredRow(tables, id));
    }
  }

  /** One run per id: from the moment the entry exists, every call, whenever it returns, returns that entry. */
  lemma {:induction false} OneRunPerId(id: RunId, b: Budget, tables: Tables, before: seq<Action>, after: seq<Action>, p: nat)
    requires id in tables.runs ==> RowSane(tables.runs[id], id)
    requires Exec(Begin(id, b, tables), before).entry.Some?
    requires var w' := Exec(Begin(id, b, tables), before + after); p in w'.calls && w'.calls[p].Returned?
    ensures var w, w' := Exec(Begin(id, b, tables), before), Exec(Begin(id, b, tables), before + after);
            w'.calls[p].obj == w.entry.value && w'.entry == w.entry
  {
    EntryIsWrittenOnce(id, b, tables, before, after);
    Reachable(id, b, tables, before + after);
    assert CallOk(Exec(Begin(id, b, tables), before + after), StoredRow(tables, id), p);
  }

  /** A call that restored a run and lost has closed it by the time it returns; the entry itself is never closed. */
  lemma LosersAreClosed(id: RunId, b: Budget, tables: Tables, acts: seq<Action>, p: nat)
    requires id in tables.runs ==> RowSane(tables.runs[id], id)
    requires var w := Exec(Begin(id, b, tables), acts); p in w.calls && w.calls[p].Returned?
    ensures var w := Exec(Begin(id, b, tables), acts);
            && (p in w.objects ==> (w.objects[p].closed <==> w.entry != Some(p)))
            && w.entry.Some? && w.entry.value in w.objects && !w.objects[w.entry.value].closed
  {
    Reachable(id, b, tables, acts);
    var w, old0 := Exec(Begin(id, b, tables), acts), StoredRow(tables, id);
    assert CallOk(w, old0, p) && ObjectOk(w, old0, p);
    assert ObjectOk(w, old0, w.entry.value);
  }

  /**
   A run stored beforehand is never reset: whatever raced, the entry has the stored budget,
   and if it was stored as halted or cancelled it refuses everything with that reason.
   */
  lemma StoredRunIsNeverReset(id: RunId, b: Budget, tables: Tables, acts: seq<Action>, now: Instant)
    requires id in tables.runs && RowSane(tables.runs[id], id)
    requires Exec(Begin(id, b, tables), acts).entry.Some?
    ensures var w, rec := Exec(Begin(id, b, tables), acts), tables.runs[id];
            && w.entry.value in w.objects && id in w.tables.runs
            && w.objects[w.entry.value].run.gov.budget == rec.budget && w.tables.runs[id].budget == rec.budget
            && (Terminal(rec) ==>
                  && w.objects[w.entry.value].run.gov.halted == rec.haltReason
                  && Verdict(AfterProceed(w.objects[w.entry.value].run, now).gov).Some?
                  && w.tables.runs[id].haltReason == rec.haltReason)
  {
    Reachable(id, b, tables, acts);
    var w := Exec(Begin(id, b, tables), acts);
    assert ObjectOk(w, StoredRow(tables, id), w.entry.value);
  }

  /**
   A durable halt is lost in exactly one way: a call that read the row before the halt still
   has its rollback to write. Every other step leaves the reason as it is.
   */
  lemma OnlyAStaleRollbackRevives(w: World, a: Action, old0: Option<RunRecord>)
    requires Inv(w, old0) && Row(w).Some? && Terminal(Row(w).value)
    ensures Row(Next(w, a)).Some?
    ensures !Terminal(Row(Next(w, a)).value) <==> a.WriteBack? && Enabled(w, a)
    ensures !(a.WriteBack? && Enabled(w, a)) ==> Row(Next(w, a)).value.haltReason == Row(w).value.haltReason
    ensures old0.Some? && Terminal(old0.value) ==> !(a.WriteBack? && Enabled(w, a))
  {
    if Enabled(w, a) && !a.Work? && !a.Save? {
      assert ProcOk(w, old0, a.p);
    }
  }

  lemma {:induction false} ExecConcat(w: World, a: seq<Action>, b: seq<Action>)
    ensures Exec(w, a + b) == Exec(Exec(w, a), b)
  {
    if b == [] {
      assert a + b == a;
    } else {
      assert (a + b)[..|a + b| - 1] == a + b[..|b| - 1];
      ExecConcat(w, a, b[..|b| - 1]);
    }
  }

  lemma FourSteps(w: World, a: Action, b: Action, c: Action, d: Action)
    ensures Exec(w, [a, b, c]) == Next(Next(Next(w, a), b), c)
    ensures Exec(w, [a, b, c, d]) == Next(Next(Next(Next(w, a), b), c), d)
  {
    assert [a, b, c, d][..3] == [a, b, c] && [a, b, c][..2] == [a, b] && [a, b][..1] == [a] && [a][..0] == [];
    assert Exec(w, [a]) == Next(w, a);
    assert Exec(w, [a, b]) == Next(Next(w, a), b);
    assert Exec(w, [a, b, c]) == Next(Next(Next(w, a), b), c);
  }

  /** A call reads a row that is ahead of its checkpoint, and has the rollback still to write. */
  lemma ReadsTheRow(w: World, p: nat, now: Instant)
    requires Free(w, p) && w.lock.None? && w.entry.None?
    requires Row(w).Some? && RollsBack(w.tables.checkpoints, Row(w).value)
    ensures Exec(w, [Arrive(p), Look(p), ReadStore(p), Build(p, now)])
         == w.(calls := w.calls[p := RollingBack],
               objects := w.objects[p := Object(Restored(w.tables.checkpoints, Row(w).value, now), false)])
  {
    FourSteps(w, Arrive(p), Look(p), ReadStore(p), Build(p, now));
    var w1 := w.(calls := w.calls[p := AtStart]);
    assert Next(w, Arrive(p)) == w1;
    var w2 := w1.(calls := w1.calls[p := Missed]);
    assert Next(w1, Look(p)) == w2;
    var w3 := w2.(calls := w2.calls[p := ReadRow(Row(w).value)]);
    assert Next(w2, ReadStore(p)) == w3;
    BuildsFromTheRow(w3, p, now);
    assert w3.calls[p := RollingBack] == w.calls[p := RollingBack];
  }

  lemma BuildsFromTheRow(w: World, p: nat, now: Instant)
    requires p in w.calls && w.calls[p].ReadRow? && RollsBack(w.tables.checkpoints, w.calls[p].rec)
    ensures Next(w, Build(p, now))
         == w.(calls := w.calls[p := RollingBack],
               objects := w.objects[p := Object(Restored(w.tables.checkpoints, w.calls[p].rec, now), false)])
  {
  }

  lemma WritesBackAndEnters(w: World, p: nat, now: Instant)
    requires At(w, p, RollingBack) && p in w.objects && w.lock.None? && w.entry.None?
    ensures Next(Next(w, WriteBack(p)), Enter(p, now))
         == w.(tables := Wrote(w, w.objects[p].run), entry := Some(p), calls := w.calls[p := Returned(p)])
  {
    var w1 := w.(tables := Wrote(w, w.objects[p].run), calls := w.calls[p := Built]);
    assert Next(w, WriteBack(p)) == w1;
  }

  lemma KillIsWritten(w: World, now: Instant)
    requires w.entry.Some? && w.entry.value in w.objects
    requires var r := w.objects[w.entry.value].run; r.id == w.id && r.gov.halted == NotHalted
    ensures var w' := Next(w, Work(OpCancel, now)); var o := w.objects[w.entry.value];
            && w' == w.(tables := w'.tables, objects := w.objects[w.entry.value := w'.objects[w.entry.value]])
            && w'.objects[w.entry.value].run.gov.halted == Cancelled
            && Row(w').Some? && Row(w').value.status == StatusCancelled
  {
  }

  lemma RollbackIsWritten(w: World, q: nat)
    requires At(w, q, RollingBack) && q in w.objects
    requires w.objects[q].run.id == w.id && w.objects[q].run.gov.halted == NotHalted
    ensures var w' := Next(w, WriteBack(q));
            && w'.objects == w.objects && w'.entry == w.entry && Row(w').Some? && Row(w').value.status == StatusRunning
  {
  }

  /** And it can happen: two calls roll the same step back, and the kill switch falls between their writes. */
  lemma AKillCanBeUndone(id: RunId, b: Budget, tables: Tables, now: Instant)
    requires id in tables.runs && RowSane(tables.runs[id], id) && RollsBack(tables.checkpoints, tables.runs[id])
    ensures var race := [Arrive(1), Look(1), ReadStore(1), Build(1, now)] + [Arrive(2), Look(2), ReadStore(2), Build(2, now)];
            var killed := Exec(Begin(id, b, tables), race + [WriteBack(1), Enter(1, now), Work(OpCancel, now)]);
            var w := Exec(Begin(id, b, tables), race + [WriteBack(1), Enter(1, now), Work(OpCancel, now), WriteBack(2)]);
            && Row(killed).Some? && Row(killed).value.status == StatusCancelled
            && Row(w).Some? && Row(w).value.status == StatusRunning
            && w.entry == Some(1) && 1 in w.objects && w.objects[1].run.gov.halted == Cancelled
  {
    var w0 := Begin(id, b, tables);
    var one, two := [Arrive(1), Look(1), ReadStore(1), Build(1, now)], [Arrive(2), Look(2), ReadStore(2), Build(2, now)];
    ReadsTheRow(w0, 1, now);
    ExecConcat(w0, one, two);
    ReadsTheRow(Exec(w0, one), 2, now);
    ExecConcat(w0, one + two, [WriteBack(1), Enter(1, now), Work(OpCancel, now)]);
    ExecConcat(w0, one + two, [WriteBack(1), Enter(1, now), Work(OpCancel, now), WriteBack(2)]);
    var w := Exec(w0, one + two);
    FourSteps(w, WriteBack(1), Enter(1, now), Work(OpCancel, now), WriteBack(2));
    WritesBackAndEnters(w, 1, now);
    var entered := Next(Next(w, WriteBack(1)), Enter(1, now));
    KillIsWritten(entered, now);
    RollbackIsWritten(Next(entered, Work(OpCancel, now)), 2);
  }
}
