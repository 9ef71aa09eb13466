/**
 Dry-running a policy bundle against a recorded run: a batch check that has to agree with
 the governor, which sees the same steps and calls one at a time.
 */
module DryRun {
  import opened Prelude
  import opened Governor
  import opened GovernorSafety
  import opened ApprovalPolicy
  import opened ToolCalls

  datatype Bundle = Bundle(name: Token, budget: Budget, toolAllowlist: seq<string>, requireFor: seq<Rule>) {
    /** Exact names only; an empty list allows everything. */
    predicate Allows(tool: string) {
      toolAllowlist == [] || tool in toolAllowlist
    }

    predicate RequiresApproval(tool: string, sideEffect: string, glob: Glob) {
      AnyMatches(requireFor, tool, sideEffect, glob)
    }
  }

  /** `spent` holds the ledger totals and the loops of the run row. */
  datatype RunData = RunData(runId: Token, spent: Usage, toolCalls: seq<ToolCallRecord>)

  datatype Report = Report(
    policy: Token, runId: Token, budgetHalt: Option<HaltReason>,
    gated: seq<ToolCallRecord>, blocked: seq<ToolCallRecord>, total: nat)

  /** A dimension the totals breach. */
  predicate Trips(b: Budget, spent: Usage, reason: HaltReason) {
    match reason
    case DollarBudget => b.dollars > 0.0 && spent.dollars >= b.dollars
    case TokenBudget => b.tokens > 0 && spent.Tokens() >= b.tokens
    case LoopBudget => b.loops > 0 && spent.loops > b.loops
    case _ => false
  }

  ghost predicate Breached(b: Budget, spent: Usage) {
    exists reason: HaltReason :: Trips(b, spent, reason)
  }

  /** The dimension a report names: dollars before tokens before loops. */
  predicate Names(b: Budget, spent: Usage, reason: HaltReason) {
    && Trips(b, spent, reason)
    && (Trips(b, spent, DollarBudget) ==> reason == DollarBudget)
    && (Trips(b, spent, TokenBudget) ==> reason != LoopBudget)
  }

  function Kept(calls: seq<ToolCallRecord>, keep: ToolCallRecord -> bool): seq<ToolCallRecord> {
    if calls == [] then []
    else Kept(calls[..|calls| - 1], keep) + if keep(calls[|calls| - 1]) then [calls[|calls| - 1]] else []
  }

  /** The kept calls are those that pass, as often as they were recorded. */
  lemma {:induction false} KeptExactly(calls: seq<ToolCallRecord>, keep: ToolCallRecord -> bool, c: ToolCallRecord)
    ensures multiset(Kept(calls, keep))[c] == if keep(c) then multiset(calls)[c] else 0
  {
    if calls != [] {
      var before, last := calls[..|calls| - 1], calls[|calls| - 1];
      KeptExactly(before, keep, c);
      assert calls == before + [last];
      assert multiset(calls) == multiset(before) + multiset{last};
    }
  }

  /** And they are in the order they were recorded in. */
  lemma {:induction false} KeptInOrder(calls: seq<ToolCallRecord>, more: seq<ToolCallRecord>, keep: ToolCallRecord -> bool)
    ensures Kept(calls + more, keep) == Kept(calls, keep) + Kept(more, keep)
  {
    if more == [] {
      assert calls + more == calls;
    } else {
      KeptInOrder(calls, more[..|more| - 1], keep);
      assert (calls + more)[..|calls + more| - 1] == calls + more[..|more| - 1];
    }
  }

  method DryRun(b: Bundle, d: RunData, glob: Glob) returns (rep: Report)
    ensures rep.policy == b.name && rep.runId == d.runId && rep.total == |d.toolCalls|
    ensures rep.budgetHalt.Some? <==> Breached(b.budget, d.spent)
    ensures rep.budgetHalt.Some? ==> Names(b.budget, d.spent, rep.budgetHalt.value)
    ensures rep.blocked == Kept(d.toolCalls, (c: ToolCallRecord) => !b.Allows(c.call.tool))
    ensures rep.gated == Kept(d.toolCalls, (c: ToolCallRecord) => b.RequiresApproval(c.call.tool, c.call.sideEffect, glob))
  {
    var tokens := d.spent.prompt + d.spent.completion;
    var halt: Option<HaltReason> := None;
    if b.budget.dollars > 0.0 && d.spent.dollars >= b.budget.dollars {
      halt := Some(DollarBudget);
    } else if b.budget.tokens > 0 && tokens >= b.budget.tokens {
      halt := Some(TokenBudget);
    } else if b.budget.loops > 0 && d.spent.loops > b.budget.loops {
      halt := Some(LoopBudget);
    }
    assert halt.Some? ==> Trips(b.budget, d.spent, halt.value);
    var gated, blocked := [], [];
    ghost var blocks := (c: ToolCallRecord) => !b.Allows(c.call.tool);
    ghost var gates := (c: ToolCallRecord) => b.RequiresApproval(c.call.tool, c.call.sideEffect, glob);
    for i := 0 to |d.toolCalls|
      invariant blocked == Kept(d.toolCalls[..i], blocks) && gated == Kept(d.toolCalls[..i], gates)
    {
      var c := d.toolCalls[i];
      assert d.toolCalls[..i + 1][..i] == d.toolCalls[..i];
      if !b.Allows(c.call.tool) {
        blocked := blocked + [c];
      }
      if b.RequiresApproval(c.call.tool, c.call.sideEffect, glob) {
        gated := gated + [c];
      }
    }
    assert d.toolCalls[..|d.toolCalls|] == d.toolCalls;
    rep := Report(b.name, d.runId, halt, gated, blocked, |d.toolCalls|);
  }

  // ----- replaying the run through the governor -----

  /** Steps begun and calls recorded, in whatever order. */
  function Tally(ops: seq<Op>): Usage {
    if ops == [] then NO_USAGE
    else
      var u, op := Tally(ops[..|ops| - 1]), ops[|ops| - 1];
      match op
      case OpPreStep(_) => u.(loops := u.loops + 1)
      case OpRecordUsage(p, c, d, _) => Spent(u, p, c, d)
      case _ => u
  }

  /** With the time budget left out: the dry run has no clock to check it against. */
  function Replay(b: Budget, ops: seq<Op>): Gov {
    DoAll(NewGov(b.(seconds := 0), NO_USAGE, NotHalted, 0), ops)
  }

  /** The replay spends what was recorded, grants at most the steps begun, and names only a dimension that trips. */
  predicate Faithful(g: Gov, b: Budget, u: Usage) {
    && Sound(g) && g.budget == b.(seconds := 0)
    && g.usage.prompt == u.prompt && g.usage.completion == u.completion && g.usage.dollars == u.dollars
    && g.usage.loops <= u.loops
    && (g.halted == NotHalted ==> g.usage.loops == u.loops)
    && (g.halted != NotHalted ==> Trips(b, u, g.halted))
  }

  lemma {:induction false} ReplayIsFaithful(b: Budget, ops: seq<Op>)
    requires forall i | 0 <= i < |ops| :: !ops[i].OpCancel?
    ensures Faithful(Replay(b, ops), b, Tally(ops))
  {
    if ops != [] {
      var before, op := ops[..|ops| - 1], ops[|ops| - 1];
      assert forall i | 0 <= i < |before| :: before[i] == ops[i];
      ReplayIsFaithful(b, before);
      StepSound(Replay(b, before), op);
    }
  }

  /**
   Time aside, the totals trip some dimension if and only if replaying the recorded steps and
   calls, in any interleaving, through a governor with the bundle's budget halts at some point.
   */
  lemma DryRunAgreesWithReplay(b: Budget, ops: seq<Op>)
    requires forall i | 0 <= i < |ops| :: !ops[i].OpCancel?
    ensures Breached(b, Tally(ops)) <==> Replay(b, ops).halted != NotHalted
  {
    ReplayIsFaithful(b, ops);
  }

  /** When only one dimension trips, the governor halts for that one. */
  lemma OneDimensionOneReason(b: Budget, ops: seq<Op>, reason: HaltReason)
    requires forall i | 0 <= i < |ops| :: !ops[i].OpCancel?
    requires Trips(b, Tally(ops), reason) && forall other: HaltReason | other != reason :: !Trips(b, Tally(ops), other)
    ensures Replay(b, ops).halted == reason
  {
    DryRunAgreesWithReplay(b, ops);
    ReplayIsFaithful(b, ops);
  }

  /** Operation n is the first to breach: the replay runs before it and is halted after it. */
  predicate BreachesAt(b: Budget, ops: seq<Op>, n: nat) {
    n < |ops| && Replay(b, ops[..n]).halted == NotHalted && Replay(b, ops[..n + 1]).halted != NotHalted
  }

  lemma {:induction false} HaltedStays(b: Budget, ops: seq<Op>, n: nat)
    requires n <= |ops| && Replay(b, ops[..n]).halted != NotHalted
    ensures Replay(b, ops).halted == Replay(b, ops[..n]).halted
  {
    if n == |ops| {
      assert ops[..n] == ops;
    } else {
      assert ops[..|ops| - 1][..n] == ops[..n];
      HaltedStays(b, ops[..|ops| - 1], n);
    }
  }

  /** A replay that halts has one first breach. */
  lemma {:induction false} SomeOperationBreaches(b: Budget, ops: seq<Op>) returns (n: nat)
    requires Replay(b, ops).halted != NotHalted
    ensures BreachesAt(b, ops, n)
  {
    var m := |ops| - 1;
    if Replay(b, ops[..m]).halted == NotHalted {
      n := m;
      assert ops[..m + 1] == ops;
    } else {
      n := SomeOperationBreaches(b, ops[..m]);
      assert ops[..m][..n] == ops[..n] && ops[..m][..n + 1] == ops[..n + 1];
    }
  }

  /** The governor's reason is settled by the totals at the first breach: tokens, else dollars, else loops. */
  lemma ReasonAtFirstBreach(b: Budget, ops: seq<Op>, n: nat)
    requires (forall i | 0 <= i < |ops| :: !ops[i].OpCancel?) && BreachesAt(b, ops, n)
    ensures var u := Tally(ops[..n + 1]);
            Replay(b, ops).halted == if Trips(b, u, TokenBudget) then TokenBudget
                                     else if Trips(b, u, DollarBudget) then DollarBudget else LoopBudget
  {
    HaltedStays(b, ops, n + 1);
    ReplayIsFaithful(b, ops[..n]);
    ReplayIsFaithful(b, ops[..n + 1]);
    assert ops[..n + 1][..n] == ops[..n] && ops[..n + 1][n] == ops[n];
  }

  lemma {:induction false} TotalsGrow(ops: seq<Op>, n: nat)
    requires n <= |ops|
    ensures Tally(ops[..n]).AtMost(Tally(ops))
  {
    if n == |ops| {
      assert ops[..n] == ops;
    } else {
      assert ops[..|ops| - 1][..n] == ops[..n];
      TotalsGrow(ops[..|ops| - 1], n);
    }
  }

  /**
   Report and governor name the same dimension exactly when the reported one already trips at
   the first breach and, if it is dollars, tokens do not trip there too.
   */
  lemma SameDimensionIff(b: Budget, ops: seq<Op>, n: nat, reported: HaltReason)
    requires (forall i | 0 <= i < |ops| :: !ops[i].OpCancel?) && BreachesAt(b, ops, n) && Names(b, Tally(ops), reported)
    ensures var u := Tally(ops[..n + 1]);
            Replay(b, ops).halted == reported
            <==> Trips(b, u, reported) && (reported == DollarBudget ==> !Trips(b, u, TokenBudget))
  {
    ReasonAtFirstBreach(b, ops, n);
    TotalsGrow(ops, n + 1);
    HaltedStays(b, ops, n + 1);
    ReplayIsFaithful(b, ops[..n + 1]);
  }

  /** When several trip the named dimension can differ: a call that exhausts both is dollars to the report, tokens to the governor. */
  lemma ReasonsCanDiffer(tokens: nat, dollars: Money)
    requires tokens > 0 && dollars > 0.0
    ensures var b := Budget(tokens, dollars, 0, 0);
            var ops := [OpRecordUsage(tokens, 0, dollars, 0)];
            Trips(b, Tally(ops), DollarBudget) && Replay(b, ops).halted == TokenBudget
  {
    var b := Budget(tokens, dollars, 0, 0);
    var op := OpRecordUsage(tokens, 0, dollars, 0);
    assert [op][..0] == [];
    assert Tally([op]) == Spent(NO_USAGE, tokens, 0, dollars);
    var g := NewGov(b, NO_USAGE, NotHalted, 0);
    assert DoAll(g, [op]) == Do(g, op);
  }
}
