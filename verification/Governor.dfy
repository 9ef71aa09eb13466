/**
 The deterministic disposer: hard per-run budgets and a kill switch around every step
 and call. Each guard is specified by a function from one governor state to the next;
 class Run is the mutable object, proved against those functions.
 */
module Governor {
  import opened Prelude

  /** Hard limits. A field that is not positive leaves its dimension unlimited. */
  datatype Budget = Budget(tokens: int, dollars: real, loops: int, seconds: int)

  datatype Usage = Usage(prompt: nat, completion: nat, dollars: Money, loops: nat) {
    function Tokens(): nat {
      prompt + completion
    }

    /** Componentwise order. */
    predicate AtMost(other: Usage) {
      prompt <= other.prompt && completion <= other.completion && dollars <= other.dollars && loops <= other.loops
    }
  }

  const NO_USAGE := Usage(0, 0, 0.0, 0)

  datatype HaltReason = NotHalted | TokenBudget | DollarBudget | LoopBudget | TimeBudget | Cancelled

  datatype HaltError = HaltError(reason: HaltReason, usage: Usage)

  /** `cancelled` records that the derived context's cancel function was called. */
  datatype Gov = Gov(budget: Budget, usage: Usage, halted: HaltReason, startedAt: Instant, cancelled: bool)

  function NewGov(b: Budget, restored: Usage, restoredHalt: HaltReason, now: Instant): Gov {
    Gov(b, restored, restoredHalt, now, restoredHalt != NotHalted)
  }

  predicate Expired(g: Gov, now: Instant) {
    g.budget.seconds > 0 && now - g.startedAt >= g.budget.seconds * NANOS_PER_SECOND
  }

  /** The derived context is dead once cancelled or past its own deadline. */
  predicate ContextDead(g: Gov, now: Instant) {
    g.cancelled || Expired(g, now)
  }

  function Halt(g: Gov, reason: HaltReason): Gov {
    if g.halted == NotHalted then g.(halted := reason, cancelled := true) else g
  }

  /** What every guard returns: an error exactly when the run is (now) halted. */
  function Verdict(g: Gov): Option<HaltError> {
    if g.halted == NotHalted then None else Some(HaltError(g.halted, g.usage))
  }

  function Check(g: Gov, now: Instant): Gov {
    if g.halted != NotHalted then g
    else if Expired(g, now) then Halt(g, TimeBudget)
    else if g.budget.tokens > 0 && g.usage.Tokens() >= g.budget.tokens then Halt(g, TokenBudget)
    else if g.budget.dollars > 0.0 && g.usage.dollars >= g.budget.dollars then Halt(g, DollarBudget)
    else g
  }

  function AfterPreStep(g: Gov, now: Instant): Gov {
    if g.halted != NotHalted then g
    else if Expired(g, now) then Halt(g, TimeBudget)
    else if g.budget.loops > 0 && g.usage.loops + 1 > g.budget.loops then Halt(g, LoopBudget)
    else g.(usage := g.usage.(loops := g.usage.loops + 1))
  }

  function AfterCanProceed(g: Gov, now: Instant): Gov {
    Check(g, now)
  }

  function Spent(u: Usage, prompt: nat, completion: nat, dollars: Money): Usage {
    Usage(u.prompt + prompt, u.completion + completion, u.dollars + dollars, u.loops)
  }

  function AfterRecordUsage(g: Gov, prompt: nat, completion: nat, dollars: Money, now: Instant): Gov {
    Check(g.(usage := Spent(g.usage, prompt, completion, dollars)), now)
  }

  function AfterCancel(g: Gov): Gov {
    Halt(g, Cancelled)
  }

  /** The live governance state of one run. The mutex makes every method atomic. */
  class Run {
    const budget: Budget
    const startedAt: Instant
    var usage: Usage
    var halted: HaltReason
    var cancelled: bool
    /** The run this governor belongs to; it keeps governors of different runs apart. */
    ghost const owner: nat

    ghost function State(): Gov
      reads this
    {
      Gov(budget, usage, halted, startedAt, cancelled)
    }

    constructor New(b: Budget, restored: Usage, restoredHalt: HaltReason, now: Instant, ghost owner: nat)
      ensures State() == NewGov(b, restored, restoredHalt, now)
      ensures this.owner == owner
    {
      this.owner := owner;
      budget := b;
      startedAt := now;
      usage := restored;
      halted := restoredHalt;
      cancelled := restoredHalt != NotHalted;
    }

    method PreStep(now: Instant) returns (err: Option<HaltError>)
      modifies this
      ensures State() == AfterPreStep(old(State()), now)
      ensures err == Verdict(State())
    {
      if halted != NotHalted {
        return Some(HaltError(halted, usage));
      }
      var expired := ExpiredLocked(now);
      if expired {
        err := HaltLocked(TimeBudget);
        return;
      }
      if budget.loops > 0 && usage.loops + 1 > budget.loops {
        err := HaltLocked(LoopBudget);
        return;
      }
      usage := usage.(loops := usage.loops + 1);
      err := None;
    }

    method CanProceed(now: Instant) returns (err: Option<HaltError>)
      modifies this
      ensures State() == AfterCanProceed(old(State()), now)
      ensures err == Verdict(State())
    {
      err := CheckLocked(now);
    }

    method RecordUsage(prompt: nat, completion: nat, dollars: Money, now: Instant) returns (err: Option<HaltError>)
      modifies this
      ensures State() == AfterRecordUsage(old(State()), prompt, completion, dollars, now)
      ensures err == Verdict(State())
    {
      usage := usage.(prompt := usage.prompt + prompt);
      usage := usage.(completion := usage.completion + completion);
      usage := usage.(dollars := usage.dollars + dollars);
      err := CheckLocked(now);
    }

    method Cancel()
      modifies this
      ensures State() == AfterCancel(old(State()))
    {
      var _ := HaltLocked(Cancelled);
    }

    /** Releases the context without halting the accounting. */
    method Close()
      modifies this`cancelled
      ensures State() == old(State()).(cancelled := true)
    {
      cancelled := true;
    }

    method CheckLocked(now: Instant) returns (err: Option<HaltError>)
      modifies this
      ensures State() == Check(old(State()), now)
      ensures err == Verdict(State())
    {
      if halted != NotHalted {
        return Some(HaltError(halted, usage));
      }
      var expired := ExpiredLocked(now);
      if expired {
        err := HaltLocked(TimeBudget);
        return;
      }
      if budget.tokens > 0 && usage.Tokens() >= budget.tokens {
        err := HaltLocked(TokenBudget);
        return;
      }
      if budget.dollars > 0.0 && usage.dollars >= budget.dollars {
        err := HaltLocked(DollarBudget);
        return;
      }
      err := None;
    }

    method ExpiredLocked(now: Instant) returns (expired: bool)
      ensures expired == Expired(State(), now)
    {
      if budget.seconds <= 0 {
        return false;
      }
      return now - startedAt >= budget.seconds * NANOS_PER_SECOND;
    }

    method HaltLocked(reason: HaltReason) returns (err: Option<HaltError>)
      requires reason != NotHalted
      modifies this
      ensures State() == Halt(old(State()), reason)
      ensures err == Verdict(State())
    {
      if halted == NotHalted {
        halted := reason;
        cancelled := true;
      }
      return Some(HaltError(halted, usage));
    }
  }
}

/** What the disposer guarantees over any sequence of guard calls. */
module GovernorSafety {
  import opened Prelude
  import opened Governor

  predicate UnderSpend(b: Budget, u: Usage) {
    (b.tokens > 0 ==> u.Tokens() < b.tokens) && (b.dollars > 0.0 ==> u.dollars < b.dollars)
  }

  /** The recorded reason is witnessed by the usage, and a run with no reason is under budget. */
  predicate Justified(b: Budget, u: Usage, halted: HaltReason) {
    && (b.loops > 0 ==> u.loops <= b.loops)
    && match halted
       case NotHalted => UnderSpend(b, u)
       case TokenBudget => b.tokens > 0 && u.Tokens() >= b.tokens
       case DollarBudget => b.dollars > 0.0 && u.dollars >= b.dollars
       case LoopBudget => b.loops > 0 && u.loops == b.loops
       case TimeBudget => b.seconds > 0
       case Cancelled => true
  }

  predicate Sound(g: Gov) {
    Justified(g.budget, g.usage, g.halted) && (g.halted != NotHalted ==> g.cancelled)
  }

  datatype Op =
    | OpPreStep(now: Instant)
    | OpCanProceed(now: Instant)
    | OpRecordUsage(prompt: nat, completion: nat, dollars: Money, now: Instant)
    | OpCancel

  function Do(g: Gov, op: Op): Gov {
    match op
    case OpPreStep(now) => AfterPreStep(g, now)
    case OpCanProceed(now) => AfterCanProceed(g, now)
    case OpRecordUsage(p, c, d, now) => AfterRecordUsage(g, p, c, d, now)
    case OpCancel => AfterCancel(g)
  }

  function DoAll(g: Gov, ops: seq<Op>): Gov {
    if ops == [] then g else Do(DoAll(g, ops[..|ops| - 1]), ops[|ops| - 1])
  }

  /** How many PreStep calls were granted. */
  function Granted(g: Gov, ops: seq<Op>): nat {
    if ops == [] then 0
    else
      var before := DoAll(g, ops[..|ops| - 1]);
      var op := ops[|ops| - 1];
      Granted(g, ops[..|ops| - 1]) + if op.OpPreStep? && Verdict(AfterPreStep(before, op.now)).None? then 1 else 0
  }

  /**
   PreStep by the clock and the counters: a halted run stays as it was; else time is looked at
   first, then loops, and only a step that passes both is counted.
   */
  lemma PreStepExactly(g: Gov, now: Instant)
    ensures var g' := Do(g, OpPreStep(now));
            var late := g.budget.seconds > 0 && now - g.startedAt >= g.budget.seconds * 1_000_000_000;
            var full := g.budget.loops > 0 && g.usage.loops >= g.budget.loops;
            && g'.budget == g.budget && g'.startedAt == g.startedAt
            && (g.halted != NotHalted ==> g' == g)
            && (g.halted == NotHalted ==>
                  && g'.halted == (if late then TimeBudget else if full then LoopBudget else NotHalted)
                  && g'.cancelled == (g.cancelled || late || full)
                  && g'.usage == Usage(g.usage.prompt, g.usage.completion, g.usage.dollars,
                                       if late || full then g.usage.loops else g.usage.loops + 1))
  {
  }

  /** What CanProceed and RecordUsage check, given the usage so far: time, then tokens, then dollars, and never loops. */
  predicate CheckedBy(g: Gov, u: Usage, now: Instant, g': Gov) {
    var late := g.budget.seconds > 0 && now - g.startedAt >= g.budget.seconds * 1_000_000_000;
    var tokens := g.budget.tokens > 0 && u.prompt + u.completion >= g.budget.tokens;
    var dollars := g.budget.dollars > 0.0 && u.dollars >= g.budget.dollars;
    && g'.budget == g.budget && g'.startedAt == g.startedAt && g'.usage == u
    && (g.halted != NotHalted ==> g'.halted == g.halted && g'.cancelled == g.cancelled)
    && (g.halted == NotHalted ==>
          && g'.halted == (if late then TimeBudget else if tokens then TokenBudget else if dollars then DollarBudget else NotHalted)
          && g'.cancelled == (g.cancelled || late || tokens || dollars))
  }

  /** The other guards, by the clock and the counters: usage is recorded even on a halted run, and a kill keeps an earlier reason. */
  lemma OtherGuardsExactly(g: Gov, prompt: nat, completion: nat, dollars: Money, now: Instant)
    ensures CheckedBy(g, g.usage, now, Do(g, OpCanProceed(now)))
    ensures CheckedBy(g, Usage(g.usage.prompt + prompt, g.usage.completion + completion, g.usage.dollars + dollars, g.usage.loops),
                      now, Do(g, OpRecordUsage(prompt, completion, dollars, now)))
    ensures var g' := Do(g, OpCancel);
            && g'.halted == (if g.halted == NotHalted then Cancelled else g.halted) && g'.usage == g.usage
            && g'.cancelled == (g.cancelled || g.halted == NotHalted) && g'.budget == g.budget && g'.startedAt == g.startedAt
  {
  }

  /** A guard's answer: nothing on a running run, else its reason and usage. */
  lemma VerdictExactly(g: Gov)
    ensures Verdict(g).None? <==> g.halted == NotHalted
    ensures Verdict(g).Some? ==> Verdict(g).value.reason == g.halted && Verdict(g).value.usage == g.usage
  {
  }

  /** A governor, restored or not, keeps its usage and halt; its clock starts when it is made, and a restored halt is dead at once. */
  lemma NewGovernorExactly(b: Budget, restored: Usage, restoredHalt: HaltReason, at: Instant, now: Instant)
    ensures var g := NewGov(b, restored, restoredHalt, at);
            && g.budget == b && g.usage == restored && g.halted == restoredHalt && g.startedAt == at
            && (ContextDead(g, now) <==> restoredHalt != NotHalted || (b.seconds > 0 && now - at >= b.seconds * 1_000_000_000))
  {
  }

  /** The check either halts for a reason the usage or the clock witnesses, or finds the run under budget. */
  lemma CheckSound(g: Gov, now: Instant)
    requires g.halted == NotHalted && (g.budget.loops > 0 ==> g.usage.loops <= g.budget.loops)
    ensures Sound(Check(g, now)) && Check(g, now).usage == g.usage
    ensures Check(g, now).halted == TimeBudget <==> Expired(g, now)
  {
  }

  /** One guard call keeps soundness, never lowers usage, and never changes a recorded reason. */
  lemma StepSound(g: Gov, op: Op)
    requires Sound(g)
    ensures var g' := Do(g, op);
            && Sound(g') && g'.budget == g.budget && g'.startedAt == g.startedAt
            && g.usage.AtMost(g'.usage)
            && (g.halted != NotHalted ==> g'.halted == g.halted && g'.usage.loops == g.usage.loops)
            && (op.OpRecordUsage? ==> g'.usage == Spent(g.usage, op.prompt, op.completion, op.dollars))
            && (g'.halted == TimeBudget && g.halted == NotHalted ==> !op.OpCancel? && Expired(g, op.now))
  {
    match op
    case OpPreStep(now) =>
    case OpCanProceed(now) =>
      if g.halted == NotHalted {
        CheckSound(g, now);
      }
    case OpRecordUsage(p, c, d, now) =>
      if g.halted == NotHalted {
        CheckSound(g.(usage := Spent(g.usage, p, c, d)), now);
      }
    case OpCancel =>
  }

  /**
   Over any sequence of guard calls every halt is justified, the context of a halted run
   is dead, a run still going is strictly under its token and dollar budgets, and the
   loops counted are exactly the steps granted, so no more than the loop budget is.
   */
  lemma {:induction false} HaltsJustifiedAndComplete(b: Budget, start: Instant, ops: seq<Op>, at: Instant)
    ensures var g := DoAll(NewGov(b, NO_USAGE, NotHalted, start), ops);
            && Sound(g)
            && g.budget == b
            && g.usage.loops == Granted(NewGov(b, NO_USAGE, NotHalted, start), ops)
            && (b.loops > 0 ==> Granted(NewGov(b, NO_USAGE, NotHalted, start), ops) <= b.loops)
            && (g.halted != NotHalted ==> ContextDead(g, at))
            && (g.halted == NotHalted ==> UnderSpend(b, g.usage))
  {
    if ops != [] {
      HaltsJustifiedAndComplete(b, start, ops[..|ops| - 1], at);
      StepSound(DoAll(NewGov(b, NO_USAGE, NotHalted, start), ops[..|ops| - 1]), ops[|ops| - 1]);
    }
  }

  /** The first reason wins for the rest of the run, and every later guard reports it. */
  lemma {:induction false} FirstReasonWins(g: Gov, ops: seq<Op>)
    requires Sound(g) && g.halted != NotHalted
    ensures var g' := DoAll(g, ops);
            && Sound(g') && g'.halted == g.halted && g'.usage.loops == g.usage.loops
            && Verdict(g').Some? && Verdict(g').value.reason == g.halted
            && Granted(g, ops) == 0
  {
    if ops != [] {
      FirstReasonWins(g, ops[..|ops| - 1]);
      StepSound(DoAll(g, ops[..|ops| - 1]), ops[|ops| - 1]);
    }
  }
}
