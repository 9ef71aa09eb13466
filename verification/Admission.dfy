/**
 Many proxied calls on one run at once. Every governor method is one atomic step; a call
 begins a step, asks to proceed, and once admitted either records its usage or fails.
 The calls interleave in any way, with the kill switch anywhere.
 */
module Admission {
  import opened Prelude
  import opened Governor
  import opened GovernorSafety

  /** `waiting` calls were granted a step, `inFlight` calls were admitted and are with the provider. */
  datatype Proxy = Proxy(gov: Gov, waiting: set<nat>, inFlight: set<nat>)

  datatype Action =
    | Begin(call: nat, now: Instant)
    | Admit(call: nat, now: Instant)
    | Record(call: nat, prompt: nat, completion: nat, dollars: Money, now: Instant)
    | Fail(call: nat)
    | Kill

  function Start(b: Budget, restored: Usage, at: Instant): Proxy {
    Proxy(NewGov(b, restored, NotHalted, at), {}, {})
  }

  predicate Admits(p: Proxy, a: Action) {
    a.Admit? && a.call in p.waiting && Verdict(AfterCanProceed(p.gov, a.now)).None?
  }

  predicate Records(p: Proxy, a: Action) {
    a.Record? && a.call in p.inFlight
  }

  /** An action of a call that is not at that point does nothing. */
  function Next(p: Proxy, a: Action): Proxy {
    match a
    case Begin(call, now) =>
      if call in p.waiting + p.inFlight then p
      else
        var g := AfterPreStep(p.gov, now);
        Proxy(g, if Verdict(g).None? then p.waiting + {call} else p.waiting, p.inFlight)
    case Admit(call, now) =>
      if call !in p.waiting then p
      else Proxy(AfterCanProceed(p.gov, now), p.waiting - {call}, if Admits(p, a) then p.inFlight + {call} else p.inFlight)
    case Record(call, prompt, completion, dollars, now) =>
      if call !in p.inFlight then p
      else Proxy(AfterRecordUsage(p.gov, prompt, completion, dollars, now), p.waiting, p.inFlight - {call})
    case Fail(call) => p.(waiting := p.waiting - {call}, inFlight := p.inFlight - {call})
    case Kill => p.(gov := AfterCancel(p.gov))
  }

  function Exec(p: Proxy, acts: seq<Action>): Proxy {
    if acts == [] then p else Next(Exec(p, acts[..|acts| - 1]), acts[|acts| - 1])
  }

  // ----- what a run's history says -----

  /** The usage at the last admission, or at the start. */
  function Base(p: Proxy, acts: seq<Action>): Usage {
    if acts == [] then p.gov.usage
    else
      var before := acts[..|acts| - 1];
      if Admits(Exec(p, before), acts[|acts| - 1]) then Exec(p, before).gov.usage else Base(p, before)
  }

  /** The calls in flight just after the last admission, the admitted one included. */
  function Fleet(p: Proxy, acts: seq<Action>): set<nat> {
    if acts == [] then p.inFlight
    else
      var before := acts[..|acts| - 1];
      if Admits(Exec(p, before), acts[|acts| - 1]) then Exec(p, acts).inFlight else Fleet(p, before)
  }

  /** The usage recordings since the last admission. */
  function Since(p: Proxy, acts: seq<Action>): (recs: seq<Action>)
    ensures forall i | 0 <= i < |recs| :: recs[i].Record?
  {
    if acts == [] then []
    else
      var before, a := acts[..|acts| - 1], acts[|acts| - 1];
      if Admits(Exec(p, before), a) then []
      else if Records(Exec(p, before), a) then Since(p, before) + [a]
      else Since(p, before)
  }

  function Admissions(p: Proxy, acts: seq<Action>): nat {
    if acts == [] then 0
    else
      var before := acts[..|acts| - 1];
      Admissions(p, before) + if Admits(Exec(p, before), acts[|acts| - 1]) then 1 else 0
  }

  function TokensOf(recs: seq<Action>): nat
    requires forall i | 0 <= i < |recs| :: recs[i].Record?
  {
    if recs == [] then 0
    else TokensOf(recs[..|recs| - 1]) + recs[|recs| - 1].prompt + recs[|recs| - 1].completion
  }

  function DollarsOf(recs: seq<Action>): Money
    requires forall i | 0 <= i < |recs| :: recs[i].Record?
  {
    if recs == [] then 0.0 else DollarsOf(recs[..|recs| - 1]) + recs[|recs| - 1].dollars
  }

  function CallsOf(recs: seq<Action>): set<nat>
    requires forall i | 0 <= i < |recs| :: recs[i].Record?
  {
    if recs == [] then {} else CallsOf(recs[..|recs| - 1]) + {recs[|recs| - 1].call}
  }

  // ----- the bound -----

  /** Usage is the base plus what was recorded since, each recording by its own call of the fleet. */
  ghost predicate Bracketed(p: Proxy, acts: seq<Action>) {
    var s, recs := Exec(p, acts), Since(p, acts);
    && Sound(s.gov) && s.gov.budget == p.gov.budget
    && UnderSpend(s.gov.budget, Base(p, acts))
    && s.gov.usage.Tokens() == Base(p, acts).Tokens() + TokensOf(recs)
    && s.gov.usage.dollars == Base(p, acts).dollars + DollarsOf(recs)
    && s.inFlight !! CallsOf(recs) && s.inFlight + CallsOf(recs) <= Fleet(p, acts)
    && |CallsOf(recs)| == |recs|
  }

  lemma AdmissionIsUnderBudget(p: Proxy, a: Action)
    requires Sound(p.gov) && Admits(p, a)
    ensures p.gov.halted == NotHalted && UnderSpend(p.gov.budget, p.gov.usage) && Next(p, a).gov == p.gov
  {
  }

  lemma RecordBrackets(p: Proxy, before: seq<Action>, a: Action)
    requires Bracketed(p, before) && Records(Exec(p, before), a)
    ensures Bracketed(p, before + [a])
  {
    var s, acts, recs := Exec(p, before), before + [a], Since(p, before);
    assert acts[..|acts| - 1] == before && (recs + [a])[..|recs|] == recs;
    StepSound(s.gov, OpRecordUsage(a.prompt, a.completion, a.dollars, a.now));
    assert Since(p, acts) == recs + [a] && Base(p, acts) == Base(p, before) && Fleet(p, acts) == Fleet(p, before);
    assert CallsOf(recs + [a]) == CallsOf(recs) + {a.call};
  }

  lemma AdmitBrackets(p: Proxy, before: seq<Action>, a: Action)
    requires Bracketed(p, before) && Admits(Exec(p, before), a)
    ensures Bracketed(p, before + [a])
  {
    assert (before + [a])[..|before|] == before;
    AdmissionIsUnderBudget(Exec(p, before), a);
  }

  /** No other action moves the spend, or puts a call in flight. */
  lemma QuietBrackets(p: Proxy, before: seq<Action>, a: Action)
    requires Bracketed(p, before) && !Records(Exec(p, before), a) && !Admits(Exec(p, before), a)
    ensures Bracketed(p, before + [a])
  {
    var s, acts := Exec(p, before), before + [a];
    assert acts[..|acts| - 1] == before;
    match a
    case Begin(call, now) => StepSound(s.gov, OpPreStep(now));
    case Admit(call, now) => StepSound(s.gov, OpCanProceed(now));
    case Record(_, _, _, _, _) =>
    case Fail(call) =>
    case Kill => StepSound(s.gov, OpCancel);
  }

  lemma StepBrackets(p: Proxy, before: seq<Action>, a: Action)
    requires Bracketed(p, before)
    ensures Bracketed(p, before + [a])
  {
    if Records(Exec(p, before), a) {
      RecordBrackets(p, before, a);
    } else if Admits(Exec(p, before), a) {
      AdmitBrackets(p, before, a);
    } else {
      QuietBrackets(p, before, a);
    }
  }

  lemma {:induction false} AlwaysBracketed(p: Proxy, acts: seq<Action>)
    requires Sound(p.gov) && p.gov.halted == NotHalted && p.inFlight == {} && p.waiting == {}
    ensures Bracketed(p, acts)
  {
    if acts != [] {
      AlwaysBracketed(p, acts[..|acts| - 1]);
      StepBrackets(p, acts[..|acts| - 1], acts[|acts| - 1]);
      assert acts[..|acts| - 1] + [acts[|acts| - 1]] == acts;
    }
  }

  /** n times x, as repeated addition. */
  function Times(n: nat, x: Money): Money {
    if n == 0 then 0.0 else Times(n - 1, x) + x
  }

  lemma {:induction false} TimesMonotone(n: nat, k: nat, x: Money)
    requires n <= k
    ensures Times(n, x) <= Times(k, x)
  {
    if n < k {
      TimesMonotone(n, k - 1, x);
    }
  }

  lemma {:induction false} TimesIsProduct(n: nat, x: Money)
    ensures Times(n, x) == n as real * x
  {
    if n > 0 {
      TimesIsProduct(n - 1, x);
      assert n as real * x == (n - 1) as real * x + x;
    }
  }

  lemma {:induction false} TimesIsNatProduct(n: nat, c: nat)
    ensures Times(n, c as real) == (n * c) as real
  {
    if n > 0 {
      TimesIsNatProduct(n - 1, c);
      assert n * c == (n - 1) * c + c;
    }
  }

  predicate Cheap(recs: seq<Action>, tokens: nat, dollars: Money) {
    forall i | 0 <= i < |recs| && recs[i].Record? :: recs[i].prompt + recs[i].completion <= tokens && recs[i].dollars <= dollars
  }

  lemma {:induction false} SumBounded(recs: seq<Action>, tokens: nat, dollars: Money)
    requires (forall i | 0 <= i < |recs| :: recs[i].Record?) && Cheap(recs, tokens, dollars)
    ensures TokensOf(recs) as real <= Times(|recs|, tokens as real) && DollarsOf(recs) <= Times(|recs|, dollars)
  {
    if recs != [] {
      SumBounded(recs[..|recs| - 1], tokens, dollars);
    }
  }

  lemma {:induction false} SinceFromHistory(p: Proxy, acts: seq<Action>, tokens: nat, dollars: Money)
    requires Cheap(acts, tokens, dollars)
    ensures Cheap(Since(p, acts), tokens, dollars)
  {
    if acts != [] {
      var before, a := acts[..|acts| - 1], acts[|acts| - 1];
      assert Cheap(before, tokens, dollars) by {
        assert forall i | 0 <= i < |before| :: before[i] == acts[i];
      }
      SinceFromHistory(p, before, tokens, dollars);
      var was, recs := Since(p, before), Since(p, acts);
      forall i | 0 <= i < |recs| ensures recs[i].prompt + recs[i].completion <= tokens && recs[i].dollars <= dollars {
        if recs == was + [a] && i == |was| {
          assert recs[i] == acts[|acts| - 1];
        } else {
          assert recs[i] == was[i];
        }
      }
    }
  }

  lemma SubsetSize<T>(a: set<T>, b: set<T>)
    requires a <= b
    ensures |a| <= |b|
  {
    assert b == a + (b - a);
  }

  /** However the calls interleave, a budgeted dimension ends below its budget plus what the last fleet recorded. */
  lemma {:induction false} OvershootIsTheLastFleet(b: Budget, restored: Usage, at: Instant, acts: seq<Action>)
    requires UnderSpend(b, restored) && (b.loops > 0 ==> restored.loops <= b.loops)
    ensures var p := Start(b, restored, at);
            var u, recs := Exec(p, acts).gov.usage, Since(p, acts);
            && (b.tokens > 0 ==> u.Tokens() < b.tokens + TokensOf(recs))
            && (b.dollars > 0.0 ==> u.dollars < b.dollars + DollarsOf(recs))
            && CallsOf(recs) <= Fleet(p, acts) && |recs| == |CallsOf(recs)| <= |Fleet(p, acts)|
  {
    var p := Start(b, restored, at);
    AlwaysBracketed(p, acts);
    SubsetSize(CallsOf(Since(p, acts)), Fleet(p, acts));
  }

  lemma SinceCosts(recs: seq<Action>, k: nat, c: nat, d: Money)
    requires (forall i | 0 <= i < |recs| :: recs[i].Record?) && Cheap(recs, c, d) && |recs| <= k
    ensures TokensOf(recs) as real <= Times(k, c as real) && DollarsOf(recs) <= Times(k, d)
  {
    SumBounded(recs, c, d);
    TimesMonotone(|recs|, k, c as real);
    TimesMonotone(|recs|, k, d);
  }

  lemma SinceTotals(recs: seq<Action>, k: nat, c: nat, d: Money)
    requires (forall i | 0 <= i < |recs| :: recs[i].Record?) && Cheap(recs, c, d) && |recs| <= k
    ensures TokensOf(recs) <= k * c && DollarsOf(recs) <= k as real * d
  {
    SinceCosts(recs, k, c, d);
    TimesIsNatProduct(k, c);
    TimesIsProduct(k, d);
  }

  /** With at most k calls in flight at the last admission, each costing at most c tokens and d dollars: below B + k*c and B + k*d. */
  lemma OvershootBounded(b: Budget, restored: Usage, at: Instant, acts: seq<Action>, k: nat, c: nat, d: Money)
    requires UnderSpend(b, restored) && (b.loops > 0 ==> restored.loops <= b.loops)
    requires Cheap(acts, c, d) && |Fleet(Start(b, restored, at), acts)| <= k
    ensures var u := Exec(Start(b, restored, at), acts).gov.usage;
            && (b.tokens > 0 ==> u.Tokens() < b.tokens + k * c)
            && (b.dollars > 0.0 ==> u.dollars < b.dollars + k as real * d)
  {
    OvershootIsTheLastFleet(b, restored, at, acts);
    SinceFromHistory(Start(b, restored, at), acts, c, d);
    SinceTotals(Since(Start(b, restored, at), acts), k, c, d);
  }

  // ----- admission and the loop budget -----

  /** Once the run is halted nothing is admitted, and the calls in flight only drain. */
  lemma {:induction false} NoneAdmittedAfterHalt(p: Proxy, before: seq<Action>, after: seq<Action>)
    requires Sound(p.gov) && p.gov.halted == NotHalted && p.inFlight == {} && p.waiting == {}
    requires Exec(p, before).gov.halted != NotHalted
    ensures Admissions(p, before + after) == Admissions(p, before)
    ensures Exec(p, before + after).gov.halted == Exec(p, before).gov.halted
    ensures Exec(p, before + after).inFlight <= Exec(p, before).inFlight
  {
    if after == [] {
      assert before + after == before;
    } else {
      var acts := before + after;
      assert acts[..|acts| - 1] == before + after[..|after| - 1];
      NoneAdmittedAfterHalt(p, before, after[..|after| - 1]);
    }
  }

  /** One action: every admission takes one call out of those waiting, and every call that waits was counted as a loop. */
  lemma StepSpendsLoops(s: Proxy, a: Action)
    requires Sound(s.gov)
    ensures var s' := Next(s, a);
            |s'.waiting| + (if Admits(s, a) then 1 else 0) + s.gov.usage.loops <= |s.waiting| + s'.gov.usage.loops
  {
    match a
    case Begin(call, now) => StepSound(s.gov, OpPreStep(now));
    case Admit(call, now) => StepSound(s.gov, OpCanProceed(now));
    case Record(call, prompt, completion, dollars, now) => StepSound(s.gov, OpRecordUsage(prompt, completion, dollars, now));
    case Fail(call) => SubsetSize(s.waiting - {call}, s.waiting);
    case Kill => StepSound(s.gov, OpCancel);
  }

  lemma {:induction false} AdmissionsSpendLoops(p: Proxy, acts: seq<Action>)
    requires Sound(p.gov) && p.gov.halted == NotHalted && p.inFlight == {} && p.waiting == {}
    ensures p.gov.usage.loops + Admissions(p, acts) + |Exec(p, acts).waiting| <= Exec(p, acts).gov.usage.loops
  {
    if acts != [] {
      AdmissionsSpendLoops(p, acts[..|acts| - 1]);
      AlwaysBracketed(p, acts[..|acts| - 1]);
      StepSpendsLoops(Exec(p, acts[..|acts| - 1]), acts[|acts| - 1]);
    }
  }

  /** Each admission used up one granted step, so a loop budget bounds the calls ever admitted. */
  lemma AdmissionsWithinLoops(b: Budget, restored: Usage, at: Instant, acts: seq<Action>)
    requires UnderSpend(b, restored) && restored.loops <= b.loops && b.loops > 0
    ensures restored.loops + Admissions(Start(b, restored, at), acts) <= b.loops
  {
    AlwaysBracketed(Start(b, restored, at), acts);
    AdmissionsSpendLoops(Start(b, restored, at), acts);
  }

  // ----- the bound is reached -----

  /** k calls admitted one after another, then all of them recorded at c tokens each. */
  function Burst(k: nat): seq<Action> {
    if k == 0 then [] else Burst(k - 1) + [Begin(k, 0), Admit(k, 0)]
  }

  function Landing(k: nat, c: nat): seq<Action> {
    if k == 0 then [] else Landing(k - 1, c) + [Record(k, c, 0, 0.0, 0)]
  }

  lemma {:induction false} ExecConcat(p: Proxy, a: seq<Action>, b: seq<Action>)
    ensures Exec(p, a + b) == Exec(Exec(p, a), b)
  {
    if b == [] {
      assert a + b == a;
    } else {
      assert (a + b)[..|a + b| - 1] == a + b[..|b| - 1];
      ExecConcat(p, a, b[..|b| - 1]);
    }
  }

  /** Running, with no loop or time budget, under its other budgets, and with no call waiting. */
  predicate Open(p: Proxy) {
    && p.waiting == {} && p.gov.halted == NotHalted && UnderSpend(p.gov.budget, p.gov.usage)
    && p.gov.budget.loops == p.gov.budget.seconds == 0
  }

  lemma OneMoreAdmitted(p: Proxy, call: nat)
    requires Open(p) && call !in p.inFlight
    ensures var p' := Next(Next(p, Begin(call, 0)), Admit(call, 0));
            Open(p') && p'.inFlight == p.inFlight + {call} && p'.gov.usage.Tokens() == p.gov.usage.Tokens()
  {
    var q := Next(p, Begin(call, 0));
    assert q.waiting == {call} && q.inFlight == p.inFlight;
    assert {call} - {call} == {};
  }

  lemma TwoSteps(p: Proxy, before: seq<Action>, a: Action, b: Action)
    ensures Exec(p, before + [a, b]) == Next(Next(Exec(p, before), a), b)
  {
    assert (before + [a, b])[..|before| + 1] == before + [a] && (before + [a])[..|before|] == before;
  }

  /** The calls in flight are 1 to k. */
  ghost predicate Fleet1To(p: Proxy, k: nat) {
    |p.inFlight| == k && forall i: nat :: i in p.inFlight <==> 1 <= i <= k
  }

  lemma BurstGrows(p: Proxy, before: seq<Action>, k: nat)
    requires k > 0 && Open(Exec(p, before)) && Fleet1To(Exec(p, before), k - 1)
    ensures var p' := Exec(p, before + [Begin(k, 0), Admit(k, 0)]);
            Open(p') && Fleet1To(p', k) && p'.gov.usage.Tokens() == Exec(p, before).gov.usage.Tokens()
  {
    TwoSteps(p, before, Begin(k, 0), Admit(k, 0));
    OneMoreAdmitted(Exec(p, before), k);
  }

  lemma {:induction false} BurstAdmitsAll(p: Proxy, k: nat)
    requires Open(p) && p.inFlight == {}
    ensures Open(Exec(p, Burst(k))) && Fleet1To(Exec(p, Burst(k)), k)
    ensures Exec(p, Burst(k)).gov.usage.Tokens() == p.gov.usage.Tokens()
  {
    if k == 0 {
      assert Exec(p, []) == p;
    } else {
      BurstAdmitsAll(p, k - 1);
      BurstGrows(p, Burst(k - 1), k);
    }
  }

  lemma {:induction false} LandingSpends(p: Proxy, k: nat, c: nat)
    requires forall i: nat | 1 <= i <= k :: i in p.inFlight
    ensures var p' := Exec(p, Landing(k, c));
            && p'.gov.usage.Tokens() == p.gov.usage.Tokens() + k * c
            && forall i: nat | i > k && i in p.inFlight :: i in p'.inFlight
  {
    if k > 0 {
      LandingSpends(p, k - 1, c);
      OneMoreLanded(Exec(p, Landing(k - 1, c)), k, c);
      assert k * c == (k - 1) * c + c;
    }
  }

  lemma OneMoreLanded(p: Proxy, call: nat, c: nat)
    requires call in p.inFlight
    ensures var p' := Next(p, Record(call, c, 0, 0.0, 0));
            p'.gov.usage.Tokens() == p.gov.usage.Tokens() + c && p'.inFlight == p.inFlight - {call}
  {
  }

  /** The bound is tight: k calls of c tokens end at exactly B - 1 + k*c. */
  lemma OvershootIsReached(tokens: nat, k: nat, c: nat)
    requires tokens > 0
    ensures var p := Start(Budget(tokens, 0.0, 0, 0), Usage(tokens - 1, 0, 0.0, 0), 0);
            && Exec(p, Burst(k) + Landing(k, c)).gov.usage.Tokens() == tokens - 1 + k * c
            && |Exec(p, Burst(k)).inFlight| == k
  {
    var p := Start(Budget(tokens, 0.0, 0, 0), Usage(tokens - 1, 0, 0.0, 0), 0);
    BurstAdmitsAll(p, k);
    ExecConcat(p, Burst(k), Landing(k, c));
    LandingSpends(Exec(p, Burst(k)), k, c);
  }
}
