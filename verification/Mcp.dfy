/** The MCP gateway: which tools/call requests reach the upstream server, and what the audit trail says of them. */
module Mcp {
  import opened Prelude
  import opened Governor
  import opened ApprovalPolicy
  import opened ToolCalls
  import DryRun

  type Bundle = DryRun.Bundle

  /**
   What the human queue comes back with if it is asked. NoAnswer is the wait's own timeout or the
   client's disconnect: the wait hangs on the HTTP request, so killing the run does not end it.
   */
  datatype Human = HumanApproves | HumanDenies | NoAnswer

  /** The run's id and loop count, its halt, and its policy bundle if it has a known one. */
  datatype RunView = RunView(id: nat, loops: nat, halted: HaltReason, bundle: Option<Bundle>)

  datatype Request =
    | OtherMessage(body: Token)
    | ToolsCall(body: Token, tool: string, arguments: Token, run: RunView, human: Human, now: Instant)

  /** The daemon's own settings. */
  datatype Config = Config(allow: seq<string>, readonly: set<string>, policy: Policy, glob: Glob)

  // ----- the pure tests -----

  predicate AnyPattern(patterns: seq<string>, tool: string, glob: Glob) {
    patterns != [] && (patterns[0] == tool || glob(patterns[0], tool) || AnyPattern(patterns[1..], tool, glob))
  }

  predicate MatchAllow(allow: seq<string>, tool: string, glob: Glob) {
    allow == [] || AnyPattern(allow, tool, glob)
  }

  /** The bundle's allowlist when it has one, else the daemon's. */
  function EffectiveAllow(c: Config, bundle: Option<Bundle>): seq<string> {
    if bundle.Some? && bundle.value.toolAllowlist != [] then bundle.value.toolAllowlist else c.allow
  }

  predicate AllowedFor(c: Config, tool: string, bundle: Option<Bundle>) {
    MatchAllow(EffectiveAllow(c, bundle), tool, c.glob)
  }

  function SideEffect(c: Config, tool: string): string {
    if tool in c.readonly then "" else "tool"
  }

  /** The policy the gate evaluates. Default-safe stays on under a bundle. */
  function PolicyFor(c: Config, bundle: Option<Bundle>): Policy {
    if bundle.Some? then Policy(bundle.value.requireFor, true) else c.policy
  }

  /** A side effect, or a rule of the bundle, sends the call to the gate; the gate applies its policy. */
  predicate AsksHuman(c: Config, tool: string, bundle: Option<Bundle>) {
    var se := SideEffect(c, tool);
    (se != "" || bundle.Some?) && PolicyFor(c, bundle).Requires(tool, se, c.glob)
  }

  // ----- what is promised of one request, and of any sequence -----

  predicate Permitted(c: Config, req: Request)
    requires req.ToolsCall?
  {
    AllowedFor(c, req.tool, req.run.bundle) && (AsksHuman(c, req.tool, req.run.bundle) ==> req.human.HumanApproves?)
  }

  function StatusOf(c: Config, req: Request): ToolStatus
    requires req.ToolsCall?
  {
    if !AllowedFor(c, req.tool, req.run.bundle) then Blocked
    else if !AsksHuman(c, req.tool, req.run.bundle) then Approved
    else match req.human
      case HumanApproves => Approved
      case HumanDenies => Denied
      case NoAnswer => Timeout
  }

  function RecordOf(c: Config, req: Request): ToolCallRecord
    requires req.ToolsCall?
  {
    ToolCallRecord(ToolCall(req.run.id, req.run.loops, req.tool,
                            if AllowedFor(c, req.tool, req.run.bundle) then SideEffect(c, req.tool) else "",
                            req.arguments),
                   StatusOf(c, req), req.now)
  }

  /** The records a sequence of requests leaves, in order. */
  function Trail(c: Config, reqs: seq<Request>): seq<ToolCallRecord> {
    if reqs == [] then []
    else Trail(c, reqs[..|reqs| - 1])
         + if reqs[|reqs| - 1].ToolsCall? then [RecordOf(c, reqs[|reqs| - 1])] else []
  }

  /** A message sent upstream. */
  datatype Forwarded = Forwarded(body: Token, governed: bool)

  /** What a sequence of requests sends upstream, in order. */
  function Sent(c: Config, reqs: seq<Request>): seq<Forwarded> {
    if reqs == [] then []
    else Sent(c, reqs[..|reqs| - 1])
         + if reqs[|reqs| - 1].OtherMessage? || Permitted(c, reqs[|reqs| - 1])
           then [Forwarded(reqs[|reqs| - 1].body, reqs[|reqs| - 1].ToolsCall?)] else []
  }

  /** Copies the bundle's rules and keeps default-safe on. */
  method BundlePolicy(bundle: Bundle) returns (p: Policy)
    ensures p == Policy(bundle.requireFor, true)
  {
    var rules := [];
    for i := 0 to |bundle.requireFor|
      invariant rules == bundle.requireFor[..i]
    {
      rules := rules + [Rule(bundle.requireFor[i].tool, bundle.requireFor[i].sideEffect)];
    }
    p := Policy(rules, true);
  }

  class Gateway {
    const config: Config
    /** Whether there is a store to keep the audit trail in. */
    const stored: bool
    var trail: seq<ToolCallRecord>
    var sent: seq<Forwarded>

    constructor (config: Config, stored: bool)
      ensures this.config == config && this.stored == stored && trail == [] && sent == []
    {
      this.config, this.stored, trail, sent := config, stored, [], [];
    }

    method RecordToolCall(call: ToolCall, status: ToolStatus, now: Instant)
      modifies this`trail
      ensures trail == old(trail) + if stored then [ToolCallRecord(call, status, now)] else []
    {
      if stored {
        trail := trail + [ToolCallRecord(call, status, now)];
      }
    }

    method Forward(body: Token, governed: bool)
      modifies this`sent
      ensures sent == old(sent) + [Forwarded(body, governed)]
    {
      sent := sent + [Forwarded(body, governed)];
    }

    /** The gate: a call its policy does not require is approved at once, any other waits for the human. */
    method AskGate(policy: Policy, tool: string, sideEffect: string, human: Human) returns (answer: Human)
      ensures answer == if policy.Requires(tool, sideEffect, config.glob) then human else HumanApproves
    {
      if !policy.Requires(tool, sideEffect, config.glob) {
        return HumanApproves;
      }
      return human;
    }

    method Handle(req: Request) returns (status: Option<ToolStatus>)
      modifies this
      ensures req.OtherMessage? ==> status == None && trail == old(trail) && sent == old(sent) + [Forwarded(req.body, false)]
      ensures req.ToolsCall? ==>
                && status == Some(StatusOf(config, req))
                && trail == old(trail) + (if stored then [RecordOf(config, req)] else [])
                && sent == old(sent) + (if Permitted(config, req) then [Forwarded(req.body, true)] else [])
                && (sent == old(sent) <==> status != Some(Approved))
    {
      if req.OtherMessage? {
        Forward(req.body, false);
        return None;
      }
      var allowed := AllowedFor(config, req.tool, req.run.bundle);
      if !allowed {
        RecordToolCall(ToolCall(req.run.id, req.run.loops, req.tool, "", req.arguments), Blocked, req.now);
        return Some(Blocked);
      }
      var sideEffect := SideEffect(config, req.tool);
      var call := ToolCall(req.run.id, req.run.loops, req.tool, sideEffect, req.arguments);
      var needsApproval := sideEffect != "";
      var policy := config.policy;
      if req.run.bundle.Some? {
        policy := BundlePolicy(req.run.bundle.value);
        if policy.Requires(req.tool, sideEffect, config.glob) {
          needsApproval := true;
        }
      }
      if needsApproval {
        var answer := AskGate(policy, req.tool, sideEffect, req.human);
        if answer.NoAnswer? {
          RecordToolCall(call, Timeout, req.now);
          return Some(Timeout);
        }
        if answer.HumanDenies? {
          RecordToolCall(call, Denied, req.now);
          return Some(Denied);
        }
      }
      RecordToolCall(call, Approved, req.now);
      Forward(req.body, true);
      return Some(Approved);
    }
  }

  // ----- results -----

  /** The tools/call requests, in order. */
  function Governed(reqs: seq<Request>): seq<Request> {
    if reqs == [] then []
    else Governed(reqs[..|reqs| - 1]) + if reqs[|reqs| - 1].ToolsCall? then [reqs[|reqs| - 1]] else []
  }

  /** The governed messages that went upstream. */
  function GovernedBodies(sent: seq<Forwarded>): seq<Token> {
    if sent == [] then []
    else GovernedBodies(sent[..|sent| - 1]) + if sent[|sent| - 1].governed then [sent[|sent| - 1].body] else []
  }

  /** The calls whose record says approved. */
  function ApprovedBodies(calls: seq<Request>, trail: seq<ToolCallRecord>): seq<Token>
    requires |calls| == |trail|
  {
    if calls == [] then []
    else
      var n := |calls| - 1;
      ApprovedBodies(calls[..n], trail[..n]) + if trail[n].status == Approved then [calls[n].body] else []
  }

  /** The trail has one record per tools/call, in order, approved just when the call was permitted. */
  lemma {:induction false} OneRecordPerCall(c: Config, reqs: seq<Request>)
    ensures var calls, trail := Governed(reqs), Trail(c, reqs);
            && |trail| == |calls|
            && (forall i | 0 <= i < |calls| ::
                  && calls[i].ToolsCall? && trail[i].call.tool == calls[i].tool && trail[i].call.runId == calls[i].run.id
                  && (trail[i].status == Approved <==> Permitted(c, calls[i])))
  {
    if reqs != [] {
      OneRecordPerCall(c, reqs[..|reqs| - 1]);
    }
  }

  /** Audit and forwarding agree: the governed messages that went upstream are exactly the calls recorded as approved. */
  lemma {:induction false} TrailTellsForwards(c: Config, reqs: seq<Request>)
    ensures |Governed(reqs)| == |Trail(c, reqs)|
    ensures GovernedBodies(Sent(c, reqs)) == ApprovedBodies(Governed(reqs), Trail(c, reqs))
  {
    OneRecordPerCall(c, reqs);
    if reqs != [] {
      var before, r := reqs[..|reqs| - 1], reqs[|reqs| - 1];
      TrailTellsForwards(c, before);
      var sent, calls, trail := Sent(c, before), Governed(before), Trail(c, before);
      var f := Forwarded(r.body, r.ToolsCall?);
      assert (sent + [f])[..|sent|] == sent && sent + [] == sent;
      if r.ToolsCall? {
        assert (calls + [r])[..|calls|] == calls && (trail + [RecordOf(c, r)])[..|calls|] == trail;
      } else {
        assert calls + [] == calls && trail + [] == trail;
      }
    }
  }

  /** A run without a bundle, or whose bundle lists no tools, is held to the daemon's allowlist; any other to its bundle's alone. */
  lemma AllowlistExactly(c: Config, tool: string, bundle: Option<Bundle>, list: seq<string>)
    requires bundle.None? || bundle.value.toolAllowlist == [] ==> list == c.allow
    requires bundle.Some? && bundle.value.toolAllowlist != [] ==> list == bundle.value.toolAllowlist
    ensures AllowedFor(c, tool, bundle)
       <==> list == [] || tool in list || exists i :: 0 <= i < |list| && c.glob(list[i], tool)
  {
    AnyPatternIff(list, tool, c.glob);
  }

  /** Under a bundle every side effect and every call a rule names waits for a human; without one, the side effects the daemon's policy names. */
  lemma QueueExactly(c: Config, tool: string, bundle: Option<Bundle>)
    ensures bundle.Some? ==>
              var rules, se := bundle.value.requireFor, if tool in c.readonly then "" else "tool";
              (AsksHuman(c, tool, bundle) <==>
                 || tool !in c.readonly
                 || exists i :: 0 <= i < |rules| && (
                       || (rules[i].tool != "" && rules[i].tool == tool)
                       || (rules[i].sideEffect != "" && c.glob(rules[i].sideEffect, se))))
    ensures bundle.None? ==>
              var rules := c.policy.requireFor;
              (AsksHuman(c, tool, bundle) <==>
                 tool !in c.readonly && (
                   || c.policy.defaultSafe
                   || exists i :: 0 <= i < |rules| && (
                         || (rules[i].tool != "" && rules[i].tool == tool)
                         || (rules[i].sideEffect != "" && c.glob(rules[i].sideEffect, "tool")))))
  {
    RequiresExactly(PolicyFor(c, bundle), tool, SideEffect(c, tool), c.glob);
  }

  /**
   The one record of a call: not on the allowlist it is blocked; asked about, it has the human's
   answer, a timeout when none came; else it is approved. It carries the call's run, step, tool
   and arguments, and "tool" for the side effect unless the call was blocked or only reads.
   */
  lemma RecordExactly(c: Config, req: Request, list: seq<string>)
    requires req.ToolsCall?
    requires var b := req.run.bundle; list == if b.None? || b.value.toolAllowlist == [] then c.allow else b.value.toolAllowlist
    ensures var rec, asked := RecordOf(c, req), AsksHuman(c, req.tool, req.run.bundle);
            var allowed := list == [] || req.tool in list || exists i :: 0 <= i < |list| && c.glob(list[i], req.tool);
            && (rec.status == Blocked <==> !allowed)
            && (rec.status == Denied <==> allowed && asked && req.human == HumanDenies)
            && (rec.status == Timeout <==> allowed && asked && req.human == NoAnswer)
            && (rec.status == Approved <==> allowed && (asked ==> req.human == HumanApproves))
            && rec.call.runId == req.run.id && rec.call.stepIndex == req.run.loops && rec.createdAt == req.now
            && rec.call.tool == req.tool && rec.call.arguments == req.arguments
            && (rec.call.sideEffect == if allowed && req.tool !in c.readonly then "tool" else "")
  {
    AllowlistExactly(c, req.tool, req.run.bundle, list);
  }

  /** Under a bundle a side-effecting tool is never forwarded without a human's approval, whatever the rules say. */
  lemma BundleFailsClosed(c: Config, req: Request)
    requires req.ToolsCall? && req.run.bundle.Some? && req.tool !in c.readonly
    ensures AsksHuman(c, req.tool, req.run.bundle)
    ensures StatusOf(c, req) == Approved ==> req.human == HumanApproves && AllowedFor(c, req.tool, req.run.bundle)
  {
  }

  /** Without one it is forwarded unasked exactly when the daemon's own policy does not require approval. */
  lemma WithoutBundleThePolicyDecides(c: Config, req: Request)
    requires req.ToolsCall? && req.run.bundle.None? && req.tool !in c.readonly
    requires AllowedFor(c, req.tool, None) && req.human != HumanApproves
    ensures StatusOf(c, req) == Approved
       <==> !c.policy.defaultSafe && forall i | 0 <= i < |c.policy.requireFor| :: !c.policy.requireFor[i].Matches(req.tool, "tool", c.glob)
  {
    AnyMatchesIff(c.policy.requireFor, req.tool, "tool", c.glob);
  }

  /** A request of a run that is halted, for whatever reason, or of the same run still going. */
  function WithHalt(req: Request, reason: HaltReason): Request
    requires req.ToolsCall?
  {
    req.(run := req.run.(halted := reason))
  }

  /**
   The gateway never asks the governor: a halted run's call goes upstream, and is recorded, exactly
   when the running run's would be, that is when the allowlist and any approval let it.
   */
  lemma HaltedRunIsServedAlike(c: Config, req: Request, reason: HaltReason)
    requires req.ToolsCall?
    ensures RecordOf(c, WithHalt(req, reason)) == RecordOf(c, req)
    ensures Sent(c, [WithHalt(req, reason)]) == Sent(c, [req])
    ensures Sent(c, [WithHalt(req, reason)]) != [] <==>
              AllowedFor(c, req.tool, req.run.bundle) && (AsksHuman(c, req.tool, req.run.bundle) ==> req.human == HumanApproves)
  {
    assert [WithHalt(req, reason)][..0] == [] && [req][..0] == [];
  }

  lemma {:induction false} AnyPatternIff(patterns: seq<string>, tool: string, glob: Glob)
    ensures AnyPattern(patterns, tool, glob)
       <==> tool in patterns || exists i :: 0 <= i < |patterns| && glob(patterns[i], tool)
  {
    if patterns != [] {
      var rest := patterns[1..];
      AnyPatternIff(rest, tool, glob);
      assert forall i | 0 < i < |patterns| :: patterns[i] == rest[i - 1];
      if i :| 0 <= i < |patterns| && glob(patterns[i], tool) && i > 0 {
        assert glob(rest[i - 1], tool);
      }
      if tool in patterns && patterns[0] != tool {
        assert tool in rest;
      }
    }
  }

  /**
   The dry run's allowlist is not the gateway's: they block the same calls of a bundle except
   a tool let in only by a pattern, and except an empty list, where the daemon's own applies.
   */
  lemma DryRunBlocksLikeTheGateway(c: Config, tool: string, bundle: Bundle)
    ensures var live := AllowedFor(c, tool, Some(bundle));
            && (bundle.toolAllowlist != [] && bundle.Allows(tool) ==> live)
            && (bundle.Allows(tool) != live <==>
                  if bundle.toolAllowlist == [] then !MatchAllow(c.allow, tool, c.glob)
                  else tool !in bundle.toolAllowlist
                       && exists i :: 0 <= i < |bundle.toolAllowlist| && c.glob(bundle.toolAllowlist[i], tool))
  {
    AnyPatternIff(bundle.toolAllowlist, tool, c.glob);
  }

  /** The dry run counts only the calls a rule gates; the gateway gates those and every side effect besides. */
  lemma GatewayGatesMoreThanTheDryRun(c: Config, tool: string, bundle: Bundle)
    ensures AsksHuman(c, tool, Some(bundle))
       <==> bundle.RequiresApproval(tool, SideEffect(c, tool), c.glob) || tool !in c.readonly
  {
  }
}
