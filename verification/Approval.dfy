/** Which tool calls need a human. */
module ApprovalPolicy {

  /** path.Match, without its internals: whether a well-formed pattern matches a name. */
  type Glob = (string, string) -> bool

  datatype Rule = Rule(tool: string, sideEffect: string) {
    predicate Matches(tool: string, sideEffect: string, glob: Glob) {
      (this.tool != "" && this.tool == tool) || (this.sideEffect != "" && glob(this.sideEffect, sideEffect))
    }
  }

  datatype Policy = Policy(requireFor: seq<Rule>, defaultSafe: bool) {
    predicate Requires(tool: string, sideEffect: string, glob: Glob) {
      AnyMatches(requireFor, tool, sideEffect, glob) || (defaultSafe && sideEffect != "")
    }
  }

  predicate AnyMatches(rules: seq<Rule>, tool: string, sideEffect: string, glob: Glob) {
    rules != [] && (rules[0].Matches(tool, sideEffect, glob) || AnyMatches(rules[1..], tool, sideEffect, glob))
  }

  lemma {:induction false} AnyMatchesIff(rules: seq<Rule>, tool: string, sideEffect: string, glob: Glob)
    ensures AnyMatches(rules, tool, sideEffect, glob)
       <==> exists i :: 0 <= i < |rules| && rules[i].Matches(tool, sideEffect, glob)
  {
    if rules != [] {
      AnyMatchesIff(rules[1..], tool, sideEffect, glob);
      assert forall i | 0 < i < |rules| :: rules[i] == rules[1..][i - 1];
      if i :| 0 <= i < |rules| && rules[i].Matches(tool, sideEffect, glob) && i > 0 {
        assert rules[1..][i - 1].Matches(tool, sideEffect, glob);
      }
    }
  }

  /** A call needs a human exactly if a rule names its tool, or its side effect by a pattern, or it has a side effect and the policy is default-safe. */
  lemma RequiresExactly(p: Policy, tool: string, sideEffect: string, glob: Glob)
    ensures p.Requires(tool, sideEffect, glob)
       <==> || (exists i :: 0 <= i < |p.requireFor| && (
                   || (p.requireFor[i].tool != "" && p.requireFor[i].tool == tool)
                   || (p.requireFor[i].sideEffect != "" && glob(p.requireFor[i].sideEffect, sideEffect))))
            || (p.defaultSafe && sideEffect != "")
  {
    AnyMatchesIff(p.requireFor, tool, sideEffect, glob);
    if i :| 0 <= i < |p.requireFor| && (
              || (p.requireFor[i].tool != "" && p.requireFor[i].tool == tool)
              || (p.requireFor[i].sideEffect != "" && glob(p.requireFor[i].sideEffect, sideEffect)))
    {
      assert p.requireFor[i].Matches(tool, sideEffect, glob);
    }
  }

  /** Adding rules, wherever they go, never frees a call that needed approval. */
  lemma MoreRulesMoreApprovals(p: Policy, q: Policy, tool: string, sideEffect: string, glob: Glob)
    requires p.defaultSafe ==> q.defaultSafe
    requires forall i | 0 <= i < |p.requireFor| :: exists j :: 0 <= j < |q.requireFor| && q.requireFor[j] == p.requireFor[i]
    requires p.Requires(tool, sideEffect, glob)
    ensures q.Requires(tool, sideEffect, glob)
  {
    AnyMatchesIff(p.requireFor, tool, sideEffect, glob);
    AnyMatchesIff(q.requireFor, tool, sideEffect, glob);
  }
}

/**
 The human-in-the-loop gate as a protocol: any number of blocked requests and of resolvers,
 each taking its atomic steps in any order. A request writes its row, registers its one-slot
 channel, waits, and unregisters; a resolver compares-and-sets the row, looks the waiter up
 and sends.
 */
module ApprovalProtocol {
  import opened Prelude

  datatype Decision = Decision(approved: bool, reason: Token, decidedBy: Token)

  /** The status column with its reason and decider. */
  datatype Ruling = Pending | Ruled(decision: Decision)

  /** What the goroutines share: approval rows, the channels' slots, and the waiters map. */
  datatype Shared = Shared(rows: map<nat, Ruling>, slots: map<nat, Option<Decision>>, waiters: set<nat>)

  datatype Outcome = Decided(decision: Decision) | ContextEnded

  datatype Phase = Unregistered | Waiting | Leaving(outcome: Outcome) | Done(outcome: Outcome)

  datatype Requester = Requester(required: bool, phase: Phase)

  datatype Stage = Started | Rejected | Committed | Found | Missed | Sent

  datatype Resolver = Resolver(id: nat, decision: Decision, stage: Stage)

  /** `winner` remembers which resolver's compare-and-set took each row; no step reads it. */
  datatype World = World(
    stored: bool, shared: Shared, requests: map<nat, Requester>, resolvers: map<nat, Resolver>,
    ended: set<nat>, winner: map<nat, nat>)

  function Fresh(stored: bool): World {
    World(stored, Shared(map[], map[], {}), map[], map[], {}, map[])
  }

  // ----- the atomic steps on the shared state -----

  function RowCreated(s: Shared, id: nat): Shared {
    s.(rows := s.rows[id := Pending])
  }

  function Registered(s: Shared, id: nat): Shared {
    s.(slots := s.slots[id := None], waiters := s.waiters + {id})
  }

  function Withdrawn(s: Shared, id: nat): Shared {
    s.(waiters := s.waiters - {id})
  }

  /** The update applies only while the row is pending. */
  predicate Resolvable(s: Shared, id: nat) {
    id in s.rows && s.rows[id] == Pending
  }

  function RowRuled(s: Shared, id: nat, d: Decision): Shared {
    if Resolvable(s, id) then s.(rows := s.rows[id := Ruled(d)]) else s
  }

  function Posted(s: Shared, id: nat, d: Decision): Shared {
    s.(slots := s.slots[id := Some(d)])
  }

  function Taken(s: Shared, id: nat): Shared {
    s.(slots := s.slots[id := None])
  }

  // ----- the protocol -----

  datatype Action =
    | Ask(id: nat, required: bool)
    | Register(id: nat)
    | Receive(id: nat)
    | EndContext(id: nat)
    | GiveUp(id: nat)
    | Unregister(id: nat)
    | Create(id: nat)
    | Arrive(r: nat, id: nat, decision: Decision)
    | CompareAndSet(r: nat)
    | Lookup(r: nat)
    | Send(r: nat)

  predicate InPhase(w: World, id: nat, phase: Phase) {
    id in w.requests && w.requests[id].phase == phase
  }

  predicate InStage(w: World, r: nat, stage: Stage) {
    r in w.resolvers && w.resolvers[r].stage == stage
  }

  /** Ids are minted, so never reused. Receiving needs a full slot, sending an empty one. */
  predicate Enabled(w: World, a: Action) {
    match a
    case Ask(id, _) => id !in w.requests && id !in w.shared.rows
    case Create(id) => id !in w.requests && id !in w.shared.rows
    case Register(id) => InPhase(w, id, Unregistered)
    case Receive(id) => InPhase(w, id, Waiting) && id in w.shared.slots && w.shared.slots[id].Some?
    case EndContext(id) => true
    case GiveUp(id) => InPhase(w, id, Waiting) && id in w.ended
    case Unregister(id) => id in w.requests && w.requests[id].phase.Leaving?
    case Arrive(r, _, _) => r !in w.resolvers
    case CompareAndSet(r) => InStage(w, r, Started)
    case Lookup(r) => InStage(w, r, Committed)
    case Send(r) =>
      InStage(w, r, Found) && w.resolvers[r].id in w.shared.slots && w.shared.slots[w.resolvers[r].id].None?
  }

  function Moved(w: World, id: nat, phase: Phase): map<nat, Requester>
    requires id in w.requests
  {
    w.requests[id := w.requests[id].(phase := phase)]
  }

  function Advanced(w: World, r: nat, stage: Stage): map<nat, Resolver>
    requires r in w.resolvers
  {
    w.resolvers[r := w.resolvers[r].(stage := stage)]
  }

  function Next(w: World, a: Action): World {
    if !Enabled(w, a) then w
    else match a
      case Ask(id, required) =>
        if !required
        then w.(requests := w.requests[id := Requester(false, Done(Decided(Decision(true, NO_TEXT, NO_TEXT))))])
        else w.(requests := w.requests[id := Requester(true, Unregistered)],
                shared := if w.stored then RowCreated(w.shared, id) else w.shared)
      case Create(id) => w.(shared := if w.stored then RowCreated(w.shared, id) else w.shared)
      case Register(id) => w.(shared := Registered(w.shared, id), requests := Moved(w, id, Waiting))
      case Receive(id) =>
        w.(shared := Taken(w.shared, id), requests := Moved(w, id, Leaving(Decided(w.shared.slots[id].value))))
      case EndContext(id) => w.(ended := w.ended + {id})
      case GiveUp(id) => w.(requests := Moved(w, id, Leaving(ContextEnded)))
      case Unregister(id) =>
        w.(shared := Withdrawn(w.shared, id), requests := Moved(w, id, Done(w.requests[id].phase.outcome)))
      case Arrive(r, id, decision) => w.(resolvers := w.resolvers[r := Resolver(id, decision, Started)])
      case CompareAndSet(r) =>
        var id := w.resolvers[r].id;
        if !w.stored then w.(resolvers := Advanced(w, r, Committed))
        else if Resolvable(w.shared, id)
        then w.(shared := RowRuled(w.shared, id, w.resolvers[r].decision), resolvers := Advanced(w, r, Committed),
                winner := w.winner[id := r])
        else w.(resolvers := Advanced(w, r, Rejected))
      case Lookup(r) =>
        w.(resolvers := Advanced(w, r, if w.resolvers[r].id in w.shared.waiters then Found else Missed))
      case Send(r) =>
        w.(shared := Posted(w.shared, w.resolvers[r].id, w.resolvers[r].decision), resolvers := Advanced(w, r, Sent))
  }

  function Exec(w: World, acts: seq<Action>): World {
    if acts == [] then w else Next(Exec(w, acts[..|acts| - 1]), acts[|acts| - 1])
  }

  // ----- the invariant, with a store -----

  predicate Left(w: World, id: nat, o: Outcome) {
    InPhase(w, id, Leaving(o)) || InPhase(w, id, Done(o))
  }

  /** No decision has reached the request, and none is in its slot. */
  predicate Undelivered(w: World, id: nat) {
    id in w.requests && w.requests[id].required ==>
      || InPhase(w, id, Unregistered)
      || (InPhase(w, id, Waiting) && id in w.shared.slots && w.shared.slots[id].None?)
      || (Left(w, id, ContextEnded) && id in w.shared.slots && w.shared.slots[id].None?)
  }

  /** The decision is in the slot of a waiting request, or it was received, or the context ended first. */
  predicate Delivered(w: World, id: nat, d: Decision) {
    && id in w.requests && w.requests[id].required
    && (|| (InPhase(w, id, Waiting) && id in w.shared.slots && w.shared.slots[id] == Some(d))
        || Left(w, id, Decided(d))
        || Left(w, id, ContextEnded))
  }

  predicate RequestOk(w: World, id: nat) {
    && (id in w.shared.slots || id in w.shared.waiters ==> id in w.requests && w.requests[id].required)
    && (id in w.requests ==>
          var q := w.requests[id];
          && (!q.required ==> q.phase == Done(Decided(Decision(true, NO_TEXT, NO_TEXT))) && id !in w.shared.rows)
          && (q.required ==> id in w.shared.rows)
          && (q.required && q.phase.Unregistered? ==> id !in w.shared.slots && id !in w.shared.waiters)
          && (q.required && !q.phase.Unregistered? ==> id in w.shared.slots)
          && (q.phase.Waiting? || q.phase.Leaving? ==> id in w.shared.waiters)
          && (q.phase.Done? ==> id !in w.shared.waiters)
          && (Left(w, id, ContextEnded) ==> id in w.ended)
          && (q.required && (q.phase.Leaving? || q.phase.Done?) && q.phase.outcome.Decided?
              ==> w.shared.rows[id] == Ruled(q.phase.outcome.decision)))
  }

  predicate Won(stage: Stage) {
    stage == Committed || stage == Found || stage == Missed || stage == Sent
  }

  predicate ResolverOk(w: World, r: nat) {
    r in w.resolvers ==>
      var v := w.resolvers[r];
      && (Won(v.stage) ==>
            && v.id in w.winner && w.winner[v.id] == r
            && v.id in w.shared.rows && w.shared.rows[v.id] == Ruled(v.decision))
      && (v.stage == Committed || v.stage == Found || v.stage == Missed ==> Undelivered(w, v.id))
      && (v.stage == Found ==> v.id in w.shared.slots)
      && (v.stage == Sent ==> Delivered(w, v.id, v.decision))
  }

  /** A pending row is nobody's, and nothing has been delivered on it. */
  predicate RowOk(w: World, id: nat) {
    && (id in w.winner ==> id in w.shared.rows)
    && (Resolvable(w.shared, id) ==> id !in w.winner && Undelivered(w, id))
  }

  /** A decision in a slot is the one in the row. */
  predicate SlotOk(w: World, id: nat) {
    id in w.shared.slots && w.shared.slots[id].Some? ==>
      id in w.shared.rows && w.shared.rows[id] == Ruled(w.shared.slots[id].value)
  }

  ghost predicate Inv(w: World) {
    && w.stored
    && (forall id: nat :: RequestOk(w, id) && RowOk(w, id) && SlotOk(w, id))
    && (forall r: nat :: ResolverOk(w, r))
  }

  // ----- every step keeps it -----

  /** Steps of a request keep everything about its own id; nothing else is touched. */
  lemma RequestStepKeeps(w: World, a: Action, k: nat)
    requires Inv(w) && Enabled(w, a)
    requires a.Ask? || a.Register? || a.Receive? || a.EndContext? || a.GiveUp? || a.Unregister? || a.Create?
    ensures var w' := Next(w, a); RequestOk(w', k) && RowOk(w', k) && SlotOk(w', k)
  {
    assert RequestOk(w, k) && RowOk(w, k) && SlotOk(w, k);
  }

  lemma RequestStepKeepsResolver(w: World, a: Action, r: nat)
    requires Inv(w) && Enabled(w, a)
    requires a.Ask? || a.Register? || a.Receive? || a.EndContext? || a.GiveUp? || a.Unregister? || a.Create?
    ensures ResolverOk(Next(w, a), r)
  {
    assert ResolverOk(w, r);
    if r in w.resolvers {
      var id := w.resolvers[r].id;
      assert RequestOk(w, id) && RowOk(w, id) && SlotOk(w, id);
    }
  }

  lemma ResolveStepKeeps(w: World, a: Action, k: nat)
    requires Inv(w) && Enabled(w, a) && (a.Arrive? || a.CompareAndSet? || a.Lookup? || a.Send?)
    ensures var w' := Next(w, a); RequestOk(w', k) && RowOk(w', k) && SlotOk(w', k)
  {
    assert RequestOk(w, k) && RowOk(w, k) && SlotOk(w, k) && ResolverOk(w, a.r);
  }

  lemma ResolveStepKeepsResolver(w: World, a: Action, r: nat)
    requires Inv(w) && Enabled(w, a) && (a.Arrive? || a.CompareAndSet? || a.Lookup? || a.Send?)
    ensures ResolverOk(Next(w, a), r)
  {
    assert ResolverOk(w, r) && ResolverOk(w, a.r);
    if r in w.resolvers {
      var id := w.resolvers[r].id;
      assert RequestOk(w, id) && RowOk(w, id) && SlotOk(w, id);
    }
    if a.r in w.resolvers {
      var id := w.resolvers[a.r].id;
      assert RequestOk(w, id) && RowOk(w, id) && SlotOk(w, id);
    }
  }

  lemma StepKeeps(w: World, a: Action)
    requires Inv(w)
    ensures Inv(Next(w, a))
  {
    if Enabled(w, a) {
      if a.Arrive? || a.CompareAndSet? || a.Lookup? || a.Send? {
        forall k: nat { ResolveStepKeeps(w, a, k); }
        forall r: nat { ResolveStepKeepsResolver(w, a, r); }
      } else {
        forall k: nat { RequestStepKeeps(w, a, k); }
        forall r: nat { RequestStepKeepsResolver(w, a, r); }
      }
    }
  }

  lemma {:induction false} Reachable(acts: seq<Action>)
    ensures Inv(Exec(Fresh(true), acts))
  {
    if acts != [] {
      Reachable(acts[..|acts| - 1]);
      StepKeeps(Exec(Fresh(true), acts[..|acts| - 1]), acts[|acts| - 1]);
    }
  }

  // ----- the results -----

  /** At most one resolve of an approval succeeds. */
  lemma OneResolveWins(acts: seq<Action>, r1: nat, r2: nat)
    requires var w := Exec(Fresh(true), acts);
             && r1 in w.resolvers && r2 in w.resolvers && w.resolvers[r1].id == w.resolvers[r2].id
             && Won(w.resolvers[r1].stage) && Won(w.resolvers[r2].stage)
    ensures r1 == r2
  {
    Reachable(acts);
    assert ResolverOk(Exec(Fresh(true), acts), r1) && ResolverOk(Exec(Fresh(true), acts), r2);
  }

  /** A resolver that found the waiter can always send: the slot is there and empty. */
  lemma SendNeverBlocks(acts: seq<Action>, r: nat)
    requires InStage(Exec(Fresh(true), acts), r, Found)
    ensures Enabled(Exec(Fresh(true), acts), Send(r))
  {
    Reachable(acts);
    var w := Exec(Fresh(true), acts);
    assert ResolverOk(w, r) && RequestOk(w, w.resolvers[r].id);
  }

  /** Steps never undo a ruling, a request's outcome, a resolver's target, or whether approval was required. */
  lemma StepIsFinal(w: World, a: Action, id: nat, r: nat)
    requires Inv(w)
    ensures var w' := Next(w, a);
            && (id in w.shared.rows && w.shared.rows[id].Ruled? ==> id in w'.shared.rows && w'.shared.rows[id] == w.shared.rows[id])
            && (id in w.requests ==> id in w'.requests && w'.requests[id].required == w.requests[id].required)
            && (forall o: Outcome :: Left(w, id, o) ==> Left(w', id, o))
            && (r in w.resolvers ==> r in w'.resolvers && w'.resolvers[r].id == w.resolvers[r].id
                                     && w'.resolvers[r].decision == w.resolvers[r].decision)
            && (InStage(w, r, Missed) ==> InStage(w', r, Missed))
            && (InStage(w, r, Sent) ==> InStage(w', r, Sent))
  {
    assert RequestOk(w, id);
  }

  lemma {:induction false} StaysFinal(before: seq<Action>, after: seq<Action>, id: nat, r: nat)
    ensures var w, w' := Exec(Fresh(true), before), Exec(Fresh(true), before + after);
            && (id in w.shared.rows && w.shared.rows[id].Ruled? ==> id in w'.shared.rows && w'.shared.rows[id] == w.shared.rows[id])
            && (id in w.requests ==> id in w'.requests && w'.requests[id].required == w.requests[id].required)
            && (forall o: Outcome :: Left(w, id, o) ==> Left(w', id, o))
            && (r in w.resolvers ==> r in w'.resolvers && w'.resolvers[r].id == w.resolvers[r].id
                                     && w'.resolvers[r].decision == w.resolvers[r].decision)
            && (InStage(w, r, Missed) ==> InStage(w', r, Missed))
            && (InStage(w, r, Sent) ==> InStage(w', r, Sent))
  {
    var all := before + after;
    if after == [] {
      assert all == before;
    } else {
      assert all[..|all| - 1] == before + after[..|after| - 1];
      StaysFinal(before, after[..|after| - 1], id, r);
      Reachable(all[..|all| - 1]);
      StepIsFinal(Exec(Fresh(true), all[..|all| - 1]), all[|all| - 1], id, r);
    }
  }

  /**
   A request that came back with a decision was either not subject to approval, or its row
   carries that very decision, reason and decider, then and ever after.
   */
  lemma ApprovedMeansAllowed(before: seq<Action>, after: seq<Action>, id: nat, d: Decision)
    requires Left(Exec(Fresh(true), before), id, Decided(d))
    ensures var w, w' := Exec(Fresh(true), before), Exec(Fresh(true), before + after);
            && Left(w', id, Decided(d)) && w'.requests[id].required == w.requests[id].required
            && (if w.requests[id].required then id in w'.shared.rows && w'.shared.rows[id] == Ruled(d)
                else d.approved && id !in w'.shared.rows)
  {
    Reachable(before);
    Reachable(before + after);
    StaysFinal(before, after, id, 0);
    assert RequestOk(Exec(Fresh(true), before), id) && RequestOk(Exec(Fresh(true), before + after), id);
  }

  /**
   A decision whose lookup found the waiter reaches that request, unless its context ended:
   while the request waits the decision is in its slot, ready to be received.
   */
  lemma FoundIsDelivered(before: seq<Action>, after: seq<Action>, r: nat)
    requires InStage(Exec(Fresh(true), before), r, Sent)
    ensures var v, w' := Exec(Fresh(true), before).resolvers[r], Exec(Fresh(true), before + after);
            && v.id in w'.requests
            && (|| (Enabled(w', Receive(v.id)) && Left(Next(w', Receive(v.id)), v.id, Decided(v.decision)))
                || Left(w', v.id, Decided(v.decision))
                || (Left(w', v.id, ContextEnded) && v.id in w'.ended))
  {
    StaysFinal(before, after, 0, r);
    Reachable(before + after);
    var w' := Exec(Fresh(true), before + after);
    assert ResolverOk(w', r) && RequestOk(w', w'.resolvers[r].id);
  }

  /**
   A decision whose lookup ran before the request registered is not delivered, ever: the
   request can only come back because its context ended, so it fails closed.
   */
  lemma MissedFailsClosed(before: seq<Action>, after: seq<Action>, r: nat, o: Outcome)
    requires InStage(Exec(Fresh(true), before), r, Missed)
    requires var v, w' := Exec(Fresh(true), before).resolvers[r], Exec(Fresh(true), before + after);
             v.id in w'.requests && w'.requests[v.id].required && Left(w', v.id, o)
    ensures var v, w' := Exec(Fresh(true), before).resolvers[r], Exec(Fresh(true), before + after);
            o == ContextEnded && v.id in w'.ended && v.id in w'.shared.rows && w'.shared.rows[v.id] == Ruled(v.decision)
  {
    StaysFinal(before, after, 0, r);
    Reachable(before + after);
    var w' := Exec(Fresh(true), before + after);
    assert ResolverOk(w', r) && RequestOk(w', w'.resolvers[r].id);
  }

  lemma ExecOne(w: World, acts: seq<Action>, i: nat)
    requires i < |acts|
    ensures Exec(w, acts[..i + 1]) == Next(Exec(w, acts[..i]), acts[i])
  {
    assert acts[..i + 1][..i] == acts[..i];
  }

  /** Two decisions on one waiting request, without a store: both find it, and the second send blocks. */
  lemma SecondSendBlocks(w: World, id: nat, r1: nat, r2: nat)
    requires !w.stored && r1 != r2 && InStage(w, r1, Started) && InStage(w, r2, Started)
    requires w.resolvers[r1].id == w.resolvers[r2].id == id
    requires id in w.shared.waiters && id in w.shared.slots && w.shared.slots[id].None?
    ensures var w' := Exec(w, [CompareAndSet(r1), CompareAndSet(r2), Lookup(r1), Lookup(r2), Send(r1)]);
            InStage(w', r2, Found) && !Enabled(w', Send(r2))
  {
    var acts := [CompareAndSet(r1), CompareAndSet(r2), Lookup(r1), Lookup(r2), Send(r1)];
    var w1 := w.(resolvers := Advanced(w, r1, Committed));
    var w2 := w1.(resolvers := Advanced(w1, r2, Committed));
    var w3 := w2.(resolvers := Advanced(w2, r1, Found));
    var w4 := w3.(resolvers := Advanced(w3, r2, Found));
    ExecOne(w, acts, 0);
    assert Exec(w, acts[..1]) == w1;
    ExecOne(w, acts, 1);
    assert Exec(w, acts[..2]) == w2;
    ExecOne(w, acts, 2);
    assert Exec(w, acts[..3]) == w3;
    ExecOne(w, acts, 3);
    assert Exec(w, acts[..4]) == w4;
    ExecOne(w, acts, 4);
    assert acts[..5] == acts;
  }

  lemma {:induction false} ExecConcat(w: World, a: seq<Action>, b: seq<Action>)
    ensures Exec(w, a + b) == Exec(Exec(w, a), b)
  {
    if b == [] {
      assert a + b == a;
    } else {
      assert (a + b)[..|a + b| - 1] == a + b[..|b| - 1];
      ExecConcat(w, a, b[..|b| - 1]);
    }
  }

  lemma FourSteps(w: World, a: Action, b: Action, c: Action, d: Action)
    ensures Exec(w, [a, b, c, d]) == Next(Next(Next(Next(w, a), b), c), d)
  {
    assert [a, b, c, d][..3] == [a, b, c] && [a, b, c][..2] == [a, b] && [a, b][..1] == [a] && [a][..0] == [];
    assert Exec(w, [a]) == Next(w, a);
    assert Exec(w, [a, b]) == Next(Next(w, a), b);
    assert Exec(w, [a, b, c]) == Next(Next(Next(w, a), b), c);
  }

  /** Without a store nothing arbitrates: one request and two decisions are enough for a send that blocks. */
  lemma WithoutStoreSendCanBlock(d: Decision)
    ensures var w := Exec(Fresh(false), [Ask(1, true), Register(1), Arrive(1, 1, d), Arrive(2, 1, d)]
                                        + [CompareAndSet(1), CompareAndSet(2), Lookup(1), Lookup(2), Send(1)]);
            InStage(w, 2, Found) && !Enabled(w, Send(2))
  {
    var asked := [Ask(1, true), Register(1), Arrive(1, 1, d), Arrive(2, 1, d)];
    FourSteps(Fresh(false), asked[0], asked[1], asked[2], asked[3]);
    var w1 := Next(Next(Fresh(false), asked[0]), asked[1]);
    assert w1.shared == Shared(map[], map[1 := None], {1}) && w1.resolvers == map[] && !w1.stored;
    ExecConcat(Fresh(false), asked, [CompareAndSet(1), CompareAndSet(2), Lookup(1), Lookup(2), Send(1)]);
    SecondSendBlocks(Exec(Fresh(false), asked), 1, 1, 2);
  }

  /** With or without a store: a full slot holds the decision of a resolver that sent it, and a registered id has a slot. */
  ghost predicate SlotsTold(w: World) {
    && (forall id: nat | id in w.shared.slots && w.shared.slots[id].Some? :: SentBySomeone(w, id, w.shared.slots[id].value))
    && (forall id: nat | id in w.shared.waiters :: id in w.shared.slots)
    && (forall r: nat | InStage(w, r, Found) :: w.resolvers[r].id in w.shared.slots)
  }

  ghost predicate SentBySomeone(w: World, id: nat, d: Decision) {
    exists r: nat :: InStage(w, r, Sent) && w.resolvers[r].id == id && w.resolvers[r].decision == d
  }

  lemma SentStays(w: World, a: Action, id: nat, d: Decision)
    requires SentBySomeone(w, id, d)
    ensures SentBySomeone(Next(w, a), id, d)
  {
    var r: nat :| InStage(w, r, Sent) && w.resolvers[r].id == id && w.resolvers[r].decision == d;
    assert InStage(Next(w, a), r, Sent);
  }

  lemma StepKeepsSlotsTold(w: World, a: Action)
    requires SlotsTold(w)
    ensures SlotsTold(Next(w, a))
  {
    var w' := Next(w, a);
    forall id: nat | id in w'.shared.slots && w'.shared.slots[id].Some?
      ensures SentBySomeone(w', id, w'.shared.slots[id].value)
    {
      if id in w.shared.slots && w.shared.slots[id] == w'.shared.slots[id] {
        SentStays(w, a, id, w.shared.slots[id].value);
      } else {
        assert InStage(w', a.r, Sent);
      }
    }
  }

  lemma {:induction false} SlotsAlwaysTold(stored: bool, acts: seq<Action>)
    ensures SlotsTold(Exec(Fresh(stored), acts)) && Exec(Fresh(stored), acts).stored == stored
  {
    if acts != [] {
      SlotsAlwaysTold(stored, acts[..|acts| - 1]);
      StepKeepsSlotsTold(Exec(Fresh(stored), acts[..|acts| - 1]), acts[|acts| - 1]);
    }
  }

  /** A resolver that found its waiter blocks exactly while another resolver's decision lies unreceived in the slot; never with a store. */
  lemma SendBlocksIff(stored: bool, acts: seq<Action>, r: nat)
    requires InStage(Exec(Fresh(stored), acts), r, Found)
    ensures var w := Exec(Fresh(stored), acts);
            var id := w.resolvers[r].id;
            && id in w.shared.slots
            && (!Enabled(w, Send(r)) <==> exists q: nat :: InStage(w, q, Sent) && w.resolvers[q].id == id
                                                         && w.shared.slots[id] == Some(w.resolvers[q].decision))
            && (stored ==> Enabled(w, Send(r)))
  {
    SlotsAlwaysTold(stored, acts);
    if stored {
      SendNeverBlocks(acts, r);
    }
    var w := Exec(Fresh(stored), acts);
    var id := w.resolvers[r].id;
    if w.shared.slots[id].Some? {
      assert SentBySomeone(w, id, w.shared.slots[id].value);
    }
  }

  /** The early lookup happens: the decision is in the row, and the request that has yet to register will not get it. */
  lemma AnEarlyLookupMisses(d: Decision)
    ensures var w := Exec(Fresh(true), [Ask(1, true), Arrive(1, 1, d), CompareAndSet(1), Lookup(1)]);
            && InStage(w, 1, Missed) && InPhase(w, 1, Unregistered) && w.requests[1].required
            && 1 in w.shared.rows && w.shared.rows[1] == Ruled(d)
  {
    FourSteps(Fresh(true), Ask(1, true), Arrive(1, 1, d), CompareAndSet(1), Lookup(1));
    var w1 := Next(Fresh(true), Ask(1, true));
    assert w1.shared == Shared(map[1 := Pending], map[], {}) && w1.requests == map[1 := Requester(true, Unregistered)];
    var w2 := Next(w1, Arrive(1, 1, d));
    assert w2.shared == w1.shared && w2.resolvers == map[1 := Resolver(1, d, Started)];
    var w3 := Next(w2, CompareAndSet(1));
    assert InStage(w3, 1, Committed) && w3.shared.rows[1] == Ruled(d) && w3.shared.waiters == {};
  }
}

/**
 The gate object. A blocked request is cut where its goroutine blocks: Open runs up to the
 select, Take and Leave are what follows it. Each method is the protocol's steps in sequence.
 */
module ApprovalGate {
  import opened Prelude
  import opened ApprovalPolicy
  import opened ApprovalProtocol
  import opened ToolCalls

  function RulingOf(rec: ApprovalRecord): Ruling {
    if rec.status == StatusPending then Pending
    else Ruled(Decision(rec.status == StatusApproved, rec.reason, rec.decidedBy))
  }

  function Rulings(records: map<nat, ApprovalRecord>): map<nat, Ruling> {
    map id | id in records :: RulingOf(records[id])
  }

  /** The approvals table. */
  class Approvals {
    var records: map<nat, ApprovalRecord>

    constructor ()
      ensures records == map[]
    {
      records := map[];
    }

    method CreateApproval(id: nat, rec: ApprovalRecord)
      requires id !in records
      modifies this
      ensures records == old(records)[id := rec]
    {
      records := records[id := rec];
    }

    /** Updates only a pending row; false (not found) otherwise, and then nothing changes. */
    method ResolveApproval(id: nat, status: ApprovalStatus, reason: Token, decidedBy: Token, now: Instant) returns (ok: bool)
      requires status != StatusPending
      modifies this
      ensures ok <==> id in old(records) && old(records)[id].status == StatusPending
      ensures !ok ==> records == old(records)
      ensures ok ==> records == old(records)[id := old(records)[id].(
                       status := status, reason := reason, decidedBy := decidedBy, decidedAt := Some(now))]
    {
      ok := id in records && records[id].status == StatusPending;
      if ok {
        records := records[id := records[id].(status := status, reason := reason, decidedBy := decidedBy,
                                              decidedAt := Some(now))];
      }
    }
  }

  /** A channel with room for one decision. */
  class Channel {
    var slot: Option<Decision>
    ghost const owner: nat

    constructor (ghost owner: nat)
      ensures slot == None && this.owner == owner
    {
      slot := None;
      this.owner := owner;
    }
  }

  datatype Opened = Immediate(decision: Decision) | Waits(channel: Channel)

  datatype Resolution = Resolved | NotFound | Blocks

  class Gate {
    const store: Approvals?
    const policy: Policy
    const glob: Glob
    var waiters: map<nat, Channel>
    /** Every channel ever made: a resolver may still hold one whose request has left. */
    ghost var channels: map<nat, Channel>

    ghost predicate Valid()
      reads this, store, channels.Values
    {
      && (forall id | id in channels :: channels[id].owner == id)
      && (forall id | id in waiters :: id in channels && waiters[id] == channels[id])
      && (store != null ==> forall id | id in channels ::
            id in store.records && (channels[id].slot.Some? ==> RulingOf(store.records[id]) == Ruled(channels[id].slot.value)))
    }

    ghost function View(): Shared
      reads this, store, channels.Values
    {
      Shared(if store == null then map[] else Rulings(store.records),
             map id | id in channels :: channels[id].slot, waiters.Keys)
    }

    constructor (store: Approvals?, policy: Policy, glob: Glob)
      ensures Valid() && channels == map[] && waiters == map[]
      ensures this.store == store && this.policy == policy && this.glob == glob
    {
      this.store, this.policy, this.glob := store, policy, glob;
      waiters, channels := map[], map[];
    }

    predicate Required(call: ToolCall) {
      policy.Requires(call.tool, call.sideEffect, glob)
    }

    method WriteRow(call: ToolCall, id: nat, now: Instant)
      requires Valid() && id !in channels && (store != null ==> id !in store.records)
      modifies store
      ensures Valid() && View() == if store == null then old(View()) else RowCreated(old(View()), id)
      ensures store != null ==> store.records == old(store.records)[id := ApprovalRecord(call, StatusPending, NO_TEXT, NO_TEXT, now, None)]
    {
      if store != null {
        store.CreateApproval(id, ApprovalRecord(call, StatusPending, NO_TEXT, NO_TEXT, now, None));
        assert View().rows == old(View()).rows[id := Pending];
      }
    }

    method Register(id: nat) returns (ch: Channel)
      requires Valid() && id !in channels && (store != null ==> id in store.records)
      modifies this
      ensures Valid() && fresh(ch) && id in waiters && waiters[id] == ch && View() == Registered(old(View()), id)
    {
      ch := new Channel(id);
      waiters := waiters[id := ch];
      channels := channels[id := ch];
      assert View().slots == old(View()).slots[id := None];
    }

    /** RequestUnder up to its select. The id is freshly minted. */
    method Open(call: ToolCall, policy: Policy, id: nat, now: Instant) returns (r: Opened)
      requires Valid() && id !in channels && (store != null ==> id !in store.records)
      modifies this, store
      ensures Valid()
      ensures !policy.Requires(call.tool, call.sideEffect, glob) ==>
                r == Immediate(Decision(true, NO_TEXT, NO_TEXT)) && View() == old(View())
      ensures policy.Requires(call.tool, call.sideEffect, glob) ==>
                && r.Waits? && fresh(r.channel) && id in waiters && waiters[id] == r.channel
                && View() == Registered(if store == null then old(View()) else RowCreated(old(View()), id), id)
                && (store != null ==> store.records == old(store.records)[id := ApprovalRecord(call, StatusPending, NO_TEXT, NO_TEXT, now, None)])
    {
      if !policy.Requires(call.tool, call.sideEffect, glob) {
        return Immediate(Decision(true, NO_TEXT, NO_TEXT));
      }
      WriteRow(call, id, now);
      var ch := Register(id);
      r := Waits(ch);
    }

    /** The select receives. */
    method Take(id: nat) returns (d: Decision)
      requires Valid() && id in waiters && waiters[id].slot.Some?
      modifies waiters[id]
      ensures Valid() && View() == Taken(old(View()), id)
      ensures old(waiters[id].slot) == Some(d) && waiters[id].slot == None
    {
      d := waiters[id].slot.value;
      waiters[id].slot := None;
    }

    /** The deferred delete. */
    method Leave(id: nat)
      requires Valid()
      modifies this`waiters
      ensures Valid() && View() == Withdrawn(old(View()), id)
    {
      waiters := waiters - {id};
    }

    /** The non-blocking form: a pending row to be polled, or nothing if the policy allows the call. */
    method Create(call: ToolCall, id: nat, now: Instant) returns (required: bool)
      requires Valid() && id !in channels && (store != null ==> id !in store.records)
      modifies store
      ensures Valid() && required == Required(call)
      ensures View() == if required && store != null then RowCreated(old(View()), id) else old(View())
      ensures store != null ==>
                store.records == if required then old(store.records)[id := ApprovalRecord(call, StatusPending, NO_TEXT, NO_TEXT, now, None)]
                                 else old(store.records)
    {
      if !Required(call) {
        return false;
      }
      WriteRow(call, id, now);
      required := true;
    }

    /** The compare-and-set, when there is a store. */
    method Decide(id: nat, d: Decision, now: Instant) returns (ok: bool)
      requires Valid()
      modifies store
      ensures Valid() && ok == (store == null || Resolvable(old(View()), id))
      ensures View() == if store == null then old(View()) else RowRuled(old(View()), id, d)
      ensures store != null ==>
                store.records == if id in old(store.records) && old(store.records)[id].status == StatusPending
                                 then old(store.records)[id := old(store.records)[id].(
                                        status := if d.approved then StatusApproved else StatusDenied,
                                        reason := d.reason, decidedBy := d.decidedBy, decidedAt := Some(now))]
                                 else old(store.records)
    {
      ok := true;
      if store != null {
        var status := StatusApproved;
        if !d.approved {
          status := StatusDenied;
        }
        ok := store.ResolveApproval(id, status, d.reason, d.decidedBy, now);
        assert View().rows == if ok then old(View()).rows[id := Ruled(d)] else old(View()).rows;
      }
    }

    /** The send: false if the slot is full, which would block. */
    method Post(id: nat, d: Decision) returns (sent: bool)
      requires Valid() && id in waiters
      requires store != null ==> id in store.records && RulingOf(store.records[id]) == Ruled(d)
      modifies waiters[id]
      ensures Valid() && sent == old(View()).slots[id].None?
      ensures View() == if sent then Posted(old(View()), id, d) else old(View())
      ensures waiters[id].slot == if sent then Some(d) else old(waiters[id].slot)
    {
      if waiters[id].slot.Some? {
        return false;
      }
      waiters[id].slot := Some(d);
      sent := true;
      assert View().slots == old(View()).slots[id := Some(d)];
    }

    /**
     With a store the first decision on a pending row wins, reaches the waiter if there is
     one, and never blocks; any other is refused and changes nothing.
     */
    method Resolve(id: nat, approved: bool, reason: Token, decidedBy: Token, now: Instant) returns (res: Resolution)
      requires Valid()
      modifies store, if id in waiters then {waiters[id]} else {}
      ensures Valid()
      ensures var d := Decision(approved, reason, decidedBy);
              var s := if store == null then old(View()) else RowRuled(old(View()), id, d);
              && (store != null ==> (if Resolvable(old(View()), id) then res == Resolved else res == NotFound))
              && (store == null ==> res == if id in waiters && old(View()).slots[id].Some? then Blocks else Resolved)
              && View() == if res == Resolved && id in waiters then Posted(s, id, d) else s
      ensures store != null ==>
                store.records == if id in old(store.records) && old(store.records)[id].status == StatusPending
                                 then old(store.records)[id := old(store.records)[id].(
                                        status := if approved then StatusApproved else StatusDenied,
                                        reason := reason, decidedBy := decidedBy, decidedAt := Some(now))]
                                 else old(store.records)
      ensures id in waiters && res == Resolved ==> waiters[id].slot == Some(Decision(approved, reason, decidedBy))
      ensures id in waiters && res != Resolved ==> waiters[id].slot == old(waiters[id].slot)
    {
      var d := Decision(approved, reason, decidedBy);
      var ok := Decide(id, d, now);
      if !ok {
        return NotFound;
      }
      assert store != null ==> id in View().rows && View().rows[id] == Ruled(d);
      if id in waiters {
        var sent := Post(id, d);
        if !sent {
          return Blocks;
        }
      }
      res := Resolved;
    }
  }
}
