/** A provider's event stream, forwarded byte for byte while its usage is sniffed from the lines passing by. */
module Streaming {
  import opened Prelude
  import opened Storage

  type Byte = b: int | 0 <= b < 256

  const NEWLINE: Byte := 10

  datatype TokenUsage = TokenUsage(input: nat, output: nat)

  /** The two events that carry metering; `model` is NO_TEXT when absent. */
  datatype StreamEvent = MessageStart(model: Token, usage: Option<TokenUsage>) | MessageDelta(usage: Option<TokenUsage>)

  /** The event a JSON payload holds; None if it does not parse, is of another type, or lacks what it should carry. */
  type Json = seq<Byte> -> Option<StreamEvent>

  /** "data:" */
  const DATA_PREFIX: seq<Byte> := [100, 97, 116, 97, 58]

  /** The ASCII white space: tab to carriage return, and blank. */
  predicate IsSpace(b: Byte) {
    9 <= b <= 13 || b == 32
  }

  function TrimLeft(s: seq<Byte>): seq<Byte> {
    if s != [] && IsSpace(s[0]) then TrimLeft(s[1..]) else s
  }

  function TrimRight(s: seq<Byte>): seq<Byte> {
    if s != [] && IsSpace(s[|s| - 1]) then TrimRight(s[..|s| - 1]) else s
  }

  function TrimSpace(s: seq<Byte>): seq<Byte> {
    TrimLeft(TrimRight(s))
  }

  /** The event on a line: only a `data:` line with a payload has one. */
  function EventOn(line: seq<Byte>, json: Json): Option<StreamEvent> {
    var t := TrimSpace(line);
    if !(DATA_PREFIX <= t) then None
    else
      var payload := TrimSpace(t[|DATA_PREFIX|..]);
      if payload == [] then None else json(payload)
  }

  lemma SpaceAtTheEnd(line: seq<Byte>, b: Byte)
    requires IsSpace(b)
    ensures TrimRight(line + [b]) == TrimRight(line)
  {
    assert (line + [b])[..|line|] == line;
  }

  /** Line endings, of either kind, are no part of an event. */
  lemma LineEndingsDoNotMatter(line: seq<Byte>, json: Json)
    ensures EventOn(line + [NEWLINE], json) == EventOn(line, json)
    ensures EventOn(line + [13, NEWLINE], json) == EventOn(line, json)
  {
    SpaceAtTheEnd(line, NEWLINE);
    SpaceAtTheEnd(line, 13);
    SpaceAtTheEnd(line + [13], NEWLINE);
    assert line + [13] + [NEWLINE] == line + [13, NEWLINE];
  }

  datatype Meter = Meter(model: Token, prompt: nat, completion: nat)

  const NO_METER := Meter(NO_TEXT, 0, 0)

  function Sniffed(m: Meter, line: seq<Byte>, json: Json): Meter {
    match EventOn(line, json)
    case None => m
    case Some(MessageStart(model, usage)) =>
      var n := if model != NO_TEXT then m.(model := model) else m;
      if usage.Some? then n.(prompt := usage.value.input, completion := usage.value.output) else n
    case Some(MessageDelta(usage)) =>
      if usage.None? then m
      else
        var n := if usage.value.output > 0 then m.(completion := usage.value.output) else m;
        if usage.value.input > 0 then n.(prompt := usage.value.input) else n
  }

  function SniffAll(lines: seq<seq<Byte>>, json: Json): Meter {
    if lines == [] then NO_METER else Sniffed(SniffAll(lines[..|lines| - 1], json), lines[|lines| - 1], json)
  }

  function Joined(lines: seq<seq<Byte>>): seq<Byte> {
    if lines == [] then [] else Joined(lines[..|lines| - 1]) + lines[|lines| - 1]
  }

  datatype StreamError = EndOfStream | UpstreamError

  /** A line as ReadBytes cuts it: up to its first newline. */
  predicate WholeLine(line: seq<Byte>) {
    line != [] && line[|line| - 1] == NEWLINE && NEWLINE !in line[..|line| - 1]
  }

  /** `unread` is what the upstream still delivers before it ends, cleanly or not. */
  class AntStream {
    const json: Json
    const broken: bool
    var unread: seq<Byte>
    var meter: Meter

    constructor (json: Json, bytes: seq<Byte>, broken: bool)
      ensures this.json == json && unread == bytes && this.broken == broken && meter == NO_METER
    {
      this.json, this.broken, unread, meter := json, broken, bytes, NO_METER;
    }

    method Sniff(line: seq<Byte>)
      modifies this`meter
      ensures meter == Sniffed(old(meter), line, json)
    {
      match EventOn(line, json)
      case None =>
      case Some(MessageStart(model, usage)) =>
        if model != NO_TEXT {
          meter := meter.(model := model);
        }
        if usage.Some? {
          meter := meter.(prompt := usage.value.input);
          meter := meter.(completion := usage.value.output);
        }
      case Some(MessageDelta(usage)) =>
        if usage.Some? {
          if usage.value.output > 0 {
            meter := meter.(completion := usage.value.output);
          }
          if usage.value.input > 0 {
            meter := meter.(prompt := usage.value.input);
          }
        }
    }

    method Recv() returns (line: seq<Byte>, err: Option<StreamError>)
      modifies this
      ensures line + unread == old(unread)
      ensures meter == if line == [] then old(meter) else Sniffed(old(meter), line, json)
      ensures err.None? ==> WholeLine(line)
      ensures err.Some? ==> unread == [] && NEWLINE !in line && err.value == if broken then UpstreamError else EndOfStream
    {
      var k := 0;
      while k < |unread| && unread[k] != NEWLINE
        invariant 0 <= k <= |unread| && NEWLINE !in unread[..k]
      {
        k := k + 1;
      }
      if k < |unread| {
        line, err := unread[..k + 1], None;
        assert line[..|line| - 1] == unread[..k];
        unread := unread[k + 1..];
      } else {
        assert unread[..k] == unread;
        line, err := unread, Some(if broken then UpstreamError else EndOfStream);
        unread := [];
      }
      if |line| > 0 {
        Sniff(line);
      }
    }
  }

  /** The client side of the response: it disconnects once `limit` bytes went through, if ever. */
  class Client {
    const limit: Option<nat>
    var received: seq<Byte>

    constructor (limit: Option<nat>)
      ensures this.limit == limit && received == []
    {
      this.limit, received := limit, [];
    }

    method Write(chunk: seq<Byte>) returns (ok: bool)
      modifies this
      ensures received == Upto(old(received) + chunk, limit)
      ensures ok <==> received == old(received) + chunk
    {
      ok := limit.None? || |received + chunk| <= limit.value;
      received := Upto(received + chunk, limit);
    }
  }

  /** The bytes that fit. */
  function Upto(bytes: seq<Byte>, limit: Option<nat>): (sent: seq<Byte>)
    ensures sent <= bytes && (limit == None ==> sent == bytes)
  {
    if limit.Some? && limit.value < |bytes| then bytes[..limit.value] else bytes
  }

  lemma UptoPrefix(a: seq<Byte>, b: seq<Byte>, limit: Option<nat>)
    requires limit.Some? && limit.value < |a|
    ensures Upto(a + b, limit) == Upto(a, limit)
  {
  }

  /**
   The receive and write loop. The client gets the upstream's bytes verbatim, all of them
   unless it disconnected itself, and the meter is the fold of the lines read.
   */
  method Pump(stream: AntStream, client: Client) returns (ghost lines: seq<seq<Byte>>)
    requires stream.meter == NO_METER && client.received == []
    modifies stream, client
    ensures Joined(lines) + stream.unread == old(stream.unread)
    ensures forall i | 0 <= i < |lines| - 1 :: WholeLine(lines[i])
    ensures stream.meter == SniffAll(lines, stream.json)
    ensures client.received == Upto(old(stream.unread), client.limit)
    ensures client.received == old(stream.unread) ==> stream.unread == [] && Joined(lines) == old(stream.unread)
  {
    lines := [];
    ghost var all := stream.unread;
    while true
      invariant Joined(lines) + stream.unread == all
      invariant forall i | 0 <= i < |lines| :: WholeLine(lines[i])
      invariant stream.meter == SniffAll(lines, stream.json)
      invariant client.received == Joined(lines) == Upto(Joined(lines), client.limit)
      decreases |stream.unread|
    {
      var chunk, err := stream.Recv();
      if |chunk| > 0 {
        ghost var more := lines + [chunk];
        assert more[..|more| - 1] == lines;
        lines := more;
        assert Joined(lines) + stream.unread == all;
        var ok := client.Write(chunk);
        if !ok {
          UptoPrefix(Joined(lines), stream.unread, client.limit);
          return;
        }
      }
      if err.Some? {
        assert Joined(lines) + [] == Joined(lines);
        return;
      }
    }
  }

  // ----- the meter is the last report of each figure -----

  datatype Count = PromptCount | CompletionCount

  function Figure(m: Meter, c: Count): nat {
    if c == PromptCount then m.prompt else m.completion
  }

  /** The count a line reports: always with a start's usage, only a positive one with a delta's. */
  function Reported(line: seq<Byte>, json: Json, c: Count): Option<nat> {
    match EventOn(line, json)
    case Some(MessageStart(_, Some(u))) => Some(if c == PromptCount then u.input else u.output)
    case Some(MessageDelta(Some(u))) =>
      var n := if c == PromptCount then u.input else u.output;
      if n > 0 then Some(n) else None
    case _ => None
  }

  lemma OneLineMoves(m: Meter, line: seq<Byte>, json: Json, c: Count)
    ensures var r := Reported(line, json, c); Figure(Sniffed(m, line, json), c) == if r.Some? then r.value else Figure(m, c)
  {
  }

  /** However the stream ends, each count is the last one reported by a line read, and 0 if none was. */
  lemma {:induction false} LastReportWins(lines: seq<seq<Byte>>, json: Json, c: Count, k: nat)
    requires k < |lines| ==> Reported(lines[k], json, c).Some?
    requires forall i | k < i < |lines| :: Reported(lines[i], json, c).None?
    requires k >= |lines| ==> forall i | 0 <= i < |lines| :: Reported(lines[i], json, c).None?
    ensures Figure(SniffAll(lines, json), c) == if k < |lines| then Reported(lines[k], json, c).value else 0
  {
    if lines != [] {
      var n := |lines| - 1;
      OneLineMoves(SniffAll(lines[..n], json), lines[n], json, c);
      if k != n {
        assert forall i | 0 <= i < n :: lines[..n][i] == lines[i];
        LastReportWins(lines[..n], json, c, k);
      }
    }
  }

  // ----- which lines are metered -----

  /** Only blanks, tabs and line ends. */
  predicate Blank(s: seq<Byte>) {
    forall i | 0 <= i < |s| :: s[i] == 32 || 9 <= s[i] <= 13
  }

  lemma {:induction false} TrimsRight(s: seq<Byte>, blanks: seq<Byte>)
    requires Blank(blanks) && (s == [] || !Blank([s[|s| - 1]]))
    ensures TrimRight(s + blanks) == s
  {
    if blanks == [] {
      assert s + blanks == s;
    } else {
      var rest := blanks[..|blanks| - 1];
      assert s + blanks == (s + rest) + [blanks[|blanks| - 1]];
      SpaceAtTheEnd(s + rest, blanks[|blanks| - 1]);
      TrimsRight(s, rest);
    }
  }

  lemma {:induction false} TrimsLeft(blanks: seq<Byte>, s: seq<Byte>)
    requires Blank(blanks) && (s == [] || !Blank([s[0]]))
    ensures TrimLeft(blanks + s) == s
  {
    if blanks == [] {
      assert blanks + s == s;
    } else {
      assert (blanks + s)[1..] == blanks[1..] + s;
      TrimsLeft(blanks[1..], s);
    }
  }

  lemma {:induction false} TrimRightIsPrefix(s: seq<Byte>)
    ensures TrimRight(s) <= s
    ensures s != [] && !Blank([s[0]]) ==> TrimRight(s) != []
  {
    if s != [] && IsSpace(s[|s| - 1]) {
      TrimRightIsPrefix(s[..|s| - 1]);
    }
  }

  /** What an event does to the meter. */
  predicate Moves(m: Meter, ev: Option<StreamEvent>, m': Meter) {
    match ev
    case None => m' == m
    case Some(MessageStart(model, Some(u))) =>
      m'.prompt == u.input && m'.completion == u.output && m'.model == (if model == NO_TEXT then m.model else model)
    case Some(MessageStart(model, None)) =>
      m'.prompt == m.prompt && m'.completion == m.completion && m'.model == (if model == NO_TEXT then m.model else model)
    case Some(MessageDelta(Some(u))) =>
      && m'.model == m.model
      && m'.completion == (if u.output > 0 then u.output else m.completion)
      && m'.prompt == (if u.input > 0 then u.input else m.prompt)
    case Some(MessageDelta(None)) => m' == m
  }

  /** A line that reads `data:` and a payload, with any blanks around either, moves the meter as its JSON says. */
  lemma DataLineIsMetered(lines: seq<seq<Byte>>, before: seq<Byte>, gap: seq<Byte>, p: seq<Byte>, after: seq<Byte>, json: Json)
    requires Blank(before) && Blank(gap) && Blank(after)
    requires p != [] && !Blank([p[0]]) && !Blank([p[|p| - 1]])
    ensures var line := before + [100, 97, 116, 97, 58] + gap + p + after;
            Moves(SniffAll(lines, json), json(p), SniffAll(lines + [line], json))
  {
    var data: seq<Byte> := [100, 97, 116, 97, 58];
    var core := data + gap + p;
    var line := before + data + gap + p + after;
    assert line == (before + core) + after;
    TrimsRight(before + core, after);
    TrimsLeft(before, core);
    assert TrimSpace(line) == core;
    assert core[..5] == data && core[5..] == gap + p;
    TrimsRight(gap + p, []);
    assert gap + p + [] == gap + p;
    TrimsLeft(gap, p);
    assert TrimSpace(core[5..]) == p;
    assert EventOn(line, json) == json(p);
    assert (lines + [line])[..|lines|] == lines;
  }

  /** Any other line leaves the meter alone: one whose first five bytes after its blanks are not `data:`, or with nothing after them. */
  lemma OtherLineIsIgnored(lines: seq<seq<Byte>>, before: seq<Byte>, rest: seq<Byte>, json: Json)
    requires Blank(before) && (rest == [] || !Blank([rest[0]]))
    requires !(|rest| >= 5 && rest[..5] == [100, 97, 116, 97, 58]) || Blank(rest[5..])
    ensures SniffAll(lines + [before + rest], json) == SniffAll(lines, json)
  {
    var line := before + rest;
    assert (lines + [line])[..|lines|] == lines;
    if rest == [] {
      TrimsRight([], before);
      assert [] + before == line;
    } else {
      TrimRightIsPrefix(rest);
      var kept := TrimRight(rest);
      RightThenLeft(before, rest);
      assert TrimSpace(line) == kept;
      if DATA_PREFIX <= kept {
        assert kept[..5] == DATA_PREFIX && rest[..5] == DATA_PREFIX;
        assert kept[5..] == rest[5..|kept|];
        TrimsRight([], kept[5..]);
        assert [] + kept[5..] == kept[5..];
      }
    }
  }

  lemma {:induction false} RightThenLeft(blanks: seq<Byte>, s: seq<Byte>)
    requires Blank(blanks) && s != [] && !Blank([s[0]])
    ensures TrimLeft(TrimRight(blanks + s)) == TrimRight(s)
  {
    if IsSpace(s[|s| - 1]) {
      var t := s[..|s| - 1];
      assert s == t + [s[|s| - 1]] && blanks + s == (blanks + t) + [s[|s| - 1]];
      SpaceAtTheEnd(blanks + t, s[|s| - 1]);
      SpaceAtTheEnd(t, s[|s| - 1]);
      RightThenLeft(blanks, t);
    } else {
      assert TrimRight(blanks + s) == blanks + s;
      TrimsLeft(blanks, s);
    }
  }
}

/** One governed provider call, whole or streamed: admit, call, price, record. */
module GovernedCalls {
  import opened Prelude
  import opened Governor
  import opened Storage
  import opened Runs
  import opened Streaming
  import Admission

  /** Dollars and whether the model is in the price table. */
  type Price = (Token, nat, nat) -> (Money, bool)

  /** What the provider call comes to. */
  datatype Reply = Answer(model: Token, prompt: nat, completion: nat, responseId: Token) | ProviderFailed

  /** What the world decides: routing, the kill switch falling while the provider is at work, and the clock readings. */
  datatype Circumstances = Circumstances(
    provider: Option<Token>, killedAt: Option<Instant>, begun: Instant, checked: Instant, recorded: Instant)

  datatype Outcome =
    | Refused(reason: HaltReason)
    | UnknownProvider
    | CutOff(reason: HaltReason)
    | ProviderError
    | Unsupported
    | Completed(step: nat, cost: Money, priced: bool, halt: HaltReason)
    | Streamed

  // ----- the run after each stage, and the writes of each -----

  function AfterAdmit(r: RunState, w: Circumstances): RunState {
    var s := AfterBeginStep(r, w.begun);
    if s.gov.halted != NotHalted then s else AfterProceed(s, w.checked)
  }

  function AdmitPlan(r: RunState, w: Circumstances): seq<Write> {
    var s := AfterBeginStep(r, w.begun);
    BeginStepPlan(r, w.begun) + if s.gov.halted != NotHalted then [] else ProceedPlan(s, w.checked)
  }

  predicate Admitted(r: RunState, w: Circumstances) {
    AfterAdmit(r, w).gov.halted == NotHalted
  }

  predicate Late(g: Gov, at: Instant) {
    g.budget.seconds > 0 && at - g.startedAt >= g.budget.seconds * 1_000_000_000
  }

  /** Why a call is refused, by the clock and the counters as the call finds them; NotHalted if it goes ahead. */
  function Refusal(g: Gov, w: Circumstances): HaltReason {
    if g.halted != NotHalted then g.halted
    else if Late(g, w.begun) then TimeBudget
    else if g.budget.loops > 0 && g.usage.loops >= g.budget.loops then LoopBudget
    else if Late(g, w.checked) then TimeBudget
    else if g.budget.tokens > 0 && g.usage.prompt + g.usage.completion >= g.budget.tokens then TokenBudget
    else if g.budget.dollars > 0.0 && g.usage.dollars >= g.budget.dollars then DollarBudget
    else NotHalted
  }

  /** An admitted call is in time when it begins and when it is checked, has a loop left, and is strictly under tokens and dollars. */
  lemma AdmitExactly(r: RunState, w: Circumstances)
    ensures AfterAdmit(r, w).gov.halted == Refusal(r.gov, w)
    ensures Admitted(r, w) ==> AfterAdmit(r, w).gov.usage == r.gov.usage.(loops := r.gov.usage.loops + 1)
    ensures var u := AfterAdmit(r, w).gov.usage;
            u.prompt == r.gov.usage.prompt && u.completion == r.gov.usage.completion && u.dollars == r.gov.usage.dollars
  {
  }

  /** Admission of one call is one Begin and one Admit of the concurrent model. */
  lemma AdmitIsTwoSteps(r: RunState, w: Circumstances, p: Admission.Proxy, call: nat)
    requires p.gov == r.gov && call !in p.waiting && call !in p.inFlight
    ensures var q := Admission.Next(Admission.Next(p, Admission.Begin(call, w.begun)), Admission.Admit(call, w.checked));
            && q.gov == AfterAdmit(r, w).gov && q.waiting == p.waiting
            && q.inFlight == (if Admitted(r, w) then p.inFlight + {call} else p.inFlight)
  {
    var s := Admission.Next(p, Admission.Begin(call, w.begun));
    assert call in s.waiting ==> s.waiting - {call} == p.waiting;
  }

  /** The run when the provider is done with an admitted call. */
  function AfterProvider(r: RunState, w: Circumstances): RunState {
    var s := AfterAdmit(r, w);
    if w.killedAt.Some? then AfterKill(s, w.killedAt.value) else s
  }

  function ProviderPlan(r: RunState, w: Circumstances): seq<Write> {
    AdmitPlan(r, w) + if w.killedAt.Some? then KillPlan(AfterAdmit(r, w), w.killedAt.value) else []
  }

  /** The call as recorded. */
  function Bill(r: RunState, w: Circumstances, model: Token, prompt: nat, completion: nat, responseId: Token, price: Price): Call
    requires w.provider.Some?
  {
    var (cost, priced) := price(model, prompt, completion);
    Call(AfterAdmit(r, w).gov.usage.loops, w.provider.value, model, prompt, completion, cost, priced, responseId)
  }

  /** Begin a step, then the pre-call ceiling. */
  method Admit(run: Runs.Run, w: Circumstances) returns (step: nat, err: Option<HaltError>)
    requires run.mgr.DiskOk()
    modifies run, run.gov, run.mgr.store
    ensures run.mgr.DiskOk()
    ensures run.State() == AfterAdmit(old(run.State()), w) && err == Verdict(run.State().gov)
    ensures err.None? ==> step == run.State().gov.usage.loops
    ensures run.mgr.Wrote(AdmitPlan(old(run.State()), w))
  {
    step, err := run.BeginStep(w.begun);
    if err.None? {
      err := run.CanProceed(w.checked);
    }
  }

  /** The provider call runs outside the governor; all it can meet there is the kill switch. */
  method Provider(run: Runs.Run, w: Circumstances, ghost r: RunState)
    requires run.mgr.DiskOk() && run.State() == AfterAdmit(r, w)
    modifies run, run.gov, run.mgr.store
    ensures run.mgr.DiskOk() && run.State() == AfterProvider(r, w)
    ensures run.mgr.Wrote(if w.killedAt.Some? then KillPlan(AfterAdmit(r, w), w.killedAt.value) else [])
  {
    if w.killedAt.Some? {
      run.Cancel(w.killedAt.value);
    }
  }

  /** Price and record an answer. The result is kept even when recording it exhausts a budget. */
  method Settle(run: Runs.Run, w: Circumstances, step: nat, reply: Reply, price: Price) returns (out: Outcome)
    requires run.mgr.DiskOk() && w.provider.Some? && reply.Answer?
    modifies run, run.gov, run.mgr.store
    ensures var (cost, priced) := price(reply.model, reply.prompt, reply.completion);
            var c := Call(step, w.provider.value, reply.model, reply.prompt, reply.completion, cost, priced, reply.responseId);
            && out == Completed(step, cost, priced, run.gov.halted)
            && run.State() == AfterRecordCall(old(run.State()), c, w.recorded)
            && run.mgr.Wrote(RecordCallPlan(old(run.State()), c, w.recorded))
  {
    var (cost, priced) := price(reply.model, reply.prompt, reply.completion);
    var err := run.RecordCall(Call(step, w.provider.value, reply.model, reply.prompt, reply.completion, cost, priced,
                                   reply.responseId), w.recorded);
    out := Completed(step, cost, priced, if err.Some? then err.value.reason else NotHalted);
  }

  /** The call, with its state and writes on every path. */
  method Serve(run: Runs.Run, w: Circumstances, reply: Reply, price: Price) returns (out: Outcome)
    requires run.mgr.DiskOk()
    modifies run, run.gov, run.mgr.store
    ensures var r := old(run.State());
            && (!Admitted(r, w) ==>
                  && out == Refused(run.gov.halted) && run.State() == AfterAdmit(r, w) && run.mgr.Wrote(AdmitPlan(r, w)))
            && (Admitted(r, w) && w.provider.None? ==>
                  && out == UnknownProvider && run.State() == AfterAdmit(r, w) && run.mgr.Wrote(AdmitPlan(r, w)))
            && (Admitted(r, w) && w.provider.Some? && reply.ProviderFailed? ==>
                  && out == (if w.killedAt.Some? then CutOff(Cancelled) else ProviderError)
                  && run.State() == AfterProvider(r, w) && run.mgr.Wrote(ProviderPlan(r, w)))
            && (Admitted(r, w) && w.provider.Some? && reply.Answer? ==>
                  var c := Bill(r, w, reply.model, reply.prompt, reply.completion, reply.responseId, price);
                  && out == Completed(c.stepIndex, c.dollars, c.priced, run.gov.halted)
                  && run.State() == AfterRecordCall(AfterProvider(r, w), c, w.recorded)
                  && run.mgr.Wrote(ProviderPlan(r, w) + RecordCallPlan(AfterProvider(r, w), c, w.recorded)))
  {
    ghost var r := run.State();
    var step, err := Admit(run, w);
    if err.Some? {
      return Refused(err.value.reason);
    }
    if w.provider.None? {
      return UnknownProvider;
    }
    Provider(run, w, r);
    if reply.ProviderFailed? {
      if run.gov.halted != NotHalted {
        return CutOff(run.gov.halted);
      }
      return ProviderError;
    }
    out := Settle(run, w, step, reply, price);
  }

  method GovernedCall(run: Runs.Run, w: Circumstances, reply: Reply, price: Price) returns (out: Outcome)
    requires run.mgr.DiskOk()
    modifies run, run.gov, run.mgr.store
    ensures var g, reason := old(run.gov.State()), Refusal(old(run.gov.State()), w);
            && (out.Refused? <==> reason != NotHalted)
            && (out.Refused? ==>
                  && out.reason == run.gov.halted == reason
                  && (run.mgr.store != null ==> HaltOnDisk(old(run.mgr.store.tables), run.mgr.store.tables, run.id, reason)))
            && (!out.Refused? ==> run.gov.usage.loops == g.usage.loops + 1)
            && (out.Completed? <==> reason == NotHalted && w.provider.Some? && reply.Answer?)
            && (out.Completed? ==>
                  && out.step == g.usage.loops + 1 && out.halt == run.gov.halted
                  && (out.cost, out.priced) == price(reply.model, reply.prompt, reply.completion)
                  && run.gov.usage == Usage(g.usage.prompt + reply.prompt, g.usage.completion + reply.completion,
                                            g.usage.dollars + out.cost, g.usage.loops + 1)
                  && (run.mgr.store != null ==>
                        run.mgr.store.tables.ledger == old(run.mgr.store.tables.ledger) + [LedgerEntry(
                          run.id, out.step, w.provider.value, reply.model, reply.prompt, reply.completion, out.cost, out.priced,
                          reply.responseId, w.recorded)]))
            && (!out.Completed? ==>
                  && run.gov.usage.prompt == g.usage.prompt && run.gov.usage.completion == g.usage.completion
                  && run.gov.usage.dollars == g.usage.dollars
                  && (run.mgr.store != null ==> run.mgr.store.tables.ledger == old(run.mgr.store.tables.ledger)))
  {
    ghost var r := run.State();
    ghost var t, journal := EMPTY_TABLES, [];
    if run.mgr.store != null {
      t, journal := run.mgr.store.tables, run.mgr.store.journal;
    }
    AdmitExactly(r, w);
    out := Serve(run, w, reply, price);
    if run.mgr.store != null {
      ghost var base := run.mgr.store.base;
      ApplyAllConcat(base, journal, AdmitPlan(r, w));
      ApplyAllConcat(base, journal, ProviderPlan(r, w));
    }
    RefusedPlanTells(t, r, w);
    UnbilledPlanTells(t, r, w);
    if w.provider.Some? && reply.Answer? {
      ghost var c := Bill(r, w, reply.model, reply.prompt, reply.completion, reply.responseId, price);
      if Admitted(r, w) {
        BilledMeterTells(r, w, c);
      }
      BilledPlanTells(t, r, w, c);
      if run.mgr.store != null {
        ApplyAllConcat(run.mgr.store.base, journal,
                       ProviderPlan(r, w) + RecordCallPlan(AfterProvider(r, w), c, w.recorded));
      }
    }
  }

  /** Whether the response can stream at all: a streaming provider, a flushing writer, an upstream that opens. */
  datatype Wiring = Wiring(streams: bool, flushes: bool, opens: bool)

  /** Everything before the response is committed: a reason not to stream, or nothing. */
  method OpenStream(run: Runs.Run, w: Circumstances, wiring: Wiring) returns (step: nat, failure: Option<Outcome>)
    requires run.mgr.DiskOk()
    modifies run, run.gov, run.mgr.store
    ensures run.mgr.DiskOk() && failure != Some(Streamed)
    ensures var r := old(run.State());
            && (!Admitted(r, w) ==>
                  failure == Some(Refused(run.gov.halted)) && run.State() == AfterAdmit(r, w) && run.mgr.Wrote(AdmitPlan(r, w)))
            && (Admitted(r, w) ==>
                  && step == AfterAdmit(r, w).gov.usage.loops
                  && (failure.Some? ==> !failure.value.Refused?)
                  && (failure.None? <==> w.provider.Some? && wiring.streams && wiring.flushes && wiring.opens)
                  && if w.provider.None? || !wiring.streams || !wiring.flushes
                     then run.State() == AfterAdmit(r, w) && run.mgr.Wrote(AdmitPlan(r, w))
                     else run.State() == AfterProvider(r, w) && run.mgr.Wrote(ProviderPlan(r, w)))
  {
    ghost var r := run.State();
    failure := None;
    var err;
    step, err := Admit(run, w);
    if err.Some? {
      failure := Some(Refused(err.value.reason));
    } else if w.provider.None? {
      failure := Some(UnknownProvider);
    } else if !wiring.streams || !wiring.flushes {
      failure := Some(Unsupported);
    } else {
      Provider(run, w, r);
      if !wiring.opens {
        failure := Some(if run.gov.halted != NotHalted then CutOff(run.gov.halted) else ProviderError);
      }
    }
  }

  /** The committed response: relay the stream, then meter the call, truncated or not. */
  method Relay(run: Runs.Run, w: Circumstances, step: nat, stream: AntStream, client: Client, requested: Token, price: Price)
    returns (ghost lines: seq<seq<Byte>>, ghost c: Call)
    requires run.mgr.DiskOk() && w.provider.Some? && stream.meter == NO_METER && client.received == []
    modifies run, run.gov, run.mgr.store, stream, client
    ensures client.received == Upto(old(stream.unread), client.limit)
    ensures Joined(lines) + stream.unread == old(stream.unread)
    ensures client.received == old(stream.unread) ==> Joined(lines) == old(stream.unread)
    ensures IsStreamBill(c, step, w.provider.value, requested, SniffAll(lines, stream.json), price)
    ensures run.State() == AfterRecordCall(old(run.State()), c, w.recorded)
    ensures run.mgr.Wrote(RecordCallPlan(old(run.State()), c, w.recorded))
  {
    lines := Pump(stream, client);
    var model := stream.meter.model;
    if model == NO_TEXT {
      model := requested;
    }
    var (cost, priced) := price(model, stream.meter.prompt, stream.meter.completion);
    var billed := Call(step, w.provider.value, model, stream.meter.prompt, stream.meter.completion, cost, priced, NO_TEXT);
    c := billed;
    var _ := run.RecordCall(billed, w.recorded);
  }

  /** The stream, with its state and writes. */
  method ServeStream(run: Runs.Run, w: Circumstances, wiring: Wiring, stream: AntStream, client: Client,
                    requested: Token, price: Price)
    returns (out: Outcome, ghost lines: seq<seq<Byte>>, ghost c: Option<Call>)
    requires run.mgr.DiskOk() && stream.meter == NO_METER && client.received == []
    modifies run, run.gov, run.mgr.store, stream, client
    ensures var r := old(run.State());
            && (out == Streamed <==> Admitted(r, w) && w.provider.Some? && wiring.streams && wiring.flushes && wiring.opens)
            && (out.Refused? ==> !Admitted(r, w))
            && (out != Streamed ==> c == None && client.received == [])
            && (!Admitted(r, w) ==> out == Refused(run.gov.halted) && run.State() == AfterAdmit(r, w) && run.mgr.Wrote(AdmitPlan(r, w)))
            && (out == Streamed ==>
                  && client.received == Upto(old(stream.unread), client.limit)
                  && Joined(lines) + stream.unread == old(stream.unread)
                  && (client.received == old(stream.unread) ==> Joined(lines) == old(stream.unread))
                  && c.Some? && IsStreamBill(c.value, AfterAdmit(r, w).gov.usage.loops, w.provider.value, requested,
                                             SniffAll(lines, stream.json), price)
                  && run.State() == AfterRecordCall(AfterProvider(r, w), c.value, w.recorded)
                  && run.mgr.Wrote(ProviderPlan(r, w) + RecordCallPlan(AfterProvider(r, w), c.value, w.recorded)))
  {
    lines, c := [], None;
    var step, failure := OpenStream(run, w, wiring);
    if failure.Some? {
      return failure.value, [], None;
    }
    ghost var billed;
    lines, billed := Relay(run, w, step, stream, client, requested, price);
    c := Some(billed);
    out := Streamed;
  }

  /**
   Verbatim and metered once: a committed stream reaches the client byte for byte, whole
   unless the client left, and is recorded by exactly one call with the usage its lines report.
   */
  method StreamCall(run: Runs.Run, w: Circumstances, wiring: Wiring, stream: AntStream, client: Client,
                    requested: Token, price: Price)
    returns (out: Outcome, ghost lines: seq<seq<Byte>>, ghost c: Option<Call>)
    requires run.mgr.DiskOk() && stream.meter == NO_METER && client.received == []
    modifies run, run.gov, run.mgr.store, stream, client
    ensures var g, reason := old(run.gov.State()), Refusal(old(run.gov.State()), w);
            && (out.Refused? <==> reason != NotHalted)
            && (out.Refused? ==>
                  && out.reason == run.gov.halted == reason
                  && (run.mgr.store != null ==> HaltOnDisk(old(run.mgr.store.tables), run.mgr.store.tables, run.id, reason)))
            && (out == Streamed <==> reason == NotHalted && w.provider.Some? && wiring.streams && wiring.flushes && wiring.opens)
            && (out != Streamed ==> c == None && client.received == [])
            && (out == Streamed ==>
                  && client.received <= old(stream.unread)
                  && (client.limit == None ==> client.received == old(stream.unread))
                  && Joined(lines) + stream.unread == old(stream.unread)
                  && (client.received == old(stream.unread) ==> Joined(lines) == old(stream.unread))
                  && c.Some? && IsStreamBill(c.value, g.usage.loops + 1, w.provider.value, requested, SniffAll(lines, stream.json), price)
                  && run.gov.usage == Usage(g.usage.prompt + c.value.prompt, g.usage.completion + c.value.completion,
                                            g.usage.dollars + c.value.dollars, g.usage.loops + 1)
                  && (run.mgr.store != null ==>
                        run.mgr.store.tables.ledger == old(run.mgr.store.tables.ledger) + [RowOf(run.id, c.value, w.recorded)]))
  {
    ghost var r := run.State();
    ghost var t, journal := EMPTY_TABLES, [];
    if run.mgr.store != null {
      t, journal := run.mgr.store.tables, run.mgr.store.journal;
    }
    AdmitExactly(r, w);
    out, lines, c := ServeStream(run, w, wiring, stream, client, requested, price);
    if run.mgr.store != null {
      ApplyAllConcat(run.mgr.store.base, journal, AdmitPlan(r, w));
    }
    RefusedPlanTells(t, r, w);
    if c.Some? {
      BilledMeterTells(r, w, c.value);
      BilledPlanTells(t, r, w, c.value);
      if run.mgr.store != null {
        ApplyAllConcat(run.mgr.store.base, journal,
                       ProviderPlan(r, w) + RecordCallPlan(AfterProvider(r, w), c.value, w.recorded));
      }
    }
  }

  /** What a stream is billed: its own figures at its own model, or the requested one if it named none. */
  predicate IsStreamBill(c: Call, step: nat, provider: Token, requested: Token, m: Meter, price: Price) {
    && c.stepIndex == step && c.provider == provider && c.responseId == NO_TEXT
    && c.model == (if m.model == NO_TEXT then requested else m.model)
    && c.prompt == m.prompt && c.completion == m.completion
    && (c.dollars, c.priced) == price(c.model, m.prompt, m.completion)
  }

  // ----- what the plans leave on disk -----

  function RowOf(id: RunId, c: Call, at: Instant): LedgerEntry {
    LedgerEntry(id, c.stepIndex, c.provider, c.model, c.prompt, c.completion, c.dollars, c.priced, c.responseId, at)
  }

  /** The row says halted, with the reason, and the ledger is as it was. */
  predicate HaltOnDisk(t: Tables, t': Tables, id: RunId, reason: HaltReason) {
    && t'.ledger == t.ledger
    && id in t'.runs && t'.runs[id].haltReason == reason
    && t'.runs[id].status == (if reason == Cancelled then StatusCancelled else StatusHalted)
  }

  lemma {:induction false} SameLedger(t: Tables, plan: seq<Write>)
    requires forall i | 0 <= i < |plan| :: !plan[i].AppendLedger?
    ensures ApplyAll(t, plan).ledger == t.ledger
  {
    if plan != [] {
      SameLedger(t, plan[..|plan| - 1]);
    }
  }

  lemma RefusedPlanTells(t: Tables, r: RunState, w: Circumstances)
    ensures Refusal(r.gov, w) != NotHalted ==> HaltOnDisk(t, ApplyAll(t, AdmitPlan(r, w)), r.id, Refusal(r.gov, w))
  {
    AdmitExactly(r, w);
    var plan := AdmitPlan(r, w);
    SameLedger(t, plan);
    if Refusal(r.gov, w) != NotHalted {
      assert plan[|plan| - 1] == UpsertRun(Record(AfterAdmit(r, w)));
      WriteIsSeen(ApplyAll(t, plan[..|plan| - 1]), plan[|plan| - 1]);
    }
  }

  lemma UnbilledPlanTells(t: Tables, r: RunState, w: Circumstances)
    ensures ApplyAll(t, AdmitPlan(r, w)).ledger == ApplyAll(t, ProviderPlan(r, w)).ledger == t.ledger
  {
    SameLedger(t, AdmitPlan(r, w));
    SameLedger(t, ProviderPlan(r, w));
  }

  lemma BilledPlanTells(t: Tables, r: RunState, w: Circumstances, c: Call)
    ensures ApplyAll(t, ProviderPlan(r, w) + RecordCallPlan(AfterProvider(r, w), c, w.recorded)).ledger
         == t.ledger + [RowOf(r.id, c, w.recorded)]
  {
    var record := RecordCallPlan(AfterProvider(r, w), c, w.recorded);
    var t1 := ApplyAll(t, ProviderPlan(r, w));
    UnbilledPlanTells(t, r, w);
    ApplyAllConcat(t, ProviderPlan(r, w), record);
    assert record == record[..1] + record[1..];
    ApplyAllConcat(t1, record[..1], record[1..]);
    SameLedger(ApplyAll(t1, record[..1]), record[1..]);
    assert record[..1][..0] == [];
  }

  lemma BilledMeterTells(r: RunState, w: Circumstances, c: Call)
    requires Admitted(r, w)
    ensures AfterRecordCall(AfterProvider(r, w), c, w.recorded).gov.usage
         == Usage(r.gov.usage.prompt + c.prompt, r.gov.usage.completion + c.completion, r.gov.usage.dollars + c.dollars,
                  r.gov.usage.loops + 1)
  {
    AdmitExactly(r, w);
  }

  // ----- billed once -----

  function LedgerRows(plan: seq<Write>): nat {
    if plan == [] then 0
    else LedgerRows(plan[..|plan| - 1]) + if plan[|plan| - 1].AppendLedger? then 1 else 0
  }

  lemma {:induction false} LedgerRowsConcat(a: seq<Write>, b: seq<Write>)
    ensures LedgerRows(a + b) == LedgerRows(a) + LedgerRows(b)
  {
    if b == [] {
      assert a + b == a;
    } else {
      assert (a + b)[..|a + b| - 1] == a + b[..|b| - 1];
      LedgerRowsConcat(a, b[..|b| - 1]);
    }
  }

  lemma {:induction false} NoLedgerRows(plan: seq<Write>)
    requires forall i | 0 <= i < |plan| :: !plan[i].AppendLedger?
    ensures LedgerRows(plan) == 0
  {
    if plan != [] {
      NoLedgerRows(plan[..|plan| - 1]);
    }
  }

  /**
   A call that got an answer is one loop, its tokens and its price on the meter, and one ledger
   row; any other leaves no row and no spend.
   */
  lemma BilledExactlyOnce(r: RunState, w: Circumstances, c: Call)
    requires Admitted(r, w)
    ensures var plan := ProviderPlan(r, w) + RecordCallPlan(AfterProvider(r, w), c, w.recorded);
            && LedgerRows(plan) == 1 && LedgerRows(AdmitPlan(r, w)) == LedgerRows(ProviderPlan(r, w)) == 0
            && AfterProvider(r, w).gov.usage == r.gov.usage.(loops := r.gov.usage.loops + 1)
            && AfterRecordCall(AfterProvider(r, w), c, w.recorded).gov.usage
               == Spent(r.gov.usage.(loops := r.gov.usage.loops + 1), c.prompt, c.completion, c.dollars)
  {
    var record := RecordCallPlan(AfterProvider(r, w), c, w.recorded);
    NoLedgerRows(AdmitPlan(r, w));
    NoLedgerRows(ProviderPlan(r, w));
    LedgerRowsConcat(ProviderPlan(r, w), record);
    assert record == record[..1] + record[1..];
    LedgerRowsConcat(record[..1], record[1..]);
    NoLedgerRows(record[1..]);
    assert record[..1][..0] == [];
  }
}
