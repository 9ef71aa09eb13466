/**
 The compliance export's event log: a run's records flattened, stably sorted, and chained
 by hash. SHA-256 and the JSON encoding stay abstract: the proofs ask of a digest only its
 form, and of the encoding and of the hash only what concerns the events of the logs compared.
 */
module Audit {
  import opened Prelude
  import opened Storage
  import opened ToolCalls

  datatype RunData = RunData(ledger: seq<LedgerEntry>, toolCalls: seq<ToolCallRecord>, approvals: seq<ApprovalRecord>)

  /** In the order of the type names "approval", "model_call", "tool_call". */
  datatype Kind = KindApproval | KindModelCall | KindToolCall {
    function Rank(): nat {
      match this
      case KindApproval => 0
      case KindModelCall => 1
      case KindToolCall => 2
    }
  }

  datatype Detail =
    | CallDetail(step: nat, provider: Token, model: Token, prompt: nat, completion: nat, dollars: Money)
    | ToolDetail(step: nat, tool: string, sideEffect: string, outcome: ToolStatus)
    | ApprovalDetail(tool: string, sideEffect: string, ruling: ApprovalStatus, decidedBy: Token)

  datatype Raw = Raw(at: Instant, kind: Kind, detail: Detail)

  /** What is hashed of an event besides the previous hash. */
  datatype Content = Content(seqNo: nat, kind: Kind, at: Instant, detail: Detail)

  datatype Event = Event(content: Content, hash: string)

  type Sha = string -> string
  type Encoder = Content -> string

  // ----- the records, flattened -----

  function OfCall(e: LedgerEntry): Raw {
    Raw(e.createdAt, KindModelCall, CallDetail(e.stepIndex, e.provider, e.model, e.prompt, e.completion, e.dollars))
  }

  function OfTool(t: ToolCallRecord): Raw {
    Raw(t.createdAt, KindToolCall, ToolDetail(t.call.stepIndex, t.call.tool, t.call.sideEffect, t.status))
  }

  /** A decided approval counts from its decision. */
  function OfApproval(a: ApprovalRecord): Raw {
    Raw(if a.decidedAt.Some? then a.decidedAt.value else a.createdAt, KindApproval,
        ApprovalDetail(a.call.tool, a.call.sideEffect, a.status, a.decidedBy))
  }

  /** Record i: the ledger entries, then the tool calls, then the approvals. */
  function RecordAt(d: RunData, i: nat): Raw
    requires i < Size(d)
  {
    if i < |d.ledger| then OfCall(d.ledger[i])
    else if i < |d.ledger| + |d.toolCalls| then OfTool(d.toolCalls[i - |d.ledger|])
    else OfApproval(d.approvals[i - |d.ledger| - |d.toolCalls|])
  }

  function Size(d: RunData): nat {
    |d.ledger| + |d.toolCalls| + |d.approvals|
  }

  method Flatten(d: RunData) returns (rs: seq<Raw>)
    ensures AllRecords(d, rs)
  {
    rs := [];
    for i := 0 to |d.ledger|
      invariant |rs| == i && forall k | 0 <= k < i :: rs[k] == RecordAt(d, k)
    {
      rs := rs + [OfCall(d.ledger[i])];
    }
    for i := 0 to |d.toolCalls|
      invariant |rs| == |d.ledger| + i && forall k | 0 <= k < |rs| :: rs[k] == RecordAt(d, k)
    {
      rs := rs + [OfTool(d.toolCalls[i])];
    }
    for i := 0 to |d.approvals|
      invariant |rs| == |d.ledger| + |d.toolCalls| + i && forall k | 0 <= k < |rs| :: rs[k] == RecordAt(d, k)
    {
      rs := rs + [OfApproval(d.approvals[i])];
    }
  }

  // ----- the stable order -----

  predicate Less(a: Raw, b: Raw) {
    a.at < b.at || (a.at == b.at && a.kind.Rank() < b.kind.Rank())
  }

  /** Record i comes before record j: by time, then type, then where it was. */
  predicate Before(rs: seq<Raw>, i: nat, j: nat)
    requires i < |rs| && j < |rs|
  {
    Less(rs[i], rs[j]) || (!Less(rs[j], rs[i]) && i < j)
  }

  /** Every record's index once, in the stable order. */
  ghost predicate StableOrder(rs: seq<Raw>, order: seq<nat>) {
    && |order| == |rs|
    && (forall k | 0 <= k < |order| :: order[k] < |rs|)
    && (forall i: nat | i < |rs| :: Occurs(order, i))
    && (forall j, k | 0 <= j < k < |order| :: Before(rs, order[j], order[k]))
  }

  ghost predicate Occurs(order: seq<nat>, i: nat) {
    exists k :: 0 <= k < |order| && order[k] == i
  }

  /** There is only one stable order, so the log does not depend on the sorting algorithm. */
  lemma {:induction false} StableOrderIsUnique(rs: seq<Raw>, a: seq<nat>, b: seq<nat>)
    requires forall k | 0 <= k < |a| :: a[k] < |rs|
    requires forall k | 0 <= k < |b| :: b[k] < |rs|
    requires forall i: nat :: Occurs(a, i) <==> Occurs(b, i)
    requires forall j, k | 0 <= j < k < |a| :: Before(rs, a[j], a[k])
    requires forall j, k | 0 <= j < k < |b| :: Before(rs, b[j], b[k])
    ensures a == b
    decreases |a|
  {
    if a == [] {
      if b != [] {
        assert Occurs(b, b[0]);
      }
    } else {
      assert Occurs(a, a[|a| - 1]);
      assert Occurs(b, a[|a| - 1]);
      var m, n := |a| - 1, |b| - 1;
      assert Occurs(b, b[n]);
      assert Occurs(a, b[n]);
      assert a[m] == b[n];
      forall i: nat ensures Occurs(a[..m], i) <==> Occurs(b[..n], i) {
        OccursBefore(rs, a, i);
        OccursBefore(rs, b, i);
      }
      StableOrderIsUnique(rs, a[..m], b[..n]);
      assert a == a[..m] + [a[m]] && b == b[..n] + [b[n]];
    }
  }

  lemma OccursBefore(rs: seq<Raw>, a: seq<nat>, i: nat)
    requires a != [] && forall k | 0 <= k < |a| :: a[k] < |rs|
    requires forall j, k | 0 <= j < k < |a| :: Before(rs, a[j], a[k])
    ensures Occurs(a[..|a| - 1], i) <==> Occurs(a, i) && i != a[|a| - 1]
  {
    var m := |a| - 1;
    if Occurs(a[..m], i) {
      var k :| 0 <= k < m && a[..m][k] == i;
      assert a[k] == i && Before(rs, a[k], a[m]);
    }
    if Occurs(a, i) && i != a[m] {
      var k :| 0 <= k < |a| && a[k] == i;
      assert a[..m][k] == i;
    }
  }

  /** Where record i goes among the sorted ones: after every record that does not come after it. */
  method Insertion(rs: seq<Raw>, sorted: seq<Raw>, i: nat, ghost order: seq<nat>) returns (j: nat)
    requires i < |rs| && |sorted| == |order| == i
    requires forall k | 0 <= k < i :: order[k] < i && sorted[k] == rs[order[k]]
    requires forall p, q | 0 <= p < q < i :: Before(rs, order[p], order[q])
    ensures j <= i
    ensures forall k | 0 <= k < j :: Before(rs, order[k], i)
    ensures forall k | j <= k < i :: Before(rs, i, order[k])
  {
    j := i;
    while j > 0 && Less(rs[i], sorted[j - 1])
      invariant j <= i
      invariant forall k | j <= k < i :: Before(rs, i, order[k])
    {
      j := j - 1;
    }
    if j > 0 {
      assert Before(rs, order[j - 1], i);
      assert forall k | 0 <= k < j - 1 :: Before(rs, order[k], order[j - 1]);
    }
  }

  ghost predicate ArrangedBy(rs: seq<Raw>, order: seq<nat>, sorted: seq<Raw>) {
    StableOrder(rs, order) && |sorted| == |rs| && forall k | 0 <= k < |rs| :: sorted[k] == rs[order[k]]
  }

  /** The records, each once, in the stable order. */
  ghost predicate StablySorted(rs: seq<Raw>, sorted: seq<Raw>) {
    exists order: seq<nat> :: ArrangedBy(rs, order, sorted)
  }

  method SortStable(rs: seq<Raw>) returns (sorted: seq<Raw>)
    ensures StablySorted(rs, sorted)
  {
    sorted := [];
    ghost var order: seq<nat> := [];
    for i := 0 to |rs|
      invariant |sorted| == |order| == i
      invariant forall k | 0 <= k < i :: order[k] < i && sorted[k] == rs[order[k]]
      invariant forall m: nat | m < i :: Occurs(order, m)
      invariant forall p, q | 0 <= p < q < i :: Before(rs, order[p], order[q])
    {
      var j := Insertion(rs, sorted, i, order);
      sorted := sorted[..j] + [rs[i]] + sorted[j..];
      ghost var was := order;
      order := was[..j] + [i] + was[j..];
      forall m: nat | m < i + 1 ensures Occurs(order, m) {
        if m == i {
          assert order[j] == i;
        } else {
          assert Occurs(was, m);
          var k :| 0 <= k < |was| && was[k] == m;
          assert order[if k < j then k else k + 1] == m;
        }
      }
    }
    assert ArrangedBy(rs, order, sorted);
  }

  /** There is one result, whatever the sorting algorithm. */
  lemma OneStableSort(rs: seq<Raw>, a: seq<Raw>, b: seq<Raw>)
    requires StablySorted(rs, a) && StablySorted(rs, b)
    ensures a == b
  {
    var o :| ArrangedBy(rs, o, a);
    var o' :| ArrangedBy(rs, o', b);
    forall i: nat ensures Occurs(o, i) <==> Occurs(o', i) {
      assert Occurs(o, i) ==> i < |rs|;
      assert Occurs(o', i) ==> i < |rs|;
    }
    StableOrderIsUnique(rs, o, o');
  }

  // ----- the chain -----

  function ChainHash(sha: Sha, enc: Encoder, prev: string, c: Content): string {
    sha(prev + enc(c))
  }

  /** The last hash: empty for the empty log. */
  function Head(events: seq<Event>): string {
    if events == [] then "" else events[|events| - 1].hash
  }

  /** Every hash is that of the previous hash and its own event's content. */
  predicate Linked(sha: Sha, enc: Encoder, events: seq<Event>) {
    events == [] || (
      var before, last := events[..|events| - 1], events[|events| - 1];
      Linked(sha, enc, before) && last.hash == ChainHash(sha, enc, Head(before), last.content))
  }

  lemma {:induction false} LinkedPrefix(sha: Sha, enc: Encoder, events: seq<Event>, i: nat)
    requires i <= |events| && Linked(sha, enc, events)
    ensures Linked(sha, enc, events[..i])
    ensures i < |events| ==> events[i].hash == ChainHash(sha, enc, Head(events[..i]), events[i].content)
  {
    if i == |events| {
      assert events[..i] == events;
    } else if i < |events| - 1 {
      LinkedPrefix(sha, enc, events[..|events| - 1], i);
      assert events[..|events| - 1][..i] == events[..i];
    }
  }

  /** The events are these records, numbered from 0. */
  predicate Numbers(sorted: seq<Raw>, events: seq<Event>) {
    |events| == |sorted|
    && forall k | 0 <= k < |events| :: events[k].content == Content(k, sorted[k].kind, sorted[k].at, sorted[k].detail)
  }

  predicate AllRecords(d: RunData, rs: seq<Raw>) {
    |rs| == Size(d) && forall i | 0 <= i < |rs| :: rs[i] == RecordAt(d, i)
  }

  /** All the run's records in the stable order, numbered by position. */
  ghost predicate LogOf(d: RunData, events: seq<Event>) {
    exists rs, sorted :: AllRecords(d, rs) && StablySorted(rs, sorted) && Numbers(sorted, events)
  }

  ghost predicate Appears(events: seq<Event>, kind: Kind, at: Instant, detail: Detail) {
    exists k :: 0 <= k < |events| && events[k].content == Content(k, kind, at, detail)
  }

  /** Time never runs backwards along the log, and at one instant approvals come before model calls and those before tool calls. */
  predicate Chronological(events: seq<Event>) {
    forall j, k | 0 <= j < k < |events| ::
      var a, b := events[j].content, events[k].content;
      a.at < b.at || (a.at == b.at && (a.kind.KindApproval? || b.kind.KindToolCall? || (a.kind.KindModelCall? && b.kind.KindModelCall?)))
  }

  /** Each record is an event with its own details, at its own time: a decided approval at the decision, a pending one at the request. */
  ghost predicate TellsAll(d: RunData, events: seq<Event>) {
    && |events| == |d.ledger| + |d.toolCalls| + |d.approvals|
    && (forall i | 0 <= i < |d.ledger| :: var e := d.ledger[i];
          Appears(events, KindModelCall, e.createdAt,
                  CallDetail(e.stepIndex, e.provider, e.model, e.prompt, e.completion, e.dollars)))
    && (forall i | 0 <= i < |d.toolCalls| :: var c := d.toolCalls[i];
          Appears(events, KindToolCall, c.createdAt, ToolDetail(c.call.stepIndex, c.call.tool, c.call.sideEffect, c.status)))
    && (forall i | 0 <= i < |d.approvals| :: var a := d.approvals[i];
          && (a.decidedAt.Some? ==> Appears(events, KindApproval, a.decidedAt.value,
                                            ApprovalDetail(a.call.tool, a.call.sideEffect, a.status, a.decidedBy)))
          && (a.decidedAt.None? ==> Appears(events, KindApproval, a.createdAt,
                                            ApprovalDetail(a.call.tool, a.call.sideEffect, a.status, a.decidedBy))))
  }

  lemma RecordAppears(d: RunData, events: seq<Event>, rs: seq<Raw>, sorted: seq<Raw>, order: seq<nat>, i: nat)
    requires AllRecords(d, rs) && ArrangedBy(rs, order, sorted) && Numbers(sorted, events) && i < Size(d)
    ensures Appears(events, RecordAt(d, i).kind, RecordAt(d, i).at, RecordAt(d, i).detail)
  {
    assert Occurs(order, i);
    var k :| 0 <= k < |order| && order[k] == i;
    assert events[k].content == Content(k, RecordAt(d, i).kind, RecordAt(d, i).at, RecordAt(d, i).detail);
  }

  /** What the log tells, without the sort and the flattening. */
  lemma LogTells(d: RunData, events: seq<Event>)
    requires LogOf(d, events)
    ensures Chronological(events) && TellsAll(d, events)
  {
    var rs, sorted :| AllRecords(d, rs) && StablySorted(rs, sorted) && Numbers(sorted, events);
    var order :| ArrangedBy(rs, order, sorted);
    forall j, k | 0 <= j < k < |events| ensures !Less(sorted[k], sorted[j]) {
      assert Before(rs, order[j], order[k]);
    }
    forall i | 0 <= i < |d.ledger|
      ensures var e := OfCall(d.ledger[i]); Appears(events, e.kind, e.at, e.detail)
    {
      RecordAppears(d, events, rs, sorted, order, i);
    }
    forall i | 0 <= i < |d.toolCalls|
      ensures var e := OfTool(d.toolCalls[i]); Appears(events, e.kind, e.at, e.detail)
    {
      RecordAppears(d, events, rs, sorted, order, |d.ledger| + i);
    }
    forall i | 0 <= i < |d.approvals|
      ensures var e := OfApproval(d.approvals[i]); Appears(events, e.kind, e.at, e.detail)
    {
      RecordAppears(d, events, rs, sorted, order, |d.ledger| + |d.toolCalls| + i);
    }
  }

  /** Chains the records in the order given. */
  method Chain(sorted: seq<Raw>, sha: Sha, enc: Encoder) returns (events: seq<Event>)
    ensures Numbers(sorted, events) && Linked(sha, enc, events)
  {
    events := [];
    var prev := "";
    for i := 0 to |sorted|
      invariant |events| == i && prev == Head(events)
      invariant forall k | 0 <= k < i :: events[k].content == Content(k, sorted[k].kind, sorted[k].at, sorted[k].detail)
      invariant Linked(sha, enc, events)
    {
      var c := Content(i, sorted[i].kind, sorted[i].at, sorted[i].detail);
      var h := ChainHash(sha, enc, prev, c);
      assert (events + [Event(c, h)])[..i] == events;
      events := events + [Event(c, h)];
      prev := h;
    }
  }

  method BuildEvents(d: RunData, sha: Sha, enc: Encoder) returns (events: seq<Event>)
    ensures LogOf(d, events)
    ensures Chronological(events) && TellsAll(d, events)
    ensures Linked(sha, enc, events)
  {
    var rs := Flatten(d);
    var sorted := SortStable(rs);
    events := Chain(sorted, sha, enc);
    assert AllRecords(d, rs) && StablySorted(rs, sorted) && Numbers(sorted, events);
    LogTells(d, events);
  }

  datatype Verdict = Intact | Mismatch(index: nat) | HeadMismatch

  /** Re-derives the chain: names the first event whose hash is wrong, if any. */
  method VerifyChain(sha: Sha, enc: Encoder, events: seq<Event>, head: string) returns (v: Verdict)
    ensures v == Intact <==> Linked(sha, enc, events) && Head(events) == head
    ensures v == HeadMismatch <==> Linked(sha, enc, events) && Head(events) != head
    ensures v.Mismatch? ==>
              && v.index < |events| && Linked(sha, enc, events[..v.index])
              && events[v.index].hash != ChainHash(sha, enc, Head(events[..v.index]), events[v.index].content)
  {
    var prev := "";
    for i := 0 to |events|
      invariant prev == Head(events[..i]) && Linked(sha, enc, events[..i])
    {
      var want := ChainHash(sha, enc, prev, events[i].content);
      if want != events[i].hash {
        if Linked(sha, enc, events) {
          LinkedPrefix(sha, enc, events, i);
        }
        return Mismatch(i);
      }
      assert events[..i + 1][..i] == events[..i];
      prev := events[i].hash;
    }
    assert events[..|events|] == events;
    if prev != head {
      return HeadMismatch;
    }
    v := Intact;
  }

  // ----- what the chain guarantees -----

  predicate HexDigit(c: char) {
    '0' <= c <= '9' || 'a' <= c <= 'f'
  }

  const DIGEST_LENGTH := 64

  /** A digest is 64 hex digits. */
  ghost predicate Digests(sha: Sha) {
    forall s: string :: |sha(s)| == DIGEST_LENGTH && HexDigit(sha(s)[0])
  }

  /** Canonical JSON of these two logs: their distinct contents have distinct texts, and each text opens with a brace. */
  predicate Encodes(enc: Encoder, a: seq<Event>, b: seq<Event>) {
    && (forall i, j | 0 <= i < |a| && 0 <= j < |b| ::
          enc(a[i].content) == enc(b[j].content) ==> a[i].content == b[j].content)
    && (forall i | 0 <= i < |a| :: Opens(enc(a[i].content)))
    && (forall j | 0 <= j < |b| :: Opens(enc(b[j].content)))
  }

  predicate Opens(text: string) {
    text != "" && text[0] == '{'
  }

  /** The first position of a content in a log, or its length. */
  function Position(events: seq<Event>, c: Content): (k: nat)
    ensures k <= |events| && (k < |events| ==> events[k].content == c)
    ensures k == |events| ==> forall i | 0 <= i < |events| :: events[i].content != c
  {
    if events == [] then 0
    else if events[0].content == c then 0
    else 1 + Position(events[1..], c)
  }

  /** Any two logs have such an encoding. */
  lemma SomeEncodingExists(a: seq<Event>, b: seq<Event>) returns (enc: Encoder)
    ensures Encodes(enc, a, b)
  {
    enc := (c: Content) => "{" + seq(Position(a + b, c), _ => '1');
    forall i, j | 0 <= i < |a| && 0 <= j < |b| && enc(a[i].content) == enc(b[j].content)
      ensures a[i].content == b[j].content
    {
      var k, l := Position(a + b, a[i].content), Position(a + b, b[j].content);
      assert |enc(a[i].content)| == 1 + k && |enc(b[j].content)| == 1 + l;
      assert (a + b)[i].content == a[i].content && (a + b)[|a| + j].content == b[j].content;
    }
  }

  /** The string hashed for event i. */
  function Hashed(enc: Encoder, events: seq<Event>, i: nat): string
    requires i < |events|
  {
    Head(events[..i]) + enc(events[i].content)
  }

  /** Two different strings hashed for these two logs have one digest. */
  ghost predicate Collision(sha: Sha, enc: Encoder, a: seq<Event>, b: seq<Event>) {
    exists i, j :: 0 <= i < |a| && 0 <= j < |b| && Clash(sha, Hashed(enc, a, i), Hashed(enc, b, j))
  }

  predicate Clash(sha: Sha, x: string, y: string) {
    x != y && sha(x) == sha(y)
  }

  /** A previous hash is empty or starts with a hex digit, so the hashed text splits in one way only. */
  lemma SplitsOneWay(sha: Sha, p: string, a: string, q: string, b: string, x: string, y: string)
    requires Digests(sha) && Opens(a) && Opens(b) && p + a == q + b
    requires (p == "" || p == sha(x)) && (q == "" || q == sha(y))
    ensures p == q && a == b
  {
    assert |p| == |q| by {
      assert (p + a)[0] == (q + b)[0];
    }
    assert p == (p + a)[..|p|] && q == (q + b)[..|q|];
    assert a == (p + a)[|p|..] && b == (q + b)[|q|..];
  }

  /** In a linked log the previous hash is empty or a digest. */
  lemma HeadIsDigest(sha: Sha, enc: Encoder, events: seq<Event>) returns (x: string)
    requires Linked(sha, enc, events)
    ensures Head(events) == "" <== events == []
    ensures Head(events) == sha(x) <== events != []
  {
    if events != [] {
      x := Head(events[..|events| - 1]) + enc(events[|events| - 1].content);
    } else {
      x := "";
    }
  }

  lemma CollisionOfLonger(sha: Sha, enc: Encoder, a: seq<Event>, b: seq<Event>)
    requires a != [] && b != [] && Collision(sha, enc, a[..|a| - 1], b[..|b| - 1])
    ensures Collision(sha, enc, a, b)
  {
    var a', b' := a[..|a| - 1], b[..|b| - 1];
    var i, j :| 0 <= i < |a'| && 0 <= j < |b'| && Clash(sha, Hashed(enc, a', i), Hashed(enc, b', j));
    assert a'[..i] == a[..i] && b'[..j] == b[..j];
    assert Clash(sha, Hashed(enc, a, i), Hashed(enc, b, j));
  }

  /**
   Tamper evidence. Two logs of any lengths that both verify against one head are the same
   log, or exhibit a collision of the hash: any edit, reorder, truncation or append is caught.
   */
  lemma {:induction false} TamperEvident(sha: Sha, enc: Encoder, a: seq<Event>, b: seq<Event>)
    requires Digests(sha) && Encodes(enc, a, b) && Linked(sha, enc, a) && Linked(sha, enc, b) && Head(a) == Head(b)
    ensures a == b || Collision(sha, enc, a, b)
    decreases |a|
  {
    var xa := HeadIsDigest(sha, enc, a);
    var xb := HeadIsDigest(sha, enc, b);
    if a != [] && b != [] {
      var m, n := |a| - 1, |b| - 1;
      if Hashed(enc, a, m) != Hashed(enc, b, n) {
        assert Clash(sha, Hashed(enc, a, m), Hashed(enc, b, n));
      } else {
        var ya := HeadIsDigest(sha, enc, a[..m]);
        var yb := HeadIsDigest(sha, enc, b[..n]);
        SplitsOneWay(sha, Head(a[..m]), enc(a[m].content), Head(b[..n]), enc(b[n].content), ya, yb);
        TamperEvident(sha, enc, a[..m], b[..n]);
        if a[..m] == b[..n] {
          assert a == a[..m] + [a[m]] && b == b[..n] + [b[n]];
        } else {
          CollisionOfLonger(sha, enc, a, b);
        }
      }
    }
  }

  /** The export is determined by the data: whatever stable sort is used, the log and its head are the same. */
  lemma {:induction false} LogIsDetermined(d: RunData, sha: Sha, enc: Encoder, a: seq<Event>, b: seq<Event>)
    requires LogOf(d, a) && Linked(sha, enc, a) && LogOf(d, b) && Linked(sha, enc, b)
    ensures a == b && Head(a) == Head(b)
  {
    var rs, sorted :| AllRecords(d, rs) && StablySorted(rs, sorted) && Numbers(sorted, a);
    var rs', sorted' :| AllRecords(d, rs') && StablySorted(rs', sorted') && Numbers(sorted', b);
    assert rs == rs';
    OneStableSort(rs, sorted, sorted');
    SameContentsSameLog(sha, enc, a, b);
  }

  lemma {:induction false} SameContentsSameLog(sha: Sha, enc: Encoder, a: seq<Event>, b: seq<Event>)
    requires Linked(sha, enc, a) && Linked(sha, enc, b) && |a| == |b|
    requires forall k | 0 <= k < |a| :: a[k].content == b[k].content
    ensures a == b
    decreases |a|
  {
    if a != [] {
      var n := |a| - 1;
      SameContentsSameLog(sha, enc, a[..n], b[..n]);
      assert a == a[..n] + [a[n]] && b == b[..n] + [b[n]];
    }
  }
}
