/**
 Escaping and sample lines of the Prometheus text exposition format, version 0.0.4: in a
 label value backslash, double quote and newline are escaped; in a HELP text the first and last.
 */
module Metrics {
  import opened Prelude

  const BACKSLASH: char := '\\'
  const QUOTE: char := '\"'
  const NEWLINE: char := '\n'

  /** strings.ReplaceAll for a one-character pattern. */
  function ReplaceAll(s: string, c: char, text: string): string {
    if s == "" then "" else (if s[0] == c then text else [s[0]]) + ReplaceAll(s[1..], c, text)
  }

  function EscapeLabelValue(s: string): string {
    var a := ReplaceAll(s, BACKSLASH, [BACKSLASH, BACKSLASH]);
    var b := ReplaceAll(a, QUOTE, [BACKSLASH, QUOTE]);
    ReplaceAll(b, NEWLINE, [BACKSLASH, 'n'])
  }

  function EscapeHelp(s: string): string {
    ReplaceAll(ReplaceAll(s, BACKSLASH, [BACKSLASH, BACKSLASH]), NEWLINE, [BACKSLASH, 'n'])
  }

  // ----- the three passes are one -----

  function EscapedChar(c: char, quotes: bool): string {
    if c == BACKSLASH then [BACKSLASH, BACKSLASH]
    else if c == QUOTE && quotes then [BACKSLASH, QUOTE]
    else if c == NEWLINE then [BACKSLASH, 'n']
    else [c]
  }

  /** One pass, character by character. */
  function Escaped(s: string, quotes: bool): string {
    if s == "" then "" else EscapedChar(s[0], quotes) + Escaped(s[1..], quotes)
  }

  lemma {:induction false} ReplaceConcat(a: string, b: string, c: char, text: string)
    ensures ReplaceAll(a + b, c, text) == ReplaceAll(a, c, text) + ReplaceAll(b, c, text)
  {
    if a == "" {
      assert a + b == b;
    } else {
      assert (a + b)[1..] == a[1..] + b;
      ReplaceConcat(a[1..], b, c, text);
    }
  }

  lemma ReplaceTwo(x: char, y: char, c: char, text: string)
    ensures ReplaceAll([x], c, text) == if x == c then text else [x]
    ensures ReplaceAll([x, y], c, text) == ReplaceAll([x], c, text) + ReplaceAll([y], c, text)
  {
    assert [x, y][1..] == [y];
    assert [x][1..] == "" && [y][1..] == "";
  }

  /** Later passes never touch what earlier ones wrote: the backslash pass has to come first. */
  lemma {:induction false} ThreePassesAreOne(s: string)
    ensures EscapeLabelValue(s) == Escaped(s, true)
    ensures EscapeHelp(s) == Escaped(s, false)
  {
    if s != "" {
      ThreePassesAreOne(s[1..]);
      var a0 := if s[0] == BACKSLASH then [BACKSLASH, BACKSLASH] else [s[0]];
      var a1 := ReplaceAll(s[1..], BACKSLASH, [BACKSLASH, BACKSLASH]);
      ReplaceConcat(a0, a1, QUOTE, [BACKSLASH, QUOTE]);
      ReplaceConcat(a0, a1, NEWLINE, [BACKSLASH, 'n']);
      var b0 := ReplaceAll(a0, QUOTE, [BACKSLASH, QUOTE]);
      ReplaceConcat(b0, ReplaceAll(a1, QUOTE, [BACKSLASH, QUOTE]), NEWLINE, [BACKSLASH, 'n']);
      OneCharacter(s[0]);
    }
  }

  lemma OneCharacter(c: char)
    ensures var a := if c == BACKSLASH then [BACKSLASH, BACKSLASH] else [c];
            && ReplaceAll(ReplaceAll(a, QUOTE, [BACKSLASH, QUOTE]), NEWLINE, [BACKSLASH, 'n']) == EscapedChar(c, true)
            && ReplaceAll(a, NEWLINE, [BACKSLASH, 'n']) == EscapedChar(c, false)
  {
    ReplaceTwo(BACKSLASH, BACKSLASH, QUOTE, [BACKSLASH, QUOTE]);
    ReplaceTwo(BACKSLASH, BACKSLASH, NEWLINE, [BACKSLASH, 'n']);
    ReplaceTwo(BACKSLASH, QUOTE, NEWLINE, [BACKSLASH, 'n']);
    ReplaceTwo(c, c, QUOTE, [BACKSLASH, QUOTE]);
    ReplaceTwo(c, c, NEWLINE, [BACKSLASH, 'n']);
  }

  // ----- reading it back -----

  /** What a scraper reads up to the closing quote of a label value, or to the end of a HELP line: the text and what follows. */
  function ReadText(t: string, close: char): (r: Option<(string, string)>)
    ensures r.Some? ==> |r.value.1| < |t|
  {
    if t == "" then None
    else if t[0] == close then Some(("", t[1..]))
    else if t[0] == '\n' then None
    else if t[0] != '\\' then
      match ReadText(t[1..], close)
      case None => None
      case Some((v, rest)) => Some(([t[0]] + v, rest))
    else if |t| < 2 || !(t[1] == '\\' || t[1] == 'n' || (t[1] == '\"' && close == '\"')) then None
    else
      match ReadText(t[2..], close)
      case None => None
      case Some((v, rest)) => Some(([if t[1] == 'n' then '\n' else t[1]] + v, rest))
  }

  lemma ThreeParts(b: string, x: string, y: string, z: string)
    ensures b + x + y + z == b + (x + y + z)
  {
  }

  /** Any text whatever reads back as itself, and ends exactly where the writer closed it. */
  lemma {:induction false} EscapedReadsBack(s: string, quotes: bool, rest: string)
    ensures var close := if quotes then '\"' else '\n'; ReadText(Escaped(s, quotes) + [close] + rest, close) == Some((s, rest))
  {
    var close := if quotes then '\"' else '\n';
    var t := Escaped(s, quotes) + [close] + rest;
    if s == "" {
      assert t[1..] == rest;
    } else {
      EscapedReadsBack(s[1..], quotes, rest);
      var tail := Escaped(s[1..], quotes) + [close] + rest;
      var head := EscapedChar(s[0], quotes);
      ThreeParts(head, Escaped(s[1..], quotes), [close], rest);
      assert t == head + tail;
      assert t[|head|..] == tail;
      assert [s[0]] + s[1..] == s;
    }
  }

  lemma LabelValueReadsBack(s: string, rest: string)
    ensures ReadText(EscapeLabelValue(s) + "\"" + rest, '\"') == Some((s, rest))
  {
    ThreePassesAreOne(s);
    EscapedReadsBack(s, true, rest);
  }

  /** A HELP text too, from the line it is on; there a quote stands for itself. */
  lemma HelpReadsBack(s: string, rest: string)
    ensures ReadText(EscapeHelp(s) + "\n" + rest, '\n') == Some((s, rest))
  {
    ThreePassesAreOne(s);
    EscapedReadsBack(s, false, rest);
  }

  /** No raw newline can come out of either escape. */
  lemma {:induction false} EscapedHasNoNewline(s: string, quotes: bool)
    ensures '\n' !in Escaped(s, quotes)
  {
    if s != "" {
      EscapedHasNoNewline(s[1..], quotes);
    }
  }

  // ----- label keys in order -----

  /** Lexicographic order. */
  predicate StringLess(a: string, b: string) {
    b != "" && (a == "" || a[0] < b[0] || (a[0] == b[0] && StringLess(a[1..], b[1..])))
  }

  ghost predicate Agree(a: string, b: string, i: nat) {
    i <= |a| && i <= |b| && forall k | 0 <= k < i :: a[k] == b[k]
  }

  /** One string comes first if it is the shorter of two that agree, or smaller where they first differ. */
  lemma {:induction false} StringLessIff(a: string, b: string)
    ensures StringLess(a, b)
       <==> exists i: nat :: Agree(a, b, i) && i < |b| && (i == |a| || (i < |a| && a[i] < b[i]))
  {
    if a == "" || b == "" {
      assert Agree(a, b, 0);
    } else if a[0] == b[0] {
      var a', b' := a[1..], b[1..];
      StringLessIff(a', b');
      if StringLess(a', b') {
        var i: nat :| Agree(a', b', i) && i < |b'| && (i == |a'| || (i < |a'| && a'[i] < b'[i]));
        assert forall k | 0 < k < i + 1 :: a[k] == a'[k - 1] && b[k] == b'[k - 1];
        assert Agree(a, b, i + 1);
      }
      if i: nat :| Agree(a, b, i) && i < |b| && (i == |a| || (i < |a| && a[i] < b[i])) {
        assert i > 0 && Agree(a', b', i - 1);
      }
    } else {
      assert Agree(a, b, 0);
    }
  }

  lemma {:induction false} StringLessTransitive(a: string, b: string, c: string)
    requires StringLess(a, b) && StringLess(b, c)
    ensures StringLess(a, c)
  {
    if a != "" && a[0] == b[0] == c[0] {
      StringLessTransitive(a[1..], b[1..], c[1..]);
    }
  }

  lemma {:induction false} StringLessTotal(a: string, b: string)
    ensures a != b ==> StringLess(a, b) || StringLess(b, a)
    ensures !(StringLess(a, b) && StringLess(b, a)) && !StringLess(a, a)
  {
    if a != "" {
      StringLessTotal(a[1..], a[1..]);
      if b != "" && a[0] == b[0] {
        StringLessTotal(a[1..], b[1..]);
        assert a == [a[0]] + a[1..] && b == [b[0]] + b[1..];
      }
    }
  }

  /** Every key once, in increasing order. */
  ghost predicate SortedListing(keys: seq<string>, all: set<string>) {
    && (forall k | k in all :: Listed(keys, k))
    && (forall i | 0 <= i < |keys| :: keys[i] in all)
    && (forall i, j | 0 <= i < j < |keys| :: StringLess(keys[i], keys[j]))
  }

  ghost predicate Listed(keys: seq<string>, k: string) {
    exists i :: 0 <= i < |keys| && keys[i] == k
  }

  /** The position of a new key among sorted ones. */
  method Place(keys: seq<string>, k: string, ghost all: set<string>) returns (p: nat)
    requires SortedListing(keys, all) && k !in all
    ensures p <= |keys|
    ensures forall i | 0 <= i < p :: StringLess(keys[i], k)
    ensures forall i | p <= i < |keys| :: StringLess(k, keys[i])
  {
    p := 0;
    while p < |keys| && StringLess(keys[p], k)
      invariant p <= |keys| && forall i | 0 <= i < p :: StringLess(keys[i], k)
    {
      p := p + 1;
    }
    forall i | p <= i < |keys| ensures StringLess(k, keys[i]) {
      StringLessTotal(keys[p], k);
      if i > p {
        StringLessTransitive(k, keys[p], keys[i]);
      }
    }
  }

  lemma PlacedStaysSorted(keys: seq<string>, k: string, p: nat, all: set<string>)
    requires SortedListing(keys, all) && p <= |keys|
    requires forall i | 0 <= i < p :: StringLess(keys[i], k)
    requires forall i | p <= i < |keys| :: StringLess(k, keys[i])
    ensures SortedListing(keys[..p] + [k] + keys[p..], all + {k})
  {
    var more := keys[..p] + [k] + keys[p..];
    assert more[p] == k;
    forall key | key in all ensures Listed(more, key) {
      assert Listed(keys, key);
      var i :| 0 <= i < |keys| && keys[i] == key;
      assert more[if i < p then i else i + 1] == key;
    }
  }

  /** The map's keys, whatever order they are visited in. */
  method SortedKeys(all: set<string>) returns (keys: seq<string>)
    ensures SortedListing(keys, all)
  {
    keys := [];
    var todo := all;
    while todo != {}
      invariant todo <= all && SortedListing(keys, all - todo)
    {
      var k :| k in todo;
      var p := Place(keys, k, all - todo);
      PlacedStaysSorted(keys, k, p, all - todo);
      keys := keys[..p] + [k] + keys[p..];
      todo := todo - {k};
      assert all - todo == (all - (todo + {k})) + {k};
    }
    assert all - todo == all;
  }

  /** So a scrape does not depend on map iteration: the sorted listing is unique. */
  lemma {:induction false} OneSortedListing(a: seq<string>, b: seq<string>, all: set<string>)
    requires SortedListing(a, all) && SortedListing(b, all)
    ensures a == b
    decreases |a|
  {
    if a == [] {
      if b != [] {
        assert false;
      }
    } else {
      assert Listed(b, a[0]);
      assert b != [] && Listed(a, b[0]);
      StringLessTotal(a[0], b[0]);
      assert a[0] == b[0];
      SortedTail(a, all);
      SortedTail(b, all);
      OneSortedListing(a[1..], b[1..], all - {a[0]});
      assert a == [a[0]] + a[1..] && b == [b[0]] + b[1..];
    }
  }

  lemma SortedTail(a: seq<string>, all: set<string>)
    requires a != [] && SortedListing(a, all)
    ensures SortedListing(a[1..], all - {a[0]})
  {
    forall k | k in all - {a[0]} ensures Listed(a[1..], k) {
      assert Listed(a, k);
      var i :| 0 <= i < |a| && a[i] == k;
      assert a[1..][i - 1] == k;
    }
    forall i | 0 <= i < |a| - 1 ensures a[1..][i] in all - {a[0]} {
      StringLessTotal(a[0], a[i + 1]);
    }
  }

  // ----- a sample line -----

  datatype Label = Label(key: string, value: string)

  function LabelsOf(keys: seq<string>, labels: map<string, string>): seq<Label>
    requires forall i | 0 <= i < |keys| :: keys[i] in labels
  {
    seq(|keys|, i requires 0 <= i < |keys| => Label(keys[i], labels[keys[i]]))
  }

  function Pair(l: Label): string {
    l.key + "=" + [QUOTE] + EscapeLabelValue(l.value) + [QUOTE]
  }

  function MorePairs(labels: seq<Label>): string {
    if labels == [] then "" else "," + Pair(labels[0]) + MorePairs(labels[1..])
  }

  /** The label block: braces around comma-separated pairs, or nothing. */
  function Block(labels: seq<Label>): string {
    if labels == [] then "" else "{" + Pair(labels[0]) + MorePairs(labels[1..]) + "}"
  }

  function SampleLine(name: string, labels: seq<Label>, value: string): string {
    name + Block(labels) + " " + value + [NEWLINE]
  }

  lemma BlockAtTheEnd(b: string, labels: seq<Label>)
    requires labels != []
    ensures b + "{" + Pair(labels[0]) + MorePairs(labels[1..]) + "}" == b + Block(labels)
  {
    FourParts(b, "{", Pair(labels[0]), MorePairs(labels[1..]), "}");
  }

  lemma FourParts(b: string, x: string, y: string, z: string, u: string)
    ensures b + x + y + z + u == b + (x + y + z + u)
  {
  }

  lemma OneMorePair(b: string, labels: seq<Label>)
    requires labels != []
    ensures b + "," + Pair(labels[0]) + MorePairs(labels[1..]) == b + MorePairs(labels)
  {
    ThreeParts(b, ",", Pair(labels[0]), MorePairs(labels[1..]));
  }

  /** The builder. */
  class MetricsWriter {
    var b: string

    constructor ()
      ensures b == ""
    {
      b := "";
    }

    method WritePair(l: Label)
      modifies this
      ensures b == old(b) + Pair(l)
    {
      b := b + l.key;
      b := b + "=" + [QUOTE];
      b := b + EscapeLabelValue(l.value);
      b := b + [QUOTE];
    }

    /** The pairs, a comma before each but the first. */
    method WritePairs(labels: seq<Label>)
      requires labels != []
      modifies this
      ensures b == old(b) + Pair(labels[0]) + MorePairs(labels[1..])
    {
      ghost var all := b + Pair(labels[0]) + MorePairs(labels[1..]);
      for i := 0 to |labels|
        invariant i == 0 ==> b == old(b)
        invariant i > 0 ==> b + MorePairs(labels[i..]) == all
      {
        if i > 0 {
          OneMorePair(b, labels[i..]);
          assert labels[i..][1..] == labels[i + 1..];
          b := b + ",";
        }
        WritePair(labels[i]);
      }
      assert labels[|labels|..] == [] && b + "" == b;
    }

    method WriteBlock(labels: seq<Label>)
      requires labels != []
      modifies this
      ensures b == old(b) + Block(labels)
    {
      b := b + "{";
      WritePairs(labels);
      b := b + "}";
      BlockAtTheEnd(old(b), labels);
    }

    method WriteLine(name: string, labels: seq<Label>, value: string)
      modifies this
      ensures b == old(b) + SampleLine(name, labels, value)
    {
      b := b + name;
      if |labels| > 0 {
        WriteBlock(labels);
      }
      assert b == old(b) + (name + Block(labels));
      b := b + " ";
      b := b + value;
      b := b + [NEWLINE];
    }

    method Sample(name: string, labels: map<string, string>, value: string)
      modifies this
      ensures exists keys :: SortedListing(keys, labels.Keys) && b == old(b) + SampleLine(name, LabelsOf(keys, labels), value)
    {
      var keys := SortedKeys(labels.Keys);
      WriteLine(name, LabelsOf(keys, labels), value);
    }
  }

  // ----- reading the line back -----

  /** The label name before its equals sign. */
  function ReadKey(t: string): (r: Option<(string, string)>)
    ensures r.Some? ==> |r.value.1| < |t|
  {
    if t == "" then None
    else if t[0] == '=' then Some(("", t[1..]))
    else
      match ReadKey(t[1..])
      case None => None
      case Some((k, rest)) => Some(([t[0]] + k, rest))
  }

  function ReadPair(t: string): (r: Option<(Label, string)>)
    ensures r.Some? ==> |r.value.1| < |t|
  {
    match ReadKey(t)
    case None => None
    case Some((k, rest)) =>
      if rest == "" || rest[0] != '\"' then None
      else
        match ReadText(rest[1..], '\"')
        case None => None
        case Some((v, more)) => Some((Label(k, v), more))
  }

  function ReadMorePairs(t: string): Option<(seq<Label>, string)>
    decreases |t|
  {
    if t == "" then None
    else if t[0] == '}' then Some(([], t[1..]))
    else if t[0] != ',' then None
    else
      match ReadPair(t[1..])
      case None => None
      case Some((l, rest)) =>
        match ReadMorePairs(rest)
        case None => None
        case Some((ls, more)) => Some(([l] + ls, more))
  }

  /** The labels of a sample, and what follows the block. */
  function ReadBlock(t: string): Option<(seq<Label>, string)> {
    if t == "" || t[0] != '{' then Some(([], t))
    else
      match ReadPair(t[1..])
      case None => None
      case Some((l, rest)) =>
        match ReadMorePairs(rest)
        case None => None
        case Some((ls, more)) => Some(([l] + ls, more))
  }

  lemma {:induction false} KeyReadsBack(k: string, rest: string)
    requires '=' !in k
    ensures ReadKey(k + "=" + rest) == Some((k, rest))
  {
    var t := k + "=" + rest;
    if k == "" {
      assert t[1..] == rest;
    } else {
      KeyReadsBack(k[1..], rest);
      assert t[1..] == k[1..] + "=" + rest;
      assert [k[0]] + k[1..] == k;
    }
  }

  lemma PairReadsBack(l: Label, rest: string)
    requires '=' !in l.key
    ensures ReadPair(Pair(l) + rest) == Some((l, rest))
  {
    var tail := EscapeLabelValue(l.value) + [QUOTE] + rest;
    assert Pair(l) + rest == l.key + "=" + ([QUOTE] + tail);
    KeyReadsBack(l.key, [QUOTE] + tail);
    assert ([QUOTE] + tail)[1..] == tail;
    LabelValueReadsBack(l.value, rest);
  }

  lemma Regroup(open: string, pair: string, more: string, close: string, rest: string)
    ensures open + pair + more + close + rest == open + (pair + (more + close + rest))
  {
  }

  lemma {:induction false} MorePairsReadBack(labels: seq<Label>, rest: string)
    requires forall i | 0 <= i < |labels| :: '=' !in labels[i].key
    ensures ReadMorePairs(MorePairs(labels) + "}" + rest) == Some((labels, rest))
  {
    var t := MorePairs(labels) + "}" + rest;
    if labels == [] {
      assert t[1..] == rest;
    } else {
      MorePairsReadBack(labels[1..], rest);
      var tail := MorePairs(labels[1..]) + "}" + rest;
      Regroup(",", Pair(labels[0]), MorePairs(labels[1..]), "}", rest);
      assert t == "," + (Pair(labels[0]) + tail);
      assert t[1..] == Pair(labels[0]) + tail;
      PairReadsBack(labels[0], tail);
      assert [labels[0]] + labels[1..] == labels;
    }
  }

  /** Whatever the label values are, a scraper reads back exactly the labels written: no value can forge or hide one. */
  lemma BlockReadsBack(labels: seq<Label>, rest: string)
    requires labels != [] && forall i | 0 <= i < |labels| :: '=' !in labels[i].key
    ensures ReadBlock(Block(labels) + rest) == Some((labels, rest))
  {
    var t, tail := Block(labels) + rest, MorePairs(labels[1..]) + "}" + rest;
    Regroup("{", Pair(labels[0]), MorePairs(labels[1..]), "}", rest);
    assert t == "{" + (Pair(labels[0]) + tail);
    assert t[1..] == Pair(labels[0]) + tail;
    PairReadsBack(labels[0], tail);
    MorePairsReadBack(labels[1..], rest);
    assert [labels[0]] + labels[1..] == labels;
  }

  lemma {:induction false} PairsHaveNoNewline(labels: seq<Label>)
    requires forall i | 0 <= i < |labels| :: '\n' !in labels[i].key
    ensures '\n' !in MorePairs(labels)
  {
    if labels != [] {
      PairsHaveNoNewline(labels[1..]);
      ThreePassesAreOne(labels[0].value);
      EscapedHasNoNewline(labels[0].value, true);
    }
  }

  /** The metric name: up to its labels, or to the blank before the value. */
  function ReadName(t: string): (string, string) {
    if t == "" || t[0] == '{' || t[0] == ' ' then ("", t)
    else
      var (name, rest) := ReadName(t[1..]);
      ([t[0]] + name, rest)
  }

  datatype Reading = Reading(name: string, labels: seq<Label>, value: string)

  /** A whole sample, and what follows its line. */
  function ReadSample(t: string): Option<(Reading, string)> {
    var (name, labelled) := ReadName(t);
    match ReadBlock(labelled)
    case None => None
    case Some((labels, more)) =>
      if more == "" || more[0] != ' ' then None
      else
        match ReadText(more[1..], '\n')
        case None => None
        case Some((value, rest)) => Some((Reading(name, labels, value), rest))
  }

  lemma {:induction false} NameReadsBack(name: string, rest: string)
    requires '{' !in name && ' ' !in name && rest != "" && (rest[0] == '{' || rest[0] == ' ')
    ensures ReadName(name + rest) == (name, rest)
  {
    if name == "" {
      assert name + rest == rest;
    } else {
      NameReadsBack(name[1..], rest);
      assert (name + rest)[1..] == name[1..] + rest;
      assert [name[0]] + name[1..] == name;
    }
  }

  /** A formatted number has nothing to escape. */
  lemma {:induction false} NumberReadsBack(value: string, rest: string)
    requires '\n' !in value && '\\' !in value
    ensures ReadText(value + "\n" + rest, '\n') == Some((value, rest))
  {
    var t := value + "\n" + rest;
    if value == "" {
      assert t[1..] == rest;
    } else {
      NumberReadsBack(value[1..], rest);
      assert t[1..] == value[1..] + "\n" + rest;
      assert [value[0]] + value[1..] == value;
    }
  }

  lemma LineParts(name: string, block: string, value: string, rest: string)
    ensures name + block + " " + value + [NEWLINE] + rest == name + (block + (" " + (value + "\n" + rest)))
  {
    assert [NEWLINE] == "\n";
  }

  /**
   The line of a sample reads back as its name, its value, and every label of the map with the
   value the map gives it, once each and sorted by key.
   */
  lemma SampleReadsBack(name: string, keys: seq<string>, labels: map<string, string>, value: string, rest: string)
    requires SortedListing(keys, labels.Keys) && '{' !in name && ' ' !in name && '\n' !in value && '\\' !in value
    requires forall k | k in labels :: '=' !in k
    ensures var r := ReadSample(SampleLine(name, LabelsOf(keys, labels), value) + rest);
            && r.Some? && r.value.1 == rest && r.value.0.name == name && r.value.0.value == value
            && var read := r.value.0.labels;
            && (forall i | 0 <= i < |read| :: read[i].key in labels && read[i].value == labels[read[i].key])
            && (forall k | k in labels :: exists i :: 0 <= i < |read| && read[i].key == k)
            && (forall i, j | 0 <= i < j < |read| :: StringLess(read[i].key, read[j].key))
  {
    var ls := LabelsOf(keys, labels);
    var tail := " " + (value + "\n" + rest);
    LineParts(name, Block(ls), value, rest);
    assert tail[1..] == value + "\n" + rest;
    NumberReadsBack(value, rest);
    if ls == [] {
      assert Block(ls) + tail == tail;
    } else {
      BlockReadsBack(ls, tail);
    }
    NameReadsBack(name, Block(ls) + tail);
    assert ReadSample(SampleLine(name, ls, value) + rest) == Some((Reading(name, ls, value), rest));
    forall k | k in labels ensures exists i :: 0 <= i < |ls| && ls[i].key == k {
      assert Listed(keys, k);
      var i :| 0 <= i < |keys| && keys[i] == k;
      assert ls[i].key == k;
    }
  }

  /** A sample is one line: its only newline is its last character, whatever the label values. */
  lemma {:induction false} SampleIsOneLine(name: string, labels: seq<Label>, value: string)
    requires '\n' !in name && '\n' !in value && forall i | 0 <= i < |labels| :: '\n' !in labels[i].key
    ensures var line := SampleLine(name, labels, value);
            line[|line| - 1] == '\n' && '\n' !in line[..|line| - 1]
  {
    var line := SampleLine(name, labels, value);
    PairsHaveNoNewline(labels);
    if labels != [] {
      PairsHaveNoNewline(labels[1..]);
      ThreePassesAreOne(labels[0].value);
      EscapedHasNoNewline(labels[0].value, true);
    }
    assert line[..|line| - 1] == name + Block(labels) + " " + value;
  }
}
