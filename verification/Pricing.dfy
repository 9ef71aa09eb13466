/** Price tables: built-in rates with overrides on top, matched by the longest case-insensitive prefix. */
module Pricing {
  import opened Prelude

  /** US dollars per million tokens. Rates are not negative: a file with a negative one is rejected on loading. */
  datatype Rate = Rate(inputPerM: Money, outputPerM: Money)

  type Rates = map<string, Rate>

  const DEFAULT_RATES: Rates := map[
    "claude-fable-5" := Rate(10.0, 50.0),
    "claude-opus-4-8" := Rate(5.0, 25.0),
    "claude-opus-4-7" := Rate(5.0, 25.0),
    "claude-opus-4-6" := Rate(5.0, 25.0),
    "claude-opus-4-5" := Rate(5.0, 25.0),
    "claude-opus-4" := Rate(15.0, 75.0),
    "claude-sonnet-4" := Rate(3.0, 15.0),
    "claude-haiku-4" := Rate(1.0, 5.0),
    "claude-3-5-haiku" := Rate(0.8, 4.0),
    "gpt-5.5" := Rate(5.0, 30.0),
    "gpt-5.4-mini" := Rate(0.75, 4.5),
    "gpt-5.4-nano" := Rate(0.2, 1.25),
    "gpt-5.4" := Rate(2.5, 15.0),
    "gpt-4o-mini" := Rate(0.15, 0.6),
    "gpt-4o" := Rate(2.5, 10.0)]

  function LowerChar(c: char): (d: char)
    ensures d as int == if 65 <= c as int <= 90 then c as int + 32 else c as int
  {
    if 'A' <= c <= 'Z' then c - 'A' + 'a' else c
  }

  function Lower(s: string): (t: string)
    ensures |t| == |s| && forall i | 0 <= i < |s| :: t[i] == LowerChar(s[i])
  {
    if s == [] then [] else [LowerChar(s[0])] + Lower(s[1..])
  }

  // ----- filling the table, in whatever order the map is iterated -----

  /** Every key once. */
  ghost predicate Listing(order: seq<string>, keys: set<string>) {
    && (forall k | k in keys :: Listed(order, k))
    && (forall i | 0 <= i < |order| :: order[i] in keys)
    && (forall i, j | 0 <= i < j < |order| :: order[i] != order[j])
  }

  ghost predicate Listed(order: seq<string>, k: string) {
    exists i :: 0 <= i < |order| && order[i] == k
  }

  /** The table after storing the entries in this order, each under its lowercased key. */
  function Filled(base: Rates, source: Rates, order: seq<string>): Rates
    requires forall i | 0 <= i < |order| :: order[i] in source
  {
    if order == [] then base
    else
      var k := order[|order| - 1];
      Filled(base, source, order[..|order| - 1])[Lower(k) := source[k]]
  }

  /** What a loop over the map can leave, for some iteration order. */
  ghost predicate FilledSomehow(base: Rates, source: Rates, rates: Rates) {
    exists order :: Listing(order, source.Keys) && rates == Filled(base, source, order)
  }

  method Fill(base: Rates, source: Rates) returns (rates: Rates)
    ensures FilledSomehow(base, source, rates)
  {
    rates := base;
    ghost var order: seq<string> := [];
    var todo := source.Keys;
    while todo != {}
      invariant todo <= source.Keys && Listing(order, source.Keys - todo)
      invariant rates == Filled(base, source, order)
    {
      var k :| k in todo;
      ghost var was := order;
      order := was + [k];
      assert order[..|was|] == was;
      rates := rates[Lower(k) := source[k]];
      todo := todo - {k};
      ListingMore(was, source.Keys - todo - {k}, k);
      assert source.Keys - todo == (source.Keys - todo - {k}) + {k};
    }
    assert source.Keys - todo == source.Keys;
  }

  lemma ListingMore(order: seq<string>, keys: set<string>, k: string)
    requires Listing(order, keys) && k !in keys
    ensures Listing(order + [k], keys + {k})
  {
    var more := order + [k];
    assert more[|order|] == k;
    forall key | key in keys ensures Listed(more, key) {
      assert Listed(order, key);
      var i :| 0 <= i < |order| && order[i] == key;
      assert more[i] == key;
    }
  }

  /** Built-in rates first, overrides on top. */
  ghost predicate TableOf(overrides: Rates, rates: Rates) {
    exists builtIn :: FilledSomehow(map[], DEFAULT_RATES, builtIn) && FilledSomehow(builtIn, overrides, rates)
  }

  method NewTable(overrides: Rates) returns (rates: Rates)
    ensures TableOf(overrides, rates)
  {
    var m := Fill(map[], DEFAULT_RATES);
    rates := Fill(m, overrides);
  }

  /** A stored entry came from some key, and any key of the source is stored with some rate that collides with it. */
  lemma {:induction false} FilledEntries(base: Rates, source: Rates, order: seq<string>, low: string)
    requires forall i | 0 <= i < |order| :: order[i] in source
    ensures low in Filled(base, source, order) <==> low in base || exists i :: 0 <= i < |order| && Lower(order[i]) == low
    ensures (exists i :: 0 <= i < |order| && Lower(order[i]) == low) ==>
              exists i :: 0 <= i < |order| && Lower(order[i]) == low && Filled(base, source, order)[low] == source[order[i]]
    ensures (forall i | 0 <= i < |order| :: Lower(order[i]) != low) && low in base ==> Filled(base, source, order)[low] == base[low]
  {
    if order != [] {
      var n := |order| - 1;
      var before := order[..n];
      assert forall i | 0 <= i < n :: before[i] == order[i];
      FilledEntries(base, source, before, low);
      if Lower(order[n]) != low && exists i :: 0 <= i < |order| && Lower(order[i]) == low {
        var i :| 0 <= i < |order| && Lower(order[i]) == low;
        assert Lower(before[i]) == low;
        var j :| 0 <= j < |before| && Lower(before[j]) == low && Filled(base, source, before)[low] == source[before[j]];
        assert Lower(order[j]) == low && Filled(base, source, order)[low] == source[order[j]];
      }
    }
  }

  /** Keys that differ only in case carry the same rate. */
  ghost predicate NoConflict(source: Rates) {
    forall a, b | a in source && b in source && Lower(a) == Lower(b) :: source[a] == source[b]
  }

  lemma NoConflictNoOrder(base: Rates, source: Rates, o1: seq<string>, o2: seq<string>)
    requires NoConflict(source) && Listing(o1, source.Keys) && Listing(o2, source.Keys)
    ensures Filled(base, source, o1) == Filled(base, source, o2)
  {
    var f1, f2 := Filled(base, source, o1), Filled(base, source, o2);
    forall low ensures low in f1 <==> low in f2
      ensures low in f1 ==> f1[low] == f2[low]
    {
      FilledEntries(base, source, o1, low);
      FilledEntries(base, source, o2, low);
      SameKeysListed(source.Keys, o1, o2, low);
      SameKeysListed(source.Keys, o2, o1, low);
    }
  }

  lemma SameKeysListed(keys: set<string>, o1: seq<string>, o2: seq<string>, low: string)
    requires Listing(o1, keys) && Listing(o2, keys)
    ensures (exists i :: 0 <= i < |o1| && Lower(o1[i]) == low) ==> exists i :: 0 <= i < |o2| && Lower(o2[i]) == low
  {
    if i :| 0 <= i < |o1| && Lower(o1[i]) == low {
      assert Listed(o2, o1[i]);
      var j :| 0 <= j < |o2| && o2[j] == o1[i];
      assert Lower(o2[j]) == low;
    }
  }

  lemma SomeListing(keys: set<string>) returns (order: seq<string>)
    ensures Listing(order, keys)
  {
    order := [];
    var todo := keys;
    while todo != {}
      invariant todo <= keys && Listing(order, keys - todo)
    {
      var k :| k in todo;
      ListingMore(order, keys - todo, k);
      todo, order := todo - {k}, order + [k];
      assert keys - todo == (keys - (todo + {k})) + {k};
    }
    assert keys - todo == keys;
  }

  /** Any key can be the last one stored, and then its rate is the one kept. */
  lemma {:induction false} LastKeyWins(base: Rates, source: Rates, k: string) returns (order: seq<string>)
    requires k in source
    ensures Listing(order, source.Keys)
    ensures Lower(k) in Filled(base, source, order) && Filled(base, source, order)[Lower(k)] == source[k]
  {
    var before := SomeListing(source.Keys - {k});
    ListingMore(before, source.Keys - {k}, k);
    order := before + [k];
    assert source.Keys - {k} + {k} == source.Keys;
    assert order[..|before|] == before;
  }

  ghost predicate OrderFree(base: Rates, source: Rates) {
    forall o1, o2 | Listing(o1, source.Keys) && Listing(o2, source.Keys) ::
      Filled(base, source, o1) == Filled(base, source, o2)
  }

  /** The table depends on the iteration order exactly when two override keys differ only in case and disagree. */
  lemma OrderIndependentIffNoConflict(base: Rates, source: Rates)
    ensures OrderFree(base, source) <==> NoConflict(source)
  {
    if NoConflict(source) {
      forall o1, o2 | Listing(o1, source.Keys) && Listing(o2, source.Keys) {
        NoConflictNoOrder(base, source, o1, o2);
      }
    } else {
      var a, b :| a in source && b in source && Lower(a) == Lower(b) && source[a] != source[b];
      var oa := LastKeyWins(base, source, a);
      var ob := LastKeyWins(base, source, b);
      assert Filled(base, source, oa) != Filled(base, source, ob);
    }
  }

  predicate InLowerCase(s: string) {
    forall i | 0 <= i < |s| :: !('A' <= s[i] <= 'Z')
  }

  lemma LowerCaseAgrees(source: Rates)
    requires forall k | k in source :: InLowerCase(k)
    ensures NoConflict(source)
  {
    forall k | k in source ensures Lower(k) == k {
      assert InLowerCase(k);
    }
  }

  lemma {:induction false} BuiltInRatesAgree()
    ensures NoConflict(DEFAULT_RATES)
  {
    assert forall k | k in DEFAULT_RATES :: InLowerCase(k);
    LowerCaseAgrees(DEFAULT_RATES);
  }

  /** Both layers together: without conflicting overrides there is one table, whatever the iteration orders. */
  lemma TableIsDetermined(overrides: Rates, a: Rates, b: Rates)
    requires NoConflict(overrides) && TableOf(overrides, a) && TableOf(overrides, b)
    ensures a == b
  {
    BuiltInRatesAgree();
    var m :| FilledSomehow(map[], DEFAULT_RATES, m) && FilledSomehow(m, overrides, a);
    var n :| FilledSomehow(map[], DEFAULT_RATES, n) && FilledSomehow(n, overrides, b);
    OneFilling(map[], DEFAULT_RATES, m, n);
    OneFilling(m, overrides, a, b);
  }

  lemma OneFilling(base: Rates, source: Rates, a: Rates, b: Rates)
    requires NoConflict(source) && FilledSomehow(base, source, a) && FilledSomehow(base, source, b)
    ensures a == b
  {
    var o :| Listing(o, source.Keys) && a == Filled(base, source, o);
    var o' :| Listing(o', source.Keys) && b == Filled(base, source, o');
    NoConflictNoOrder(base, source, o, o');
  }

  // ----- looking a model up -----

  /** The longest non-empty key that is a prefix of the lowercased model. */
  ghost predicate IsBest(rates: Rates, m: string, key: string) {
    && key in rates && key != "" && key <= m
    && (forall k | k in rates && k <= m :: |k| <= |key|)
  }

  lemma BestIsUnique(rates: Rates, m: string, a: string, b: string)
    requires IsBest(rates, m, a) && IsBest(rates, m, b)
    ensures a == b
  {
    assert a == m[..|a|] && b == m[..|b|];
  }

  /** Whatever the iteration order, the rate of the one longest prefix; none if no non-empty key is a prefix. */
  method RateOf(rates: Rates, model: string) returns (r: Option<Rate>)
    ensures r.Some? ==> exists key :: IsBest(rates, Lower(model), key) && r.value == rates[key]
    ensures r.None? <==> forall k | k in rates && k <= Lower(model) :: k == ""
  {
    var m := Lower(model);
    var best := "";
    var todo := rates.Keys;
    while todo != {}
      invariant todo <= rates.Keys
      invariant best == "" || (best in rates && best <= m)
      invariant forall k | k in rates && k !in todo && k <= m :: |k| <= |best|
    {
      var prefix :| prefix in todo;
      todo := todo - {prefix};
      if prefix <= m && |prefix| > |best| {
        best := prefix;
      }
    }
    if best == "" {
      return None;
    }
    r := Some(rates[best]);
    assert IsBest(rates, Lower(model), best);
  }

  /** An override changes nothing for a model that its lowercased key does not prefix. */
  lemma {:induction false} OverridesAreLocal(base: Rates, overrides: Rates, f: Rates, model: string, key: string)
    requires FilledSomehow(base, overrides, f)
    requires forall k | k in overrides && Lower(k) <= Lower(model) :: k == ""
    ensures IsBest(f, Lower(model), key) <==> IsBest(base, Lower(model), key)
    ensures IsBest(base, Lower(model), key) ==> f[key] == base[key]
  {
    var m := Lower(model);
    var order :| Listing(order, overrides.Keys) && f == Filled(base, overrides, order);
    forall k | k != "" && k <= m ensures k in f <==> k in base
      ensures k in base ==> f[k] == base[k]
    {
      FilledEntries(base, overrides, order, k);
      forall i | 0 <= i < |order| ensures Lower(order[i]) != k {
        assert order[i] in overrides;
      }
    }
    if key != "" {
      assert forall k | k <= m && |k| > |key| :: k in f <==> k in base;
    }
  }

  // ----- pricing a call -----

  const MILLION := 1_000_000.0

  function Charge(r: Rate, prompt: nat, completion: nat): Money {
    Product(prompt as real / MILLION, r.inputPerM) + Product(completion as real / MILLION, r.outputPerM)
  }

  function Product(a: Money, b: Money): Money {
    a * b
  }

  /** Rates are dollars for a million tokens, each of its own kind. */
  lemma RatesArePerMillion(r: Rate, prompt: nat, completion: nat)
    ensures 1_000_000.0 * Charge(r, prompt, completion) == prompt as real * r.inputPerM + completion as real * r.outputPerM
    ensures Charge(r, 1_000_000, 0) == r.inputPerM && Charge(r, 0, 1_000_000) == r.outputPerM
  {
    OneMillionth(prompt, r.inputPerM);
    OneMillionth(completion, r.outputPerM);
  }

  lemma OneMillionth(n: nat, rate: Money)
    ensures 1_000_000.0 * (n as real / MILLION * rate) == n as real * rate
  {
    var millionth := n as real / MILLION;
    assert 1_000_000.0 * millionth == n as real;
    assert 1_000_000.0 * (millionth * rate) == (1_000_000.0 * millionth) * rate;
  }

  /** Zero and unpriced for a model the table does not know. */
  method Cost(rates: Rates, model: string, prompt: nat, completion: nat) returns (usd: Money, ok: bool)
    ensures ok <==> exists k :: k in rates && k != "" && k <= Lower(model)
    ensures !ok ==> usd == 0.0
    ensures ok ==> exists k :: IsBest(rates, Lower(model), k) && usd == Charge(rates[k], prompt, completion)
  {
    var r := RateOf(rates, model);
    if r.None? {
      return 0.0, false;
    }
    usd := prompt as real / MILLION * r.value.inputPerM + completion as real / MILLION * r.value.outputPerM;
    ok := true;
    assert usd == Charge(r.value, prompt, completion);
  }

  /** Splitting a call never changes its price. */
  lemma ChargeIsAdditive(r: Rate, p1: nat, c1: nat, p2: nat, c2: nat)
    ensures Charge(r, p1 + p2, c1 + c2) == Charge(r, p1, c1) + Charge(r, p2, c2)
  {
    ProductDistributes(p1 as real / MILLION, p2 as real / MILLION, r.inputPerM);
    ProductDistributes(c1 as real / MILLION, c2 as real / MILLION, r.outputPerM);
  }

  lemma ProductDistributes(a: Money, b: Money, x: Money)
    ensures Product(a + b, x) == Product(a, x) + Product(b, x)
  {
  }
}
