/** Model rates and cost (backend/pricing.py).  Money is counted in units of 1e-8 USD,
    so a rate of 3.00 USD per million tokens is 300 units per token. */
module Pricing {
  import opened Wrappers

  /** `uncached` is the source's "fresh", a reserved word here. */
  datatype Rates = Rates(uncached: nat, create: nat, read: nat, output: nat)

  datatype Tally = Tally(uncached: nat, create: nat, read: nat, output: nat)

  datatype Resolution = Exact(key: string) | Default {
    function Rates(): Rates {
      match this
      case Exact(key) => if key in TABLE then TABLE[key] else DEFAULT_RATES
      case Default => DEFAULT_RATES
    }
  }

  const K3: string := "kimi-k3"
  const K2_7: string := "kimi-k2-7-code"
  const K2_6: string := "kimi-k2-6"

  /** The table's keys in its own order. */
  const KEYS: seq<string> := [K3, K2_7, K2_6]

  const TABLE: map<string, Rates> := map[
    K3 := Rates(300, 0, 30, 1500),
    K2_7 := Rates(95, 0, 19, 400),
    K2_6 := Rates(95, 0, 16, 400)
  ]

  const DEFAULT_RATES: Rates := TABLE[K2_6]

  // ------------------------------------------------------------------
  // Resolving a model id
  // ------------------------------------------------------------------

  predicate Digit(c: char) {
    '0' <= c <= '9'
  }

  predicate Digits(s: string) {
    forall i | 0 <= i < |s| :: Digit(s[i])
  }

  /** An optional dash, then six to eight digits. */
  predicate Snapshot(rest: string) {
    var digits := if rest != "" && rest[0] == '-' then rest[1..] else rest;
    6 <= |digits| <= 8 && Digits(digits)
  }

  /** A snapshot date is six, seven or eight digits, or a dash before as many. */
  lemma SnapshotExactly(rest: string)
    ensures Snapshot(rest) <==>
      || (|rest| in {6, 7, 8} && Digits(rest))
      || (|rest| in {7, 8, 9} && rest[0] == '-' && Digits(rest[1..]))
  {
  }

  predicate NamesSameModel(rest: string) {
    rest == "" || rest[0] == '[' || rest[0] == '@' || Snapshot(rest)
  }

  predicate Names(norm: string, key: string) {
    key <= norm && NamesSameModel(norm[|key|..])
  }

  function FirstMatch(norm: string, keys: seq<string>): Option<string> {
    if keys == [] then None
    else if Names(norm, keys[0]) then Some(keys[0])
    else FirstMatch(norm, keys[1..])
  }

  function MatchKey(norm: string): Option<string> {
    FirstMatch(norm, KEYS)
  }

  predicate Space(c: char) {
    c == ' ' || '\t' <= c <= '\r' || 28 <= c as int <= 31
  }

  function TrimLeft(s: string): string {
    if s != "" && Space(s[0]) then TrimLeft(s[1..]) else s
  }

  function TrimRight(s: string): string {
    if s != "" && Space(s[|s| - 1]) then TrimRight(s[..|s| - 1]) else s
  }

  function Fold(c: char): char {
    if c == '.' then '-' else if 'A' <= c <= 'Z' then (c as int + 32) as char else c
  }

  function Normalise(model: Option<string>): string {
    if model.None? then "" else
      var s := TrimRight(TrimLeft(model.value));
      seq(|s|, i requires 0 <= i < |s| => Fold(s[i]))
  }

  function Resolve(model: Option<string>): Resolution {
    var key := MatchKey(Normalise(model));
    if key.Some? then Exact(key.value) else Default
  }

  function RateFor(model: Option<string>): Rates {
    Resolve(model).Rates()
  }

  /** No key of the table is a prefix of another. */
  lemma KeysIncomparable(a: string, b: string)
    requires a in KEYS && b in KEYS && a <= b
    ensures a == b
  {
    assert K3[6] == '3' && K2_7[6] == '2' && K2_6[6] == '2';
    assert K2_7[8] == '7' && K2_6[8] == '6';
    assert b[6] == a[6];
    assert |a| > 8 && |b| > 8 ==> b[8] == a[8];
  }

  lemma PrefixesCompare(a: string, b: string, s: string)
    requires a <= s && b <= s
    ensures a <= b || b <= a
  {
    if |a| <= |b| {
      assert a == s[..|a|] == s[..|b|][..|a|] == b[..|a|];
    } else {
      assert b == s[..|b|] == s[..|a|][..|b|] == a[..|b|];
    }
  }

  /** An id names at most one key. */
  lemma NamesAtMostOneKey(norm: string, a: string, b: string)
    requires a in KEYS && b in KEYS && Names(norm, a) && Names(norm, b)
    ensures a == b
  {
    PrefixesCompare(a, b, norm);
    if a <= b {
      KeysIncomparable(a, b);
    } else {
      KeysIncomparable(b, a);
    }
  }

  lemma {:induction false} FirstMatchIs(norm: string, keys: seq<string>)
    ensures FirstMatch(norm, keys).Some? ==>
      FirstMatch(norm, keys).value in keys && Names(norm, FirstMatch(norm, keys).value)
    ensures FirstMatch(norm, keys).None? ==> forall k | k in keys :: !Names(norm, k)
  {
    if keys != [] {
      FirstMatchIs(norm, keys[1..]);
    }
  }

  /** The order in which the table is searched does not matter. */
  lemma SearchOrderIrrelevant(norm: string, keys: seq<string>)
    requires forall k :: k in keys <==> k in KEYS
    ensures FirstMatch(norm, keys) == MatchKey(norm)
  {
    FirstMatchIs(norm, keys);
    FirstMatchIs(norm, KEYS);
    if FirstMatch(norm, keys).Some? && MatchKey(norm).Some? {
      NamesAtMostOneKey(norm, FirstMatch(norm, keys).value, MatchKey(norm).value);
    }
  }

  /** A key followed by anything is that key exactly when the suffix is empty, a
      bracket, an "@" or a snapshot date; otherwise it is no key at all. */
  lemma SuffixDecides(key: string, rest: string)
    requires key in KEYS
    ensures MatchKey(key + rest) == if NamesSameModel(rest) then Some(key) else None
  {
    var norm := key + rest;
    assert norm[|key|..] == rest;
    FirstMatchIs(norm, KEYS);
    var found := MatchKey(norm);
    if found.Some? {
      PrefixesCompare(key, found.value, norm);
      if key <= found.value {
        KeysIncomparable(key, found.value);
      } else {
        KeysIncomparable(found.value, key);
      }
    }
  }

  /** Every key of the table resolves to itself. */
  lemma KeyResolvesToItself(key: string)
    requires key in KEYS
    ensures Resolve(Some(key)) == Exact(key)
  {
    assert Plain(key);
    PlainIsNormal(key);
    SuffixDecides(key, "");
    assert key + "" == key;
  }

  /** The same letter in either case, or a dot for a dash. */
  predicate Spells(c: char, d: char) {
    c == d || (c == '.' && d == '-') || ('A' <= c <= 'Z' && c as int + 32 == d as int)
  }

  /** A key is recognised in any case, with dots for its dashes, and with white space around
      it. */
  lemma SpellingResolves(key: string, before: string, spelled: string, after: string)
    requires key in KEYS && |spelled| == |key| && forall i | 0 <= i < |key| :: Spells(spelled[i], key[i])
    requires (forall i | 0 <= i < |before| :: Space(before[i])) && forall i | 0 <= i < |after| :: Space(after[i])
    ensures Resolve(Some(before + spelled + after)) == Exact(key)
  {
    KeysArePlain(key);
    SpelledTrims(key, before, spelled, after);
    SpelledFolds(key, spelled);
    SuffixDecides(key, "");
    assert key + "" == key;
    hide TrimLeft, TrimRight, MatchKey, Plain, Spells, Space, Fold;
    assert Normalise(Some(before + spelled + after)) == key;
  }

  lemma KeysArePlain(key: string)
    requires key in KEYS
    ensures key != "" && Plain(key)
  {
  }

  lemma SpelledTrims(key: string, before: string, spelled: string, after: string)
    requires key != "" && Plain(key) && |spelled| == |key| && forall i | 0 <= i < |key| :: Spells(spelled[i], key[i])
    requires (forall i | 0 <= i < |before| :: Space(before[i])) && forall i | 0 <= i < |after| :: Space(after[i])
    ensures TrimRight(TrimLeft(before + spelled + after)) == spelled
  {
    TrimLeftDrops(before, spelled + after);
    assert before + (spelled + after) == before + spelled + after;
    assert (spelled + after)[0] == spelled[0] && !Space(spelled[0]) && !Space(spelled[|spelled| - 1]);
    TrimRightDrops(spelled, after);
  }

  lemma SpelledFolds(key: string, spelled: string)
    requires Plain(key) && |spelled| == |key| && forall i | 0 <= i < |key| :: Spells(spelled[i], key[i])
    ensures seq(|spelled|, i requires 0 <= i < |spelled| => Fold(spelled[i])) == key
  {
  }

  lemma {:induction false} TrimLeftDrops(a: string, s: string)
    requires forall i | 0 <= i < |a| :: Space(a[i])
    ensures TrimLeft(a + s) == TrimLeft(s)
  {
    if a == "" {
      assert a + s == s;
    } else {
      assert (a + s)[1..] == a[1..] + s;
      TrimLeftDrops(a[1..], s);
    }
  }

  lemma {:induction false} TrimRightDrops(s: string, b: string)
    requires forall i | 0 <= i < |b| :: Space(b[i])
    ensures TrimRight(s + b) == TrimRight(s)
  {
    if b == "" {
      assert s + b == s;
    } else {
      assert (s + b)[..|s + b| - 1] == s + b[..|b| - 1];
      TrimRightDrops(s, b[..|b| - 1]);
    }
  }

  /** An id that names no key is an estimate at K2.6's rates, and one that names a key is
      charged that key's. */
  lemma RatesExactly(model: Option<string>)
    ensures Resolve(model).Default? <==> forall k | k in KEYS :: !Names(Normalise(model), k)
    ensures Resolve(model).Default? ==> RateFor(model) == TABLE[K2_6]
    ensures forall k | k in KEYS && Names(Normalise(model), k) ::
      Resolve(model) == Exact(k) && k in TABLE && RateFor(model) == TABLE[k]
  {
    FirstMatchIs(Normalise(model), KEYS);
    hide Normalise, Names;
    forall k | k in KEYS && Names(Normalise(model), k)
      ensures Resolve(model) == Exact(k)
    {
      NamesAtMostOneKey(Normalise(model), k, MatchKey(Normalise(model)).value);
    }
  }

  predicate Plain(s: string) {
    forall i | 0 <= i < |s| :: !Space(s[i]) && Fold(s[i]) == s[i]
  }

  lemma PlainIsNormal(s: string)
    requires Plain(s)
    ensures Normalise(Some(s)) == s
  {
    assert TrimLeft(s) == s && TrimRight(s) == s;
  }

  // ------------------------------------------------------------------
  // Cost
  // ------------------------------------------------------------------

  function Priced(t: Tally, r: Rates): nat {
    t.uncached * r.uncached + t.create * r.create + t.read * r.read + t.output * r.output
  }

  function ComputeCost(model: Option<string>, t: Tally): nat {
    Priced(t, RateFor(model))
  }

  function Plus(a: Tally, b: Tally): Tally {
    Tally(a.uncached + b.uncached, a.create + b.create, a.read + b.read, a.output + b.output)
  }

  /** Pricing a sum of tallies is summing their prices. */
  lemma CostIsAdditive(model: Option<string>, a: Tally, b: Tally)
    ensures ComputeCost(model, Plus(a, b)) == ComputeCost(model, a) + ComputeCost(model, b)
  {
    var r := RateFor(model);
    Distribute(a.uncached, b.uncached, r.uncached);
    Distribute(a.create, b.create, r.create);
    Distribute(a.read, b.read, r.read);
    Distribute(a.output, b.output, r.output);
  }

  lemma Distribute(a: int, b: int, r: int)
    ensures (a + b) * r == a * r + b * r
  {
  }

  /** Cache creation is free, whatever the model. */
  lemma CreateIsFree(model: Option<string>)
    ensures RateFor(model).create == 0
  {
    FirstMatchIs(Normalise(model), KEYS);
  }

  // ------------------------------------------------------------------
  // Rounding
  // ------------------------------------------------------------------

  /** `round` to a multiple of q, ties to the even multiple. */
  function Round(x: int, q: int): int
    requires 0 < q
  {
    var rem := x % q;
    var low := x - rem;
    if 2 * rem < q || (2 * rem == q && (x / q) % 2 == 0) then low else low + q
  }

  lemma RoundError(x: int, half: int)
    requires 0 < half
    ensures -half <= Round(x, 2 * half) - x <= half
  {
  }

  /** The nearest multiple, and of two equally near the even one. */
  lemma RoundIsNearest(x: int, half: int) returns (k: int)
    requires 0 < half
    ensures Round(x, 2 * half) == k * (2 * half) && -half <= k * (2 * half) - x <= half
    ensures k * (2 * half) - x == half || k * (2 * half) - x == -half ==> k % 2 == 0
  {
    k := RoundIsMultiple(x, 2 * half);
    RoundError(x, half);
    TieIsEven(x, half, k);
  }

  lemma TieIsEven(x: int, half: int, k: int)
    requires 0 < half && Round(x, 2 * half) == k * (2 * half)
    ensures k * (2 * half) - x == half || k * (2 * half) - x == -half ==> k % 2 == 0
  {
    var d := 2 * half;
    var q, rem := x / d, x % d;
    assert Round(x, d) == if 2 * rem < d || (2 * rem == d && q % 2 == 0) then x - rem else x - rem + d;
    hide Round;
    QuotientAt(x, d, q, rem);
    if k < q || q + 1 < k {
      Apart(k, q, d);
    }
  }

  lemma QuotientAt(x: int, d: int, q: int, rem: int)
    requires 0 < d && q == x / d && rem == x % d
    ensures x == q * d + rem && (q + 1) * d == q * d + d && 0 <= rem < d
  {
  }

  lemma Apart(k: int, q: int, d: int)
    requires 0 < d && k != q && k != q + 1
    ensures k * d <= q * d - d || q * d + 2 * d <= k * d
  {
    if k < q {
      Distribute(k, q - k, d);
      assert (q - k) * d >= d;
    } else {
      Distribute(q, k - q, d);
      assert (k - q) * d >= 2 * d;
    }
  }

  /** Rounding yields a multiple, and leaves multiples alone. */
  lemma RoundIsMultiple(x: int, q: int) returns (k: int)
    requires 0 < q
    ensures Round(x, q) == k * q
  {
    k := if Round(x, q) == x - x % q then x / q else x / q + 1;
    assert x == (x / q) * q + x % q;
    assert (x / q + 1) * q == (x / q) * q + q;
  }

  lemma RoundFixesMultiples(k: int)
    ensures Round(k * 10000, 10000) == k * 10000
  {
  }
}
