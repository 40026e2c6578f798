/** Which pricing label a billing record gets (backend/parse.py, `_canonical_model`
    and `_model_for`).  Times are microseconds since the epoch. */
module ModelLabels {
  import opened Wrappers
  import Pricing

  const SECOND: int := 1_000_000
  const MODEL_CUTOFF: int := 1781217035 * SECOND
  const K3_CUTOFF: int := 1784213155 * SECOND

  /** What follows the last slash. */
  function LastPart(s: string): string {
    if s == "" then "" else if '/' in s[1..] then LastPart(s[1..]) else if s[0] == '/' then s[1..] else s
  }

  function CanonicalModel(wire: Option<string>): Option<string> {
    if wire.Some? && wire.value != "" && LastPart(wire.value) == "k3" then Some(Pricing.K3) else None
  }

  function ModelFor(wire: Option<string>, ts: Option<int>): string {
    var canonical := CanonicalModel(wire);
    if canonical.Some? then canonical.value
    else if ts.None? then Pricing.K2_7
    else if ts.value < MODEL_CUTOFF then Pricing.K2_6
    else if wire.Some? && wire.value != "" then Pricing.K2_7
    else if ts.value < K3_CUTOFF then Pricing.K2_7
    else Pricing.K3
  }

  /** The part after the last slash holds no slash and ends the id. */
  lemma {:induction false} LastPartIsSuffix(s: string)
    ensures '/' !in LastPart(s)
    ensures LastPart(s) == s || (exists p: string :: s == p + "/" + LastPart(s))
  {
    if s != "" {
      if '/' in s[1..] {
        LastPartIsSuffix(s[1..]);
        if LastPart(s) == s[1..] {
          assert false;
        } else {
          var p: string :| s[1..] == p + "/" + LastPart(s);
          assert s == [s[0]] + s[1..] == ([s[0]] + p) + "/" + LastPart(s);
        }
      } else if s[0] == '/' {
        assert s == "" + "/" + s[1..];
      }
    }
  }

  /** Whatever the wire says and whenever the record was stamped, its label is one
      of the table's keys and prices exactly, never as an estimate; K3's rates are
      reached only by naming k3 or by naming nothing after the K3 cutoff, and K2.6's only
      by a stamp before the first cutoff without naming k3. */
  lemma LabelPricesExactly(wire: Option<string>, ts: Option<int>)
    ensures Pricing.Resolve(Some(ModelFor(wire, ts))) == Pricing.Exact(ModelFor(wire, ts))
    ensures Pricing.RateFor(Some(ModelFor(wire, ts))) == Pricing.TABLE[Pricing.K3] <==>
      || (wire.Some? && LastPart(wire.value) == "k3")
      || ((wire.None? || wire.value == "") && ts.Some? && K3_CUTOFF <= ts.value)
    ensures ModelFor(wire, ts) == Pricing.K2_6
       <==> !(wire.Some? && LastPart(wire.value) == "k3") && ts.Some? && ts.value < MODEL_CUTOFF
  {
    Pricing.KeyResolvesToItself(ModelFor(wire, ts));
    LabelsDiffer();
  }

  lemma LabelsDiffer()
    ensures Pricing.K3 != Pricing.K2_7 && Pricing.K3 != Pricing.K2_6 && Pricing.K2_7 != Pricing.K2_6
  {
    assert Pricing.K3[6] != Pricing.K2_7[6];
    assert Pricing.K3[6] != Pricing.K2_6[6];
    assert Pricing.K2_7[8] != Pricing.K2_6[8];
  }

  /** For an unnamed model the label only moves to newer generations as time passes. */
  function Generation(name: string): int {
    if name == Pricing.K2_6 then 0 else if name == Pricing.K2_7 then 1 else 2
  }

  lemma NewerRecordNewerGeneration(wire: Option<string>, a: int, b: int)
    requires a <= b
    ensures Generation(ModelFor(wire, Some(a))) <= Generation(ModelFor(wire, Some(b)))
  {
    LabelsDiffer();
  }
}
