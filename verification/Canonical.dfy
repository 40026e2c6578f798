/** Cross-file deduplication (backend/ingest.py:690-731): which record of a uuid
    carries the canonical flag. */
module Canonical {
  import opened Wrappers
  import opened Tables
  import Decimal
  import TextOrder
  import Transcript

  /** ORDER BY file_key, line_num. */
  predicate NotAfter(a: RecordId, b: RecordId) {
    TextOrder.AtMost(a.file, b.file) && (a.file == b.file ==> a.line <= b.line)
  }

  /** First of its uuid's partition, or unpartitioned because the uuid is NULL. */
  predicate Leads(records: map<RecordId, Stored>, id: RecordId)
    requires id in records
  {
    records[id].record.uuid.None?
    || forall o | o in records && records[o].record.uuid == records[id].record.uuid :: NotAfter(id, o)
  }

  function Flagged(records: map<RecordId, Stored>): map<RecordId, Stored> {
    map id | id in records :: records[id].(canonical := Leads(records, id))
  }

  /** The rows whose flag is wrong. */
  function Flips(records: map<RecordId, Stored>): set<RecordId> {
    set id | id in records && records[id].canonical != Leads(records, id)
  }

  /** The table with flags forgotten. */
  function Raw(records: map<RecordId, Stored>): map<RecordId, Transcript.Record> {
    map id | id in records :: records[id].record
  }

  /** The update touching only rows whose flag flips: the result is a full
      overwrite, and the count is the number of wrong flags. */
  method Recompute(records: map<RecordId, Stored>) returns (after: map<RecordId, Stored>, changed: nat)
    ensures after == Flagged(records)
    ensures changed == |Flips(records)|
  {
    hide Leads;
    after := records;
    changed := 0;
    var rest := records.Keys;
    ghost var flipped: set<RecordId> := {};
    while rest != {}
      invariant rest <= records.Keys && after.Keys == records.Keys
      invariant forall id | id in rest :: after[id] == records[id]
      invariant forall id | id in records && id !in rest :: after[id] == records[id].(canonical := Leads(records, id))
      invariant flipped == (set id | id in records && id !in rest && records[id].canonical != Leads(records, id))
      invariant changed == |flipped|
      decreases |rest|
    {
      var id :| id in rest;
      var canonical := Leads(records, id);
      if after[id].canonical != canonical {
        after := after[id := after[id].(canonical := canonical)];
        changed := changed + 1;
        flipped := flipped + {id};
      }
      rest := rest - {id};
    }
    assert flipped == Flips(records);
  }

  /** The flags depend only on the raw rows, so neither on the order files were
      ingested in nor on what the flags were before. */
  lemma FlagsDependOnRows(a: map<RecordId, Stored>, b: map<RecordId, Stored>)
    requires Raw(a) == Raw(b)
    ensures Flagged(a) == Flagged(b)
  {
    hide *;
    SameKeys(a, b);
    forall id | id in a
      ensures Leads(a, id) == Leads(b, id)
    {
      SameLead(a, b, id);
    }
    SameFlags(a, b);
  }

  lemma SameFlags(a: map<RecordId, Stored>, b: map<RecordId, Stored>)
    requires a.Keys == b.Keys && (forall o | o in a :: a[o].record == b[o].record)
    requires forall id | id in a :: Leads(a, id) == Leads(b, id)
    ensures Flagged(a) == Flagged(b)
  {
    hide Leads;
  }

  lemma SameLead(a: map<RecordId, Stored>, b: map<RecordId, Stored>, id: RecordId)
    requires a.Keys == b.Keys && (forall o | o in a :: a[o].record == b[o].record) && id in a
    ensures Leads(a, id) == Leads(b, id)
  {
    hide NotAfter;
  }

  lemma SameKeys(a: map<RecordId, Stored>, b: map<RecordId, Stored>)
    requires Raw(a) == Raw(b)
    ensures a.Keys == b.Keys && forall id | id in a :: a[id].record == b[id].record
  {
    assert Raw(a).Keys == a.Keys && Raw(b).Keys == b.Keys;
    assert forall id | id in a :: Raw(a)[id] == Raw(b)[id];
  }

  /** A second pass changes nothing. */
  lemma SecondPassIsIdle(records: map<RecordId, Stored>)
    ensures Flagged(Flagged(records)) == Flagged(records)
    ensures Flips(Flagged(records)) == {}
    ensures Raw(Flagged(records)) == Raw(records)
  {
    FlagsDependOnRows(Flagged(records), records);
  }

  // ------------------------------------------------------------------
  // One canonical row per uuid
  // ------------------------------------------------------------------

  lemma NotAfterTotal(a: RecordId, b: RecordId)
    ensures NotAfter(a, b) || NotAfter(b, a)
  {
    TextOrder.Connected(a.file, b.file);
    TextOrder.Reflexive(a.file);
    if a.file != b.file && TextOrder.AtMost(a.file, b.file) && TextOrder.AtMost(b.file, a.file) {
      TextOrder.Antisymmetric(a.file, b.file);
    }
  }

  lemma NotAfterTransitive(a: RecordId, b: RecordId, c: RecordId)
    requires NotAfter(a, b) && NotAfter(b, c)
    ensures NotAfter(a, c)
  {
    TextOrder.Transitive(a.file, b.file, c.file);
    if a.file == c.file {
      TextOrder.Antisymmetric(a.file, b.file);
    }
  }

  lemma NotAfterAntisymmetric(a: RecordId, b: RecordId)
    requires NotAfter(a, b) && NotAfter(b, a)
    ensures a == b
  {
    TextOrder.Antisymmetric(a.file, b.file);
  }

  lemma {:induction false} FirstExists(ids: set<RecordId>) returns (first: RecordId)
    requires ids != {}
    ensures first in ids && forall o | o in ids :: NotAfter(first, o)
    decreases |ids|
  {
    var id :| id in ids;
    NotAfterTotal(id, id);
    var others := ids - {id};
    assert ids == others + {id};
    if others == {} {
      first := id;
    } else {
      first := FirstExists(others);
      NotAfterTotal(id, first);
      if NotAfter(id, first) {
        forall o | o in ids
          ensures NotAfter(id, o)
        {
          if o != id {
            NotAfterTransitive(id, first, o);
          }
        }
        first := id;
      }
    }
  }

  /** Every non-null uuid has exactly one canonical row, its least (file, line). */
  lemma OneCanonicalPerUuid(records: map<RecordId, Stored>, id: RecordId) returns (lead: RecordId)
    requires id in records && records[id].record.uuid.Some?
    ensures lead in records && records[lead].record.uuid == records[id].record.uuid
    ensures forall o | o in records && records[o].record.uuid == records[id].record.uuid ::
      NotAfter(lead, o) && (Flagged(records)[o].canonical <==> o == lead)
  {
    var peers := set o | o in records && records[o].record.uuid == records[id].record.uuid;
    assert id in peers;
    lead := FirstExists(peers);
    forall o | o in peers
      ensures Flagged(records)[o].canonical <==> o == lead
    {
      if Leads(records, o) {
        assert NotAfter(o, lead);
        NotAfterAntisymmetric(o, lead);
      }
    }
  }

  // ------------------------------------------------------------------
  // kimi-code uuids never collide
  // ------------------------------------------------------------------

  lemma LastColon(p: string, a: string)
    requires ':' !in a
    ensures var s := p + ":" + a; s[|p|] == ':' && forall i | |p| < i < |s| :: s[i] != ':'
  {
  }

  lemma TailsAgree(p: string, a: string, q: string, b: string)
    requires p + ":" + a == q + ":" + b && ':' !in a && ':' !in b
    ensures p == q && a == b
  {
    LastColon(p, a);
    LastColon(q, b);
    assert |p| == |q|;
    var s, t := p + ":" + a, q + ":" + b;
    assert p == s[..|p|] == t[..|q|] == q;
    assert a == s[|p| + 1..] == t[|q| + 1..] == b;
  }

  /** kimi-code record uuids, `key:line`, are injective. */
  lemma KimiUuidInjective(a: RecordId, b: RecordId)
    requires Transcript.Uuid(Transcript.KimiCode, a.file, a.line, None)
          == Transcript.Uuid(Transcript.KimiCode, b.file, b.line, None)
    ensures a == b
  {
    Decimal.PrintHasNoColon(a.line);
    Decimal.PrintHasNoColon(b.line);
    TailsAgree(a.file, Decimal.Print(a.line), b.file, Decimal.Print(b.line));
    Decimal.PrintInjective(a.line, b.line);
  }

  /** A corpus of kimi-code transcripts only never loses a record to deduplication. */
  lemma KimiNeverDemoted(records: map<RecordId, Stored>, id: RecordId)
    requires id in records
    requires forall o | o in records ::
      records[o].record.uuid == Transcript.Uuid(Transcript.KimiCode, o.file, o.line, None)
    ensures Flagged(records)[id].canonical
  {
    forall o | o in records && records[o].record.uuid == records[id].record.uuid
      ensures NotAfter(id, o)
    {
      KimiUuidInjective(id, o);
      NotAfterTotal(id, id);
    }
  }
}
