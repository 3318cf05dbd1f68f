/**
 The records the shop keeps in memory. Both kinds of record -- options
 (`cantidad`, `precio`) and flavors (`sabor`) -- are a JSON object with an
 integer `id` plus string fields, so one record type serves both lists.
 */
module Records {

  /** The non-id fields of a record: field name to value. */
  type Fields = map<string, string>

  /** A record of either list; `fields` never holds the key "id". */
  datatype Record = Record(id: int, fields: Fields)

  /** The key under which a JSON body carries a record's id. */
  const IdKey: string := "id"

  /** Some record of `s` has id `k`. */
  predicate HasId(s: seq<Record>, k: int)
  {
    exists i :: 0 <= i < |s| && s[i].id == k
  }

  /**
   No record keeps "id" among its other fields, so each record stands for
   exactly one JSON object: its fields plus "id".
   */
  predicate NoIdField(s: seq<Record>)
  {
    forall i :: 0 <= i < |s| ==> IdKey !in s[i].fields
  }

  /** The ids are exactly 1..|s|, in list position order. */
  predicate Contiguous(s: seq<Record>)
  {
    forall i :: 0 <= i < |s| ==> s[i].id == i + 1
  }

  /** The non-id fields of every record, in list order. */
  function Payloads(s: seq<Record>): (r: seq<Fields>)
    ensures |r| == |s|
    ensures forall i :: 0 <= i < |s| ==> r[i] == s[i].fields
  {
    if |s| == 0 then [] else [s[0].fields] + Payloads(s[1..])
  }

  /**
   The largest id in `s`, or 0 when `s` is empty, scanning left to right
   as Python's `max(..., default=0)` does (app.py:148, app.py:200).
   */
  function MaxId(s: seq<Record>): (m: int)
    ensures |s| == 0 ==> m == 0
    ensures forall i :: 0 <= i < |s| ==> s[i].id <= m
    ensures |s| > 0 ==> HasId(s, m)
  {
    if |s| == 0 then 0
    else if |s| == 1 then s[0].id
    else
      var m := MaxId(s[..|s| - 1]);
      if s[|s| - 1].id > m then s[|s| - 1].id else m
  }

  /** On a contiguous list the largest id is the length. */
  lemma {:induction false} MaxIdOfContiguous(s: seq<Record>)
    requires Contiguous(s)
    ensures MaxId(s) == |s|
  {
    if |s| > 0 {
      var m := MaxId(s);
      assert s[|s| - 1].id == |s|;
      var i :| 0 <= i < |s| && s[i].id == m;
      assert m == i + 1;
    }
  }
}
