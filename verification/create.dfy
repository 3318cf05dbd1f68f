/**
 Creating a record, as the POST handlers of both lists do it
 (app.py:146-150 for options, app.py:198-202 for flavors): when the
 body carries the required field, it becomes a new record whose id is
 one more than the largest id present (or 1 on an empty list), appended
 at the end. Without the field the list is left alone.
 */
module Creation {
  import opened Records

  /**
   The id a new record gets: greater than every id in `s`, and exactly
   one more than some id of `s` (1 when `s` is empty), so it is the
   smallest value above the largest id.
   */
  function NextId(s: seq<Record>): (n: int)
    ensures forall i :: 0 <= i < |s| ==> s[i].id < n
    ensures |s| == 0 ==> n == 1
    ensures |s| > 0 ==> HasId(s, n - 1)
  {
    MaxId(s) + 1
  }

  /**
   The record built from a request body: the handler overwrites any
   client-supplied "id" with `id` and keeps every other field as given.
   */
  function FromBody(body: Fields, id: int): (r: Record)
    ensures r.id == id
    ensures IdKey !in r.fields
    ensures forall key :: key in body && key != IdKey ==> key in r.fields && r.fields[key] == body[key]
    ensures forall key :: key in r.fields ==> key in body
  {
    Record(id, body - {IdKey})
  }

  /**
   The POST handler's effect on its list: with `required` in the body the
   new record is appended with a fresh id and nothing earlier changes;
   without it the list is returned unchanged.
   */
  function AddIfPresent(s: seq<Record>, body: Fields, required: string): (r: seq<Record>)
    requires required != IdKey
    ensures required !in body ==> r == s
    ensures required in body ==>
      |r| == |s| + 1 && r[..|s|] == s &&
      (forall i :: 0 <= i < |s| ==> s[i].id < r[|s|].id) &&
      (|s| == 0 ==> r[|s|].id == 1) &&
      (|s| > 0 ==> HasId(s, r[|s|].id - 1)) &&
      required in r[|s|].fields && r[|s|].fields == body - {IdKey}
  {
    if required in body then s + [FromBody(body, NextId(s))] else s
  }

  /** Appending to a contiguous list keeps it contiguous: the new id is N+1. */
  lemma {:induction false} AddKeepsContiguous(s: seq<Record>, body: Fields, required: string)
    requires required != IdKey
    requires Contiguous(s)
    ensures Contiguous(AddIfPresent(s, body, required))
  {
    MaxIdOfContiguous(s);
  }
}
