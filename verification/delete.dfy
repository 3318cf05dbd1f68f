/**
 Deleting a record by id, as the DELETE handlers of both lists do it
 (app.py:72-78 for options, app.py:229-235 for flavors): remove the first
 record whose id matches, if there is one, then give every remaining
 record the id of its 1-based position.
 */
module Deletion {
  import opened Wrappers
  import opened Records

  /** Position of the first record whose id is `k`, or None. */
  function FirstIndex(s: seq<Record>, k: int): (r: Option<nat>)
    ensures r.None? <==> !HasId(s, k)
    ensures r.Some? ==> r.value < |s| && s[r.value].id == k
    ensures r.Some? ==> forall j :: 0 <= j < r.value ==> s[j].id != k
  {
    if |s| == 0 then None
    else if s[0].id == k then Some(0)
    else
      match FirstIndex(s[1..], k)
      case None => None
      case Some(i) => Some(i + 1)
  }

  /**
   The scan-and-remove loop: the first record with id `k` is dropped and
   the scan stops; with no such record the list is left as it was.
   Python's `list.remove(x)` drops the first element equal to `x`; since
   `x` is the first record with id `k`, no earlier record can equal it,
   so the element dropped is the matched one.
   */
  function RemoveFirst(s: seq<Record>, k: int): (r: seq<Record>)
    ensures !HasId(s, k) ==> r == s
    ensures HasId(s, k) ==>
      var i := FirstIndex(s, k).value;
      |r| == |s| - 1 && r == s[..i] + s[i + 1..]
  {
    if |s| == 0 then []
    else if s[0].id == k then s[1..]
    else
      var rest := RemoveFirst(s[1..], k);
      assert HasId(s, k) ==> HasId(s[1..], k) by {
        if HasId(s, k) {
          var j :| 0 <= j < |s| && s[j].id == k;
          assert s[1..][j - 1].id == k;
        }
      }
      [s[0]] + rest
  }

  /** Renumbering from `start`: record `i` gets id `start + i`, fields kept. */
  function RenumberFrom(s: seq<Record>, start: int): (r: seq<Record>)
    ensures |r| == |s|
    ensures forall i :: 0 <= i < |s| ==> r[i].id == start + i
    ensures forall i :: 0 <= i < |s| ==> r[i].fields == s[i].fields
  {
    if |s| == 0 then []
    else [Record(start, s[0].fields)] + RenumberFrom(s[1..], start + 1)
  }

  /**
   The `enumerate(..., start=1)` loop: ids become 1..N in list order and
   nothing but the ids changes.
   */
  function Renumber(s: seq<Record>): (r: seq<Record>)
    ensures Contiguous(r)
    ensures Payloads(r) == Payloads(s)
  {
    RenumberFrom(s, 1)
  }

  /** Renumbering a list whose ids are already 1..N changes nothing. */
  lemma RenumberContiguous(s: seq<Record>)
    requires Contiguous(s)
    ensures Renumber(s) == s
  {
    var r := Renumber(s);
    assert |Payloads(r)| == |r|;
    forall i | 0 <= i < |s|
      ensures r[i] == s[i]
    {
      assert Payloads(r)[i] == Payloads(s)[i];
    }
  }

  /**
   The whole DELETE handler. The resulting ids are 1..N whether or not
   `k` was found; the surviving records keep their order and fields;
   exactly one record goes when `k` is present, none when it is absent.
   */
  function Delete(s: seq<Record>, k: int): (r: seq<Record>)
    ensures Contiguous(r)
    ensures HasId(s, k) ==>
      var i := FirstIndex(s, k).value;
      |r| == |s| - 1 &&
      forall j :: 0 <= j < |r| ==> r[j].fields == (if j < i then s[j] else s[j + 1]).fields
    ensures !HasId(s, k) ==>
      |r| == |s| && forall j :: 0 <= j < |r| ==> r[j].fields == s[j].fields
  {
    var removed := RemoveFirst(s, k);
    var r := Renumber(removed);
    assert |Payloads(r)| == |r| == |removed|;
    assert forall j :: 0 <= j < |r| ==> r[j].fields == Payloads(r)[j] == Payloads(removed)[j] == removed[j].fields;
    r
  }

  /** Deleting an id that is absent from a contiguous list is a no-op. */
  lemma DeleteAbsentIsNoop(s: seq<Record>, k: int)
    requires Contiguous(s)
    requires !HasId(s, k)
    ensures Delete(s, k) == s
  {
    RenumberContiguous(s);
  }

  /**
   On a contiguous list, deleting leaves the list unchanged exactly when
   no record has the id.
   */
  lemma DeleteUnchangedIff(s: seq<Record>, k: int)
    requires Contiguous(s)
    ensures Delete(s, k) == s <==> !HasId(s, k)
  {
    if !HasId(s, k) {
      DeleteAbsentIsNoop(s, k);
    }
  }

  /**
   On a contiguous list with 1 <= k <= N, deleting k drops exactly the
   record at position k and shifts the later ones down one id.
   */
  lemma DeleteContiguousPosition(s: seq<Record>, k: int)
    requires Contiguous(s)
    requires 1 <= k <= |s|
    ensures Payloads(Delete(s, k)) == Payloads(s[..k - 1] + s[k..])
  {
    assert s[k - 1].id == k;
    var i := FirstIndex(s, k).value;
    assert i == k - 1;
    var r := Delete(s, k);
    var t := s[..k - 1] + s[k..];
    assert |Payloads(r)| == |Payloads(t)|;
    forall j | 0 <= j < |r|
      ensures Payloads(r)[j] == Payloads(t)[j]
    {
      if j < k - 1 {
        assert t[j] == s[j];
      } else {
        assert t[j] == s[j + 1];
      }
    }
  }

  /** The handler's first loop: scan for `k`, remove the match, stop. */
  method RemoveLoop(s: seq<Record>, k: int) returns (rest: seq<Record>)
    ensures rest == RemoveFirst(s, k)
  {
    var i := 0;
    while i < |s|
      invariant 0 <= i <= |s|
      invariant forall j :: 0 <= j < i ==> s[j].id != k
    {
      if s[i].id == k {
        assert FirstIndex(s, k) == Some(i);
        return s[..i] + s[i + 1..];
      }
      i := i + 1;
    }
    return s;
  }

  /** The handler's second loop: record n gets id n + 1. */
  method RenumberLoop(s: seq<Record>) returns (r: seq<Record>)
    ensures r == Renumber(s)
  {
    r := [];
    var n := 0;
    ghost var target := RenumberFrom(s, 1);
    while n < |s|
      invariant 0 <= n <= |s|
      invariant |r| == n
      invariant forall j :: 0 <= j < n ==> r[j] == target[j]
    {
      r := r + [Record(n + 1, s[n].fields)];
      n := n + 1;
    }
    assert r == target;
  }

  /** The DELETE handler's two loops one after the other compute `Delete`. */
  method DeleteLoop(s: seq<Record>, k: int) returns (r: seq<Record>)
    ensures r == Delete(s, k)
  {
    var rest := RemoveLoop(s, k);
    r := RenumberLoop(rest);
  }
}
