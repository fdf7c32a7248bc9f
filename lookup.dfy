/** Linear search over the ids of a list of records, shared by the handlers
    of the restaurant service. */
module Lookup {
  import opened Outcomes

  /** Record ids of the restaurant service: the strings `str(uuid4())` gives. */
  type Id = string

  /** No id occurs twice. */
  ghost predicate Distinct<K>(ids: seq<K>)
  {
    forall i, j :: 0 <= i < j < |ids| ==> ids[i] != ids[j]
  }

  /** Putting an id in front of distinct ids that lack it keeps them distinct. */
  lemma DistinctCons<K>(k: K, ids: seq<K>)
    requires Distinct(ids) && k !in ids
    ensures Distinct([k] + ids)
  {
  }

  /** The ids after the first of distinct ids are distinct and lack the first. */
  lemma DistinctTail<K>(k: K, ids: seq<K>)
    requires Distinct([k] + ids)
    ensures Distinct(ids) && k !in ids
  {
    var s := [k] + ids;
    forall i, j | 0 <= i < j < |ids| ensures ids[i] != ids[j] {
      assert s[i + 1] == ids[i] && s[j + 1] == ids[j];
    }
    forall j | 0 <= j < |ids| ensures ids[j] != k {
      assert s[0] == k && s[j + 1] == ids[j];
    }
  }

  /** Position of the first occurrence of `key` in `ids`, or None when it does
      not occur: the element a Python `for` loop or `next(...)` generator
      that tests `x.id == key` stops at. */
  function FirstIndex<K(==)>(ids: seq<K>, key: K): (r: Option<nat>)
    ensures r.None? <==> key !in ids
    ensures r.Some? ==> r.value < |ids| && ids[r.value] == key
    ensures r.Some? ==> forall j :: 0 <= j < r.value ==> ids[j] != key
  {
    if |ids| == 0 then None
    else if ids[0] == key then Some(0)
    else match FirstIndex(ids[1..], key)
      case None => None
      case Some(k) => Some(k + 1)
  }

  /** The scan itself: walks the list front to back and stops at the first match. */
  method Find<K(==)>(ids: seq<K>, key: K) returns (r: Option<nat>)
    ensures r == FirstIndex(ids, key)
  {
    for i := 0 to |ids|
      invariant forall j :: 0 <= j < i ==> ids[j] != key
    {
      if ids[i] == key {
        return Some(i);
      }
    }
    return None;
  }

  /** When ids are distinct, the first match is the only one: a lookup by the
      id found at position i finds position i. */
  lemma FirstIndexOfDistinct<K>(ids: seq<K>, i: nat)
    requires Distinct(ids) && i < |ids|
    ensures FirstIndex(ids, ids[i]) == Some(i)
  {
  }
}
