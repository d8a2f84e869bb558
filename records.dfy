/**
 * Records as JavaScript objects keyed by field name, and the where-clause
 * matcher `whereKeys.every((key, index) => data[key] === whereValues[index])`
 * with the `docData.filter(...)` around it.
 */
module Records {
  import opened Wrappers
  import opened JsValues

  /** A record (and a where clause, and a patch): field name to value. */
  type Record = map<string, JsValue>

  /** The property read `record[key]`: `undefined` for an absent key. */
  function Get(r: Record, key: string): (v: JsValue)
    ensures key !in r ==> v == Undefined
    ensures key in r ==> v == r[key]
  {
    if key in r then r[key] else Undefined
  }

  /** The where-matcher: every key of the clause holds a strictly equal value in the record. */
  predicate Matches(r: Record, where: Record)
    ensures Matches(r, where) ==> forall key :: key in where ==> where[key] != Num(NaN)
  {
    forall key :: key in where ==> StrictEquals(Get(r, key), where[key])
  }

  /** An empty where clause matches every record. */
  lemma EmptyWhereMatchesAll(r: Record)
    ensures Matches(r, map[])
  {
  }

  /**
   * The matcher is the conjunction of its keys: it holds exactly when the
   * record holds each where-value, and never for NaN or for a present
   * where-value under a key the record lacks.
   */
  lemma MatchesIff(r: Record, where: Record)
    ensures Matches(r, where) <==>
      forall key :: key in where ==> where[key] != Num(NaN) && Get(r, key) == where[key]
    ensures forall key :: key in where && key !in r && where[key] != Undefined ==> !Matches(r, where)
  {
  }

  /** A where clause with a single key matches when that one value is strictly equal. */
  lemma MatchesSingleKey(r: Record, key: string, value: JsValue)
    ensures Matches(r, map[key := value]) <==> StrictEquals(Get(r, key), value)
  {
    assert map[key := value].Keys == {key};
  }

  /** `data.filter(matcher)`: the matching records, in their order. */
  function Filter(data: seq<Record>, where: Record): (r: seq<Record>)
    ensures |r| <= |data|
  {
    if data == [] then []
    else (if Matches(data[0], where) then [data[0]] else []) + Filter(data[1..], where)
  }

  /** The filter keeps exactly the matching records, never more of one than the data holds. */
  lemma {:induction false} FilterMembers(data: seq<Record>, where: Record)
    ensures forall x :: x in Filter(data, where) <==> x in data && Matches(x, where)
    ensures multiset(Filter(data, where)) <= multiset(data)
  {
    if data != [] {
      var rest := data[1..];
      var head := if Matches(data[0], where) then [data[0]] else [];
      FilterMembers(rest, where);
      assert data == [data[0]] + rest;
      assert Filter(data, where) == head + Filter(rest, where);
      assert multiset(Filter(data, where)) == multiset(head) + multiset(Filter(rest, where));
      assert multiset(data) == multiset([data[0]]) + multiset(rest);
    }
  }

  /** Filtering keeps order: it distributes over concatenation. */
  lemma {:induction false} FilterConcat(a: seq<Record>, b: seq<Record>, where: Record)
    ensures Filter(a + b, where) == Filter(a, where) + Filter(b, where)
  {
    if a == [] {
      assert a + b == b;
    } else {
      assert (a + b)[0] == a[0];
      assert (a + b)[1..] == a[1..] + b;
      FilterConcat(a[1..], b, where);
    }
  }

  /** When every record matches (an empty where clause in particular), the filter keeps them all. */
  lemma {:induction false} FilterAllMatch(data: seq<Record>, where: Record)
    requires forall i :: 0 <= i < |data| ==> Matches(data[i], where)
    ensures Filter(data, where) == data
  {
    if data != [] {
      FilterAllMatch(data[1..], where);
    }
  }

  /** When no record matches, the filter is empty. */
  lemma {:induction false} FilterNoneMatch(data: seq<Record>, where: Record)
    requires forall i :: 0 <= i < |data| ==> !Matches(data[i], where)
    ensures Filter(data, where) == []
  {
    if data != [] {
      FilterNoneMatch(data[1..], where);
    }
  }

  /** `{ ...value }` where value is a record or `undefined`. */
  function Spread(v: Option<Record>): (r: Record)
    ensures v.None? ==> r == map[]
    ensures v.Some? ==> r == v.value
  {
    v.GetOr(map[])
  }

  /** `{ ...base, ...patch }`: the patch's keys win. */
  function Merge(base: Record, patch: Record): (r: Record)
    ensures r.Keys == base.Keys + patch.Keys
    ensures forall k :: k in patch ==> r[k] == patch[k]
    ensures forall k :: k in base && k !in patch ==> r[k] == base[k]
  {
    base + patch
  }

  /** Merging the same patch twice is merging it once. */
  lemma MergeIdempotent(base: Record, patch: Record)
    ensures Merge(Merge(base, patch), patch) == Merge(base, patch)
  {
  }
}
