/**
 * When locating records by `_id - 1` is right. Delete and update rely on a
 * record's `_id` being its 1-based position; this module states that
 * premise, proves what the splice loops do under it, and sets the loops
 * beside removal and patching by identity, which is what they are meant to do.
 */
module IdPositions {
  import opened Wrappers
  import opened JsValues
  import opened ArraySplice
  import opened Records
  import opened Catalogs

  /** Every record's `_id` is its 1-based position. */
  predicate Positional(data: seq<Record>)
  {
    forall i :: 0 <= i < |data| ==> IdIndex(data[i]) == Finite(i as real)
  }

  /**
   * Every record the where clause matches has its 1-based position as `_id`;
   * the others may have any `_id`, as after a deletion.
   */
  predicate MatchesPositional(data: seq<Record>, where: Record)
  {
    forall i :: 0 <= i < |data| && Matches(data[i], where) ==> IdIndex(data[i]) == Finite(i as real)
  }

  /** Inserts alone keep `_id`s equal to positions, as long as the data carries no `_id` of its own. */
  lemma InsertKeepsPositional(data: seq<Record>, fields: Record)
    requires Positional(data)
    requires "_id" !in fields
    ensures Positional(data + [NewRecord(|data|, fields)])
  {
    var after := data + [NewRecord(|data|, fields)];
    forall i | 0 <= i < |after|
      ensures IdIndex(after[i]) == Finite(i as real)
    {
      if i == |data| {
        assert Get(after[i], "_id") == Num(Finite((|data| + 1) as real));
      }
    }
  }

  /** The intended delete: drop exactly the matching records, keep the rest in order. */
  function RemoveMatching(data: seq<Record>, where: Record): (r: seq<Record>)
    ensures |r| <= |data|
  {
    if data == [] then []
    else
      assert data == [data[0]] + data[1..];
      (if Matches(data[0], where) then [] else [data[0]]) + RemoveMatching(data[1..], where)
  }

  /** The intended update: merge the patch into exactly the matching records. */
  function PatchMatching(data: seq<Record>, where: Record, patch: Record): (r: seq<Record>)
    ensures |r| == |data|
    ensures forall i :: 0 <= i < |data| && Matches(data[i], where) ==> r[i] == Merge(data[i], patch)
    ensures forall i :: 0 <= i < |data| && !Matches(data[i], where) ==> r[i] == data[i]
  {
    seq(|data|, i requires 0 <= i < |data| => if Matches(data[i], where) then Merge(data[i], patch) else data[i])
  }

  lemma {:induction false} FilterSingle(data: seq<Record>, where: Record, k: nat)
    requires k < |data|
    requires Matches(data[k], where)
    requires forall i :: 0 <= i < |data| && i != k ==> !Matches(data[i], where)
    ensures Filter(data, where) == [data[k]]
  {
    var rest := data[1..];
    if k == 0 {
      assert forall i :: 0 <= i < |rest| ==> !Matches(rest[i], where) by {
        forall i | 0 <= i < |rest| ensures !Matches(rest[i], where) {
          assert rest[i] == data[i + 1];
        }
      }
      FilterNoneMatch(rest, where);
    } else {
      assert !Matches(data[0], where);
      assert forall i :: 0 <= i < |rest| && i != k - 1 ==> !Matches(rest[i], where) by {
        forall i | 0 <= i < |rest| && i != k - 1 ensures !Matches(rest[i], where) {
          assert rest[i] == data[i + 1];
        }
      }
      FilterSingle(rest, where, k - 1);
    }
  }

  /** The intended delete keeps exactly the records that do not match. */
  lemma {:induction false} RemoveMatchingMembers(data: seq<Record>, where: Record)
    ensures forall x :: x in RemoveMatching(data, where) <==> x in data && !Matches(x, where)
  {
    if data != [] {
      RemoveMatchingMembers(data[1..], where);
      assert data == [data[0]] + data[1..];
    }
  }

  lemma {:induction false} RemoveConcat(a: seq<Record>, b: seq<Record>, where: Record)
    ensures RemoveMatching(a + b, where) == RemoveMatching(a, where) + RemoveMatching(b, where)
  {
    if a == [] {
      assert a + b == b;
    } else {
      var rest := a[1..];
      var head := if Matches(a[0], where) then [] else [a[0]];
      assert a == [a[0]] + rest;
      assert a + b == [a[0]] + (rest + b);
      RemoveMatchingCons(a[0], rest + b, where);
      RemoveMatchingCons(a[0], rest, where);
      RemoveConcat(rest, b, where);
      AppendAssociative(head, RemoveMatching(rest, where), RemoveMatching(b, where));
    }
  }

  /** Proof helper: regroups a concatenation, stated apart to keep RemoveConcat small. */
  lemma AppendAssociative(x: seq<Record>, y: seq<Record>, z: seq<Record>)
    ensures x + (y + z) == (x + y) + z
  {
  }

  lemma {:induction false} RemoveSingle(data: seq<Record>, where: Record, k: nat)
    requires k < |data|
    requires Matches(data[k], where)
    requires forall i :: 0 <= i < |data| && i != k ==> !Matches(data[i], where)
    ensures RemoveMatching(data, where) == data[..k] + data[k + 1..]
  {
    var rest := data[1..];
    if k == 0 {
      assert forall i :: 0 <= i < |rest| ==> !Matches(rest[i], where) by {
        forall i | 0 <= i < |rest| ensures !Matches(rest[i], where) {
          assert rest[i] == data[i + 1];
        }
      }
      RemoveAllKept(rest, where);
    } else {
      assert !Matches(data[0], where);
      assert forall i :: 0 <= i < |rest| && i != k - 1 ==> !Matches(rest[i], where) by {
        forall i | 0 <= i < |rest| && i != k - 1 ensures !Matches(rest[i], where) {
          assert rest[i] == data[i + 1];
        }
      }
      RemoveSingle(rest, where, k - 1);
      assert data[..k] == [data[0]] + rest[..k - 1];
      assert data[k + 1..] == rest[k..];
    }
  }

  lemma {:induction false} RemoveAllKept(data: seq<Record>, where: Record)
    requires forall i :: 0 <= i < |data| ==> !Matches(data[i], where)
    ensures RemoveMatching(data, where) == data
  {
    if data != [] {
      assert !Matches(data[0], where);
      RemoveAllKept(data[1..], where);
    }
  }

  /**
   * Delete by `_id - 1` is right for a single match at its own position:
   * the result is the data with exactly that record removed.
   */
  lemma DeleteSingleMatch(data: seq<Record>, where: Record, k: nat)
    requires k < |data|
    requires Matches(data[k], where)
    requires forall i :: 0 <= i < |data| && i != k ==> !Matches(data[i], where)
    requires IdIndex(data[k]) == Finite(k as real)
    ensures RemoveAtIds(data, Filter(data, where)) == data[..k] + data[k + 1..]
    ensures RemoveAtIds(data, Filter(data, where)) == RemoveMatching(data, where)
  {
    FilterSingle(data, where, k);
    RemoveSingle(data, where, k);
    var r := SpliceRemove(data, Finite(k as real));
    assert RemoveAtIds(data, [data[k]]) == r;
    assert r == data[..k] + data[k + 1..];
  }

  /** The position `_id - 1` names, when it is an index. */
  function Position(m: Record): int
  {
    var n := IdIndex(m);
    if n.Finite? then n.x.Floor else -1
  }

  /** Merge the patch into the records at the given positions. */
  function PatchAt(data: seq<Record>, positions: set<int>, patch: Record): (r: seq<Record>)
    ensures |r| == |data|
    ensures forall i :: 0 <= i < |data| ==> r[i] == if i in positions then Merge(data[i], patch) else data[i]
  {
    seq(|data|, i requires 0 <= i < |data| => if i in positions then Merge(data[i], patch) else data[i])
  }

  function Targets(matched: seq<Record>): set<int>
  {
    set m | m in matched :: Position(m)
  }

  /** Proof helper: Targets unfolded by one matched record. */
  lemma TargetsCons(matched: seq<Record>)
    requires matched != []
    ensures Targets(matched) == {Position(matched[0])} + Targets(matched[1..])
  {
    assert forall m :: m in matched <==> m == matched[0] || m in matched[1..];
  }

  /**
   * Update's loop, when every matched record's `_id - 1` is an index of the
   * current data: the length is kept and the patch lands on those indices.
   */
  lemma {:induction false} MergeAtIndices(data: seq<Record>, matched: seq<Record>, patch: Record)
    requires forall j :: 0 <= j < |matched| ==> IsIndex(IdIndex(matched[j]), |data|)
    ensures MergeAtIds(data, matched, patch) == PatchAt(data, Targets(matched), patch)
    decreases |matched|
  {
    if matched == [] {
      assert PatchAt(data, {}, patch) == data;
    } else {
      var m := matched[0];
      var k := Position(m);
      ActualStartAtIndex(IdIndex(m), |data|);
      var step := MergeAtId(data, m, patch);
      assert step == PatchAt(data, {k}, patch);
      MergeAtIndices(step, matched[1..], patch);
      TargetsCons(matched);
      PatchAtTwice(data, k, Targets(matched[1..]), patch);
    }
  }

  /** Patching one index and then a set of indices is patching their union: a second merge changes nothing. */
  lemma PatchAtTwice(data: seq<Record>, k: int, positions: set<int>, patch: Record)
    ensures PatchAt(PatchAt(data, {k}, patch), positions, patch) == PatchAt(data, {k} + positions, patch)
  {
    var step := PatchAt(data, {k}, patch);
    forall i | 0 <= i < |data|
      ensures PatchAt(step, positions, patch)[i] == PatchAt(data, {k} + positions, patch)[i]
    {
      MergeIdempotent(data[i], patch);
    }
  }

  /**
   * When the matching records sit at their `_id`s, the matched records'
   * `_id - 1` are indices of the data, naming exactly the matching positions.
   */
  lemma TargetsOfFilter(data: seq<Record>, where: Record)
    requires MatchesPositional(data, where)
    ensures forall j :: 0 <= j < |Filter(data, where)| ==> IsIndex(IdIndex(Filter(data, where)[j]), |data|)
    ensures Targets(Filter(data, where)) == set i | 0 <= i < |data| && Matches(data[i], where)
  {
    var matched := Filter(data, where);
    FilterMembers(data, where);
    forall j | 0 <= j < |matched|
      ensures IsIndex(IdIndex(matched[j]), |data|)
    {
      MatchedAt(data, where, matched[j]);
    }
    var hits := set i | 0 <= i < |data| && Matches(data[i], where);
    forall t | t in hits
      ensures t in Targets(matched)
    {
      assert data[t] in matched;
      assert Position(data[t]) == t;
    }
    forall t | t in Targets(matched)
      ensures t in hits
    {
      var m :| m in matched && Position(m) == t;
      MatchedAt(data, where, m);
    }
  }

  /** A matching record of the data sits at its own `_id - 1`. */
  lemma MatchedAt(data: seq<Record>, where: Record, m: Record)
    requires MatchesPositional(data, where)
    requires m in data && Matches(m, where)
    ensures IsIndex(IdIndex(m), |data|)
    ensures 0 <= Position(m) < |data| && data[Position(m)] == m
  {
    var i :| 0 <= i < |data| && data[i] == m;
    assert IdIndex(data[i]) == Finite(i as real);
  }

  /**
   * Update by `_id - 1` is right whenever every matching record's `_id` is
   * its position, whatever the other records' `_id`s: each matching record
   * becomes `{...old, ...patch}` (patch keys win, `_id` included), every
   * other record and the length stay as they were.
   */
  lemma UpdatePositional(data: seq<Record>, where: Record, patch: Record)
    requires MatchesPositional(data, where)
    ensures MergeAtIds(data, Filter(data, where), patch) == PatchMatching(data, where, patch)
  {
    TargetsOfFilter(data, where);
    MergeAtIndices(data, Filter(data, where), patch);
  }

  /** A record `{_id: id, field: value}` with numeric values. */
  function Rec(id: int, field: string, value: int): Record
  {
    map["_id" := Num(Finite(id as real)), field := Num(Finite(value as real))]
  }

  /** Proof helper: the field and the `_id` index of a sample record. */
  lemma RecFields(id: int, field: string, value: int)
    requires field != "_id"
    ensures Get(Rec(id, field, value), field) == Num(Finite(value as real))
    ensures IdIndex(Rec(id, field, value)) == Finite((id - 1) as real)
  {
    assert Get(Rec(id, field, value), "_id") == Num(Finite(id as real));
  }

  /** The where clause `{a: 1}`. */
  function WhereA1(): Record
  {
    map["a" := Num(Finite(1.0))]
  }

  lemma SampleMatches()
    ensures Matches(Rec(1, "a", 1), WhereA1()) && Matches(Rec(3, "a", 1), WhereA1())
    ensures !Matches(Rec(2, "a", 2), WhereA1())
  {
    RecFields(1, "a", 1);
    RecFields(2, "a", 2);
    RecFields(3, "a", 1);
    MatchesSingleKey(Rec(1, "a", 1), "a", Num(Finite(1.0)));
    MatchesSingleKey(Rec(2, "a", 2), "a", Num(Finite(1.0)));
    MatchesSingleKey(Rec(3, "a", 1), "a", Num(Finite(1.0)));
  }

  /** Proof helper: Filter unfolded by one record, for the samples. */
  lemma FilterCons(r: Record, rest: seq<Record>, where: Record)
    ensures Filter([r] + rest, where) == (if Matches(r, where) then [r] else []) + Filter(rest, where)
  {
    var data := [r] + rest;
    assert data[0] == r && data[1..] == rest;
  }

  /** Proof helper: RemoveMatching unfolded by one record, for the samples. */
  lemma RemoveMatchingCons(r: Record, rest: seq<Record>, where: Record)
    ensures RemoveMatching([r] + rest, where) == (if Matches(r, where) then [] else [r]) + RemoveMatching(rest, where)
  {
    var data := [r] + rest;
    assert data[0] == r && data[1..] == rest;
  }

  lemma SampleFilter(r1: Record, r2: Record, r3: Record, where: Record)
    requires Matches(r1, where) && !Matches(r2, where) && Matches(r3, where)
    ensures Filter([r1, r2, r3], where) == [r1, r3]
  {
    FilterCons(r3, [], where);
    assert [r3] + [] == [r3];
    FilterCons(r2, [r3], where);
    assert [r2] + [r3] == [r2, r3];
    FilterCons(r1, [r2, r3], where);
    assert [r1] + [r2, r3] == [r1, r2, r3];
  }

  lemma SampleRemoveMatching(r1: Record, r2: Record, r3: Record, where: Record)
    requires Matches(r1, where) && !Matches(r2, where) && Matches(r3, where)
    ensures RemoveMatching([r1, r2, r3], where) == [r2]
  {
    RemoveMatchingCons(r3, [], where);
    assert [r3] + [] == [r3];
    RemoveMatchingCons(r2, [r3], where);
    assert [r2] + [r3] == [r2, r3];
    RemoveMatchingCons(r1, [r2, r3], where);
    assert [r1] + [r2, r3] == [r1, r2, r3];
  }

  lemma SampleSplices(r1: Record, r2: Record, r3: Record)
    requires IdIndex(r1) == Finite(0.0) && IdIndex(r3) == Finite(2.0)
    ensures RemoveAtIds([r1, r2, r3], [r1, r3]) == [r2, r3]
  {
    FirstSplice(r1, r2, r3);
    SecondSplice(r2, r3);
  }

  /** Proof helper: the first splice of the sample delete, stated apart to keep its proof small. */
  lemma FirstSplice(r1: Record, r2: Record, r3: Record)
    requires IdIndex(r1) == Finite(0.0)
    ensures RemoveAtIds([r1, r2, r3], [r1, r3]) == RemoveAtIds([r2, r3], [r3])
  {
    RemoveAtIdsCons([r1, r2, r3], r1, [r3]);
    assert [r1] + [r3] == [r1, r3];
    SpliceFront(r1, r2, r3);
  }

  /** Proof helper: the second splice of the sample delete, which falls past the end. */
  lemma SecondSplice(r2: Record, r3: Record)
    requires IdIndex(r3) == Finite(2.0)
    ensures RemoveAtIds([r2, r3], [r3]) == [r2, r3]
  {
    RemoveAtIdsCons([r2, r3], r3, []);
    assert [r3] + [] == [r3];
    SplicePastEnd([r2, r3], Finite(2.0));
  }

  /** Proof helper: RemoveAtIds unfolded by one matched record. */
  lemma RemoveAtIdsCons(data: seq<Record>, m: Record, rest: seq<Record>)
    ensures RemoveAtIds(data, [m] + rest) == RemoveAtIds(SpliceRemove(data, IdIndex(m)), rest)
  {
    var matched := [m] + rest;
    assert matched[0] == m && matched[1..] == rest;
  }

  /** Proof helper: a splice at index 0 drops the first of three records. */
  lemma SpliceFront(r1: Record, r2: Record, r3: Record)
    ensures SpliceRemove([r1, r2, r3], Finite(0.0)) == [r2, r3]
  {
    assert ActualStart(Finite(0.0), 3) == 0;
  }

  /** Proof helper: a splice starting at or past the end removes nothing. */
  lemma SplicePastEnd(data: seq<Record>, start: Number)
    requires start.Finite? && start.x.Floor as real == start.x && |data| <= start.x.Floor
    ensures SpliceRemove(data, start) == data
  {
  }

  /**
   * Two matches in one delete: `[{_id:1,a:1}, {_id:2,a:2}, {_id:3,a:1}]`
   * with where `{a:1}`. The first splice removes index 0 and shifts the
   * third record to index 1, so the second splice, at index 2, is past the
   * end and removes nothing: `{_id:3,a:1}` survives. Every `_id` here equals
   * its position.
   */
  lemma DeleteTwoMatchesKeepsOne()
    ensures var data := [Rec(1, "a", 1), Rec(2, "a", 2), Rec(3, "a", 1)];
      && Positional(data)
      && RemoveAtIds(data, Filter(data, WhereA1())) == [Rec(2, "a", 2), Rec(3, "a", 1)]
      && RemoveMatching(data, WhereA1()) == [Rec(2, "a", 2)]
  {
    var r1, r2, r3 := Rec(1, "a", 1), Rec(2, "a", 2), Rec(3, "a", 1);
    RecFields(1, "a", 1);
    RecFields(2, "a", 2);
    RecFields(3, "a", 1);
    SampleMatches();
    SampleDelete(r1, r2, r3, WhereA1());
  }

  lemma SampleDelete(r1: Record, r2: Record, r3: Record, where: Record)
    requires Matches(r1, where) && !Matches(r2, where) && Matches(r3, where)
    requires IdIndex(r1) == Finite(0.0) && IdIndex(r2) == Finite(1.0) && IdIndex(r3) == Finite(2.0)
    ensures Positional([r1, r2, r3])
    ensures RemoveAtIds([r1, r2, r3], Filter([r1, r2, r3], where)) == [r2, r3]
    ensures RemoveMatching([r1, r2, r3], where) == [r2]
  {
    SampleFilter(r1, r2, r3, where);
    SampleRemoveMatching(r1, r2, r3, where);
    SampleSplices(r1, r2, r3);
  }

  /**
   * Update after a deletion: `[{_id:2,a:1}]` (what deleting `{_id:1}` from
   * two records leaves) with where `{a:1}` and patch `{b:9}`. The index
   * `_id - 1 = 1` is past the end, `docData[1]` is undefined, and the splice
   * appends the bare patch as a new record without an `_id`, leaving the
   * matched record unpatched.
   */
  lemma UpdateAfterDeleteAppendsPatch()
    ensures var data := [Rec(2, "a", 1)];
      var where := map["a" := Num(Finite(1.0))];
      var patch := map["b" := Num(Finite(9.0))];
      && MergeAtIds(data, Filter(data, where), patch) == [Rec(2, "a", 1), patch]
      && PatchMatching(data, where, patch) == [Merge(Rec(2, "a", 1), patch)]
  {
    var s := Rec(2, "a", 1);
    var data := [s];
    var where := map["a" := Num(Finite(1.0))];
    var patch := map["b" := Num(Finite(9.0))];
    MatchesSingleKey(s, "a", where["a"]);
    assert Get(s, "a") == where["a"];
    assert Matches(s, where);
    assert Filter(data, where) == [s] by {
      assert data[1..] == [];
    }
    assert IdIndex(s) == Finite(1.0);
    assert ElementAt(data, Finite(1.0)) == None;
    assert Merge(Spread(None), patch) == patch;
    assert MergeAtId(data, s, patch) == [s, patch];
  }

  /**
   * `_id = length + 1` after a deletion hands out an `_id` already in use:
   * deleting `{_id:1}` from `[{_id:1,a:1}, {_id:2,a:2}]` leaves
   * `[{_id:2,a:2}]`, and the next insert is assigned `_id` 2 again.
   */
  lemma InsertAfterDeleteReusesId(fields: Record)
    requires "_id" !in fields
    ensures var data := [Rec(1, "a", 1), Rec(2, "a", 2)];
      var where := map["_id" := Num(Finite(1.0))];
      var rest := RemoveAtIds(data, Filter(data, where));
      && rest == [Rec(2, "a", 2)]
      && NewRecord(|rest|, fields)["_id"] == rest[0]["_id"]
  {
    var r1, r2 := Rec(1, "a", 1), Rec(2, "a", 2);
    var data := [r1, r2];
    var where := map["_id" := Num(Finite(1.0))];
    MatchesSingleKey(r1, "_id", where["_id"]);
    MatchesSingleKey(r2, "_id", where["_id"]);
    assert Get(r1, "_id") == where["_id"];
    assert Matches(r1, where);
    assert Get(r2, "_id") == Num(Finite(2.0));
    assert !Matches(r2, where);
    assert Filter(data, where) == [r1] by {
      assert data[1..] == [r2];
      assert Filter([r2][1..], where) == [];
    }
    assert IdIndex(r1) == Finite(0.0);
    assert SpliceRemove(data, Finite(0.0)) == [r2];
    assert [r1][1..] == [];
    assert RemoveAtIds(data, [r1]) == RemoveAtIds([r2], []) == [r2];
    assert NewRecord(1, fields)["_id"] == Num(Finite(2.0)) == r2["_id"];
  }

  /**
   * insert lets the caller's own `_id` win, so a string `_id` such as "-1"
   * can be stored, last, as insert pushes it. Delete then splices at
   * `"-1" - 1`, which is -2 and counts from the end: with three records the
   * middle one goes and the matched one stays.
   */
  lemma NegativeStringIdFromEnd(r1: Record, r2: Record, m: Record)
    requires m == map["_id" := Str("-1")]
    ensures RemoveAtIds([r1, r2, m], [m]) == [r1, m]
  {
    MinusOneIdIndex(m);
    assert ActualStart(Finite(-2.0), 3) == 1;
    assert SpliceRemove([r1, r2, m], Finite(-2.0)) == [r1, m];
    assert [m][1..] == [];
  }

  /** Proof helper: the string `_id` "-1" gives index -2, stated apart to keep NegativeStringIdFromEnd small. */
  lemma MinusOneIdIndex(m: Record)
    requires m == map["_id" := Str("-1")]
    ensures IdIndex(m) == Finite(-2.0)
  {
    NegativeOne("-1");
    assert Get(m, "_id") == Str("-1");
  }

  /**
   * After a deletion not every `_id` is a position, yet update is still
   * right when the matched records are: in `[{_id:1,a:1}, {_id:3,a:2}]`
   * only the second is out of place, and `{a:1}` matches the first alone.
   */
  lemma AfterDeleteMatchesPositional()
    ensures var data := [Rec(1, "a", 1), Rec(3, "a", 2)];
      !Positional(data) && MatchesPositional(data, WhereA1())
  {
    var data := [Rec(1, "a", 1), Rec(3, "a", 2)];
    RecFields(1, "a", 1);
    RecFields(3, "a", 2);
    SampleMatches();
    assert !Matches(data[1], WhereA1()) by {
      MatchesSingleKey(data[1], "a", Num(Finite(1.0)));
    }
    assert IdIndex(data[1]) != Finite(1.0);
  }
}
