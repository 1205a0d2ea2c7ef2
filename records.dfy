/** The collection operations both controllers share: lookup by `id`
    (`find`/`findIndex`), removal at a position (`splice(i, 1)`), and the
    property-by-property merge of the update handlers. */
module Records {
  import opened JsonValues

  datatype Option<T> = None | Some(value: T)

  /** `r.id === id` for a route parameter `id`. */
  predicate HasId(r: Record, id: string)
  {
    Get(r, "id") == Str(id)
  }

  predicate IdInUse(rs: seq<Record>, id: string)
  {
    exists i :: 0 <= i < |rs| && HasId(rs[i], id)
  }

  /** No two records carry the same `id` value. */
  predicate UniqueIds(rs: seq<Record>)
  {
    forall i, j :: 0 <= i < j < |rs| ==> Get(rs[i], "id") != Get(rs[j], "id")
  }

  /** `rs.findIndex((r) => r.id === id)`, with `None` for -1; `find` returns
      the record at this position. */
  function FirstIndexOf(rs: seq<Record>, id: string): (r: Option<nat>)
    ensures r.Some? ==> r.value < |rs| && HasId(rs[r.value], id)
    ensures r.Some? ==> forall j :: 0 <= j < r.value ==> !HasId(rs[j], id)
    ensures r.None? <==> !IdInUse(rs, id)
  {
    if |rs| == 0 then None
    else if HasId(rs[0], id) then Some(0)
    else
      match FirstIndexOf(rs[1..], id)
      case None =>
        assert forall j :: 1 <= j < |rs| ==> rs[j] == rs[1..][j - 1];
        None
      case Some(i) =>
        assert forall j :: 1 <= j < i + 1 ==> rs[j] == rs[1..][j - 1];
        Some(i + 1)
  }

  /** Two lookups of the same id in the same collection agree, and any
      position holding the id, with no earlier one, is the one found. */
  lemma FirstIndexOfIsFirst(rs: seq<Record>, id: string, i: nat)
    requires i < |rs| && HasId(rs[i], id)
    requires forall j :: 0 <= j < i ==> !HasId(rs[j], id)
    ensures FirstIndexOf(rs, id) == Some(i)
  {
    assert IdInUse(rs, id);
  }

  /** Appending a record that carries an id nobody else carries makes it the
      record found for that id. */
  lemma FirstIndexOfAppended(rs: seq<Record>, x: Record, id: string)
    requires !IdInUse(rs, id) && HasId(x, id)
    ensures FirstIndexOf(rs + [x], id) == Some(|rs|)
  {
    var s := rs + [x];
    forall j | 0 <= j < |rs| ensures !HasId(s[j], id) {
      assert s[j] == rs[j];
    }
    FirstIndexOfIsFirst(s, id, |rs|);
  }

  /** `rs.splice(i, 1)`: the record at `i` is removed and the others keep
      their relative order. */
  function RemoveAt(rs: seq<Record>, i: nat): (r: seq<Record>)
    requires i < |rs|
    ensures |r| == |rs| - 1
    ensures forall j :: 0 <= j < i ==> r[j] == rs[j]
    ensures forall j :: i <= j < |r| ==> r[j] == rs[j + 1]
    ensures multiset(r) + multiset{rs[i]} == multiset(rs)
  {
    assert rs == rs[..i] + [rs[i]] + rs[i + 1..];
    rs[..i] + rs[i + 1..]
  }

  /** After removing the record with a given id from a collection whose ids
      are unique, no record carries that id any more. */
  lemma {:induction false} RemovedIdIsGone(rs: seq<Record>, i: nat, id: string)
    requires i < |rs| && UniqueIds(rs) && HasId(rs[i], id)
    ensures !IdInUse(RemoveAt(rs, i), id)
  {
    var r := RemoveAt(rs, i);
    forall j | 0 <= j < |r| ensures !HasId(r[j], id) {
      if j < i {
        assert Get(rs[j], "id") != Get(rs[i], "id");
      } else {
        assert r[j] == rs[j + 1];
        assert Get(rs[i], "id") != Get(rs[j + 1], "id");
      }
    }
  }

  lemma {:induction false} RemovePreservesUniqueIds(rs: seq<Record>, i: nat)
    requires i < |rs| && UniqueIds(rs)
    ensures UniqueIds(RemoveAt(rs, i))
  {
    var r := RemoveAt(rs, i);
    forall a, b | 0 <= a < b < |r| ensures Get(r[a], "id") != Get(r[b], "id") {
      var a' := if a < i then a else a + 1;
      var b' := if b < i then b else b + 1;
      assert r[a] == rs[a'] && r[b] == rs[b'] && a' < b';
    }
  }

  lemma {:induction false} AppendPreservesUniqueIds(rs: seq<Record>, x: Record, id: string)
    requires UniqueIds(rs) && !IdInUse(rs, id) && HasId(x, id)
    ensures UniqueIds(rs + [x])
  {
    var s := rs + [x];
    forall a, b | 0 <= a < b < |s| ensures Get(s[a], "id") != Get(s[b], "id") {
      assert s[a] == rs[a];
      if b == |rs| {
        assert !HasId(rs[a], id);
      } else {
        assert s[b] == rs[b];
      }
    }
  }

  lemma {:induction false} ReplacePreservesUniqueIds(rs: seq<Record>, i: nat, x: Record)
    requires i < |rs| && UniqueIds(rs) && Get(x, "id") == Get(rs[i], "id")
    ensures UniqueIds(rs[i := x])
  {
    var s := rs[i := x];
    forall a, b | 0 <= a < b < |s| ensures Get(s[a], "id") != Get(s[b], "id") {
      assert Get(s[a], "id") == Get(rs[a], "id");
      assert Get(s[b], "id") == Get(rs[b], "id");
    }
  }

  /** The update handlers' merge: every property the entity already has takes
      the payload's value for that name (`undefined` when the payload lacks
      it), except the protected names, which keep their value. No property is
      added or removed. */
  function Merge(entity: Record, payload: Record, protected: set<string>): Record
  {
    map k | k in entity :: if k in protected then entity[k] else Get(payload, k)
  }

  lemma MergeShape(entity: Record, payload: Record, protected: set<string>)
    ensures Merge(entity, payload, protected).Keys == entity.Keys
    ensures forall k :: k in entity && k in protected ==> Merge(entity, payload, protected)[k] == entity[k]
    ensures forall k :: k in entity && k !in protected ==> Merge(entity, payload, protected)[k] == Get(payload, k)
  {
  }

  /** Merging the same payload a second time changes nothing. */
  lemma MergeIdempotent(entity: Record, payload: Record, protected: set<string>)
    ensures Merge(Merge(entity, payload, protected), payload, protected) == Merge(entity, payload, protected)
  {
    var once := Merge(entity, payload, protected);
    var twice := Merge(once, payload, protected);
    assert twice.Keys == once.Keys;
    forall k | k in once ensures twice[k] == once[k] {
    }
  }

  /** The loop of the update handlers: for each own property name of the
      entity, if it is not protected and its value differs from the payload's,
      assign the payload's value. */
  method MergeProperties(entity: Record, payload: Record, protected: set<string>) returns (merged: Record)
    ensures merged == Merge(entity, payload, protected)
  {
    merged := entity;
    var names := entity.Keys;
    while names != {}
      invariant names <= entity.Keys
      invariant merged.Keys == entity.Keys
      invariant forall k :: k in names ==> merged[k] == entity[k]
      invariant forall k :: k in entity && k !in names ==> merged[k] == Merge(entity, payload, protected)[k]
      decreases names
    {
      var propName :| propName in names;
      if propName !in protected && merged[propName] != Get(payload, propName) {
        merged := merged[propName := Get(payload, propName)];
      }
      names := names - {propName};
    }
  }
}
