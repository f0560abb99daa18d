/**
 * `OperateLogMixin.get_serializer_data`: look one instance up by a single
 * field and serialize it, answering `None` when there is no such instance.
 *
 * The model's table is a sequence of rows (one per stored instance, in any
 * order). How the ORM compares a row with the lookup (after converting the
 * URL's text to the field's type, `pk` standing for the primary key), which
 * lookups it refuses before reading any row, and what the serializer makes
 * of a row are given as a `Resource`.
 */
module Snapshot {
  import opened Values

  /** The single-field lookup `{lookup_field: value}`. */
  datatype Lookup = Lookup(field: string, value: Json)

  /**
   * The view's model manager and serializer class: whether
   * `objects.get(**{key.field: key.value})` selects a row; the exception
   * `objects.get` raises for a lookup it cannot run at all (an unknown field
   * gives `FieldError`, a value the field cannot take gives `ValueError` or
   * `ValidationError`), `None` when it can; and `serializer_class(row).data`.
   */
  datatype Resource = Resource(
    matches: (Fields, Lookup) -> bool,
    refuses: Lookup -> Option<Fault>,
    serialize: Fields -> Fields)

  /** `row` is the only row of `rows` that the lookup selects. */
  predicate UniqueMatch(rows: seq<Fields>, resource: Resource, key: Lookup, i: int)
    requires 0 <= i < |rows|
  {
    resource.matches(rows[i], key) && forall j :: 0 <= j < |rows| && j != i ==> !resource.matches(rows[j], key)
  }

  /** The positions of the rows the lookup selects, in increasing order. */
  function MatchIndices(rows: seq<Fields>, resource: Resource, key: Lookup): seq<nat> {
    if rows == [] then []
    else
      var n := |rows| - 1;
      MatchIndices(rows[..n], resource, key) + (if resource.matches(rows[n], key) then [n] else [])
  }

  /** `MatchIndices` lists every selected position, only those, each once and in order. */
  lemma {:induction false} MatchIndicesExact(rows: seq<Fields>, resource: Resource, key: Lookup)
    ensures forall k :: 0 <= k < |MatchIndices(rows, resource, key)| ==>
              MatchIndices(rows, resource, key)[k] < |rows| && resource.matches(rows[MatchIndices(rows, resource, key)[k]], key)
    ensures forall i :: 0 <= i < |rows| && resource.matches(rows[i], key) ==> i in MatchIndices(rows, resource, key)
    ensures forall a, b :: 0 <= a < b < |MatchIndices(rows, resource, key)| ==>
              MatchIndices(rows, resource, key)[a] < MatchIndices(rows, resource, key)[b]
  {
    if rows != [] {
      var n := |rows| - 1;
      var front := rows[..n];
      MatchIndicesExact(front, resource, key);
      var prev := MatchIndices(front, resource, key);
      var ix := MatchIndices(rows, resource, key);
      assert ix == prev + (if resource.matches(rows[n], key) then [n] else []);
      forall k | 0 <= k < |prev|
        ensures ix[k] == prev[k] && prev[k] < n && resource.matches(rows[prev[k]], key)
      {
        assert front[prev[k]] == rows[prev[k]];
      }
      forall i | 0 <= i < |rows| && resource.matches(rows[i], key)
        ensures i in ix
      {
        if i < n {
          assert front[i] == rows[i];
        }
      }
    }
  }

  /**
   * `get_serializer_data`: `objects.get(**lookup)`, then the serializer's
   * data. Only `DoesNotExist` is caught; every other exception propagates.
   */
  function GetSerializerData(rows: seq<Fields>, key: Lookup, resource: Resource): Result<Option<Fields>> {
    if resource.refuses(key).Some? then
      Err(resource.refuses(key).value)
    else
      var ix := MatchIndices(rows, resource, key);
      MatchIndicesExact(rows, resource, key);
      if |ix| == 0 then
        Ok(None)
      else if |ix| == 1 then
        Ok(Some(resource.serialize(rows[ix[0]])))
      else
        Err(MultipleObjectsReturned)
  }

  /**
   * The found / not-found contract of `get_serializer_data`: a lookup the
   * ORM refuses raises its exception; otherwise no selected row is not an
   * error but `None`, exactly one selected row gives its serialization, and
   * two or more make `objects.get` raise `MultipleObjectsReturned`, which is
   * not caught either.
   */
  lemma GetSerializerDataContract(rows: seq<Fields>, key: Lookup, resource: Resource)
    ensures var r := GetSerializerData(rows, key, resource);
      && (resource.refuses(key).Some? ==> r == Err(resource.refuses(key).value))
      && (resource.refuses(key).None? ==>
            && (r == Ok(None) <==> forall i :: 0 <= i < |rows| ==> !resource.matches(rows[i], key))
            && (r.Err? <==> exists i, j :: 0 <= i < j < |rows| && resource.matches(rows[i], key) && resource.matches(rows[j], key))
            && (r.Err? ==> r.error == MultipleObjectsReturned)
            && (forall i :: 0 <= i < |rows| && UniqueMatch(rows, resource, key, i) ==> r == Ok(Some(resource.serialize(rows[i]))))
            && (r.Ok? && r.value.Some? ==>
                  exists i :: 0 <= i < |rows| && UniqueMatch(rows, resource, key, i) && r.value.value == resource.serialize(rows[i])))
  {
    var ix := MatchIndices(rows, resource, key);
    MatchIndicesExact(rows, resource, key);
    if |ix| >= 1 {
      assert ix[0] < |rows| && resource.matches(rows[ix[0]], key);
    }
    if |ix| >= 2 {
      assert ix[1] < |rows| && resource.matches(rows[ix[1]], key) && ix[0] < ix[1];
    }
  }
}
