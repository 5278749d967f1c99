/**
 * The pending query of a collection container. The store's query builder is
 * reduced to the sequence of builder steps applied to the collection
 * reference, in the order they were applied; what the steps mean to the
 * store (filtering, sorting, capping) is left to the abstract store.
 */
module Queries {
  import opened Records

  /** The direction names handed to the store's `order_by`. */
  const ASCENDING: string := "ASCENDING"
  const DESCENDING: string := "DESCENDING"

  /** A comparison on one field, built by the model layer (`Model.field == value`). */
  datatype FieldFilter = FieldFilter(field: string, op: string, value: Value)

  /** One builder call on the store query. */
  datatype Step =
    | Where(filter: FieldFilter)
    | OrderBy(field: string, direction: string)
    | Limit(amount: int)

  /** A store query: the collection reference it starts from and the steps applied to it. */
  datatype Query = Query(collectionId: string, steps: seq<Step>) {

    /** The query after further builder calls. */
    function Then(more: seq<Step>): (q: Query)
      ensures q.collectionId == collectionId
      ensures q.steps == steps + more
    {
      Query(collectionId, steps + more)
    }
  }

  /** `get_firestore_collection_ref()`: the bare collection reference, with no steps. */
  function CollectionRef(collectionId: string): (q: Query)
    ensures q.collectionId == collectionId && q.steps == []
  {
    Query(collectionId, [])
  }

  /** `DESCENDING if desc else ASCENDING`. */
  function DirectionOf(desc: bool): (d: string)
    ensures d == DESCENDING <==> desc
    ensures d == ASCENDING <==> !desc
  {
    if desc then DESCENDING else ASCENDING
  }

  /** The `where` steps for a list of filters, one per filter, in argument order. */
  function WhereSteps(filters: seq<FieldFilter>): (steps: seq<Step>)
    ensures |steps| == |filters|
    ensures forall i :: 0 <= i < |filters| ==> steps[i] == Where(filters[i])
  {
    if filters == [] then [] else [Where(filters[0])] + WhereSteps(filters[1..])
  }

  /** Filtering by `a` and then by `b` builds the same steps as filtering by `a + b` at once. */
  lemma WhereStepsAppend(a: seq<FieldFilter>, b: seq<FieldFilter>)
    ensures WhereSteps(a + b) == WhereSteps(a) + WhereSteps(b)
  {
  }
}
