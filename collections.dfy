/**
 * The result container of the collection layer: an ordered list of model
 * instances that also carries the pending store query it was evaluated
 * from. The remote store is represented by functions handed to the
 * operations that reach it: `run` streams the documents a query matches,
 * `lookup` fetches one document by collection and id, `count` is the
 * store's aggregate count.
 */
module Collections {
  import opened Wrappers
  import opened Records
  import opened Queries

  /** The message of the exception every blocked list mutator raises. */
  const MUTATION_MESSAGE: string := "Results cannot be mutated manually."

  /** The errors this layer produces itself. */
  datatype Error =
    | Immutable(message: string)    // a direct write to the result list
    | MissingAttribute(name: string) // `getattr` on a record without that attribute

  /** The models `eval` builds from a document stream: one synced model per document, in stream order. */
  function Materialize(docs: seq<Doc>): (models: seq<Model>)
    ensures |models| == |docs|
  {
    if docs == [] then []
    else Materialize(docs[..|docs| - 1]) + [MarkSynced(FromDbDict(docs[|docs| - 1]))]
  }

  /** Evaluation builds exactly one model per document, the i-th from the i-th document. */
  lemma {:induction false} MaterializeAt(docs: seq<Doc>)
    ensures |Materialize(docs)| == |docs|
    ensures forall i :: 0 <= i < |docs| ==> Materialize(docs)[i] == MarkSynced(FromDbDict(docs[i]))
  {
    if docs != [] {
      MaterializeAt(docs[..|docs| - 1]);
    }
  }

  /** Every model evaluation produces is marked synced and holds its document's fields. */
  lemma {:induction false} MaterializeSynced(docs: seq<Doc>)
    ensures |Materialize(docs)| == |docs|
    ensures forall i :: 0 <= i < |docs| ==>
      Materialize(docs)[i].isSync && Materialize(docs)[i].fields == docs[i]
  {
    MaterializeAt(docs);
  }

  /** Evaluating a longer stream extends, never rewrites, the models of its prefix. */
  lemma {:induction false} MaterializeAppend(docs: seq<Doc>, more: seq<Doc>)
    ensures Materialize(docs + more) == Materialize(docs) + Materialize(more)
  {
    MaterializeAt(docs);
    MaterializeAt(more);
    MaterializeAt(docs + more);
    assert |Materialize(docs + more)| == |Materialize(docs) + Materialize(more)|;
    forall i | 0 <= i < |docs + more|
      ensures Materialize(docs + more)[i] == (Materialize(docs) + Materialize(more))[i]
    {
      if i >= |docs| {
        assert (docs + more)[i] == more[i - |docs|];
      }
    }
  }

  /** `first`: the first record, or `None` for an empty list. */
  function FirstOf(rs: seq<Model>): (r: Option<Model>)
    ensures r.None? <==> rs == []
    ensures r.Some? ==> r.value == rs[0]
  {
    if |rs| > 0 then Some(rs[0]) else None
  }

  /** `last`: the last record (`self[-1]`), or `None` for an empty list. */
  function LastOf(rs: seq<Model>): (r: Option<Model>)
    ensures r.None? <==> rs == []
    ensures r.Some? ==> r.value == rs[|rs| - 1]
  {
    if |rs| > 0 then Some(rs[|rs| - 1]) else None
  }

  /** `pluck`: each record's attribute `name`, in record order; fails on the first record without it. */
  function PluckValues(rs: seq<Model>, name: string): (r: Result<seq<Value>, Error>)
    ensures r.Ok? <==> forall i :: 0 <= i < |rs| ==> name in rs[i].fields
    ensures r.Ok? ==> |r.value| == |rs| && forall i :: 0 <= i < |rs| ==> r.value[i] == rs[i].fields[name]
    ensures r.Err? ==> r.error == MissingAttribute(name)
  {
    if rs == [] then Ok([])
    else if name !in rs[0].fields then Err(MissingAttribute(name))
    else match PluckValues(rs[1..], name)
      case Ok(vs) => Ok([rs[0].fields[name]] + vs)
      case Err(e) => Err(e)
  }

  /** Plucking a field of an evaluated list reads that field of each streamed document, in stream order. */
  lemma PluckAfterEvaluation(docs: seq<Doc>, name: string)
    requires forall i :: 0 <= i < |docs| ==> name in docs[i]
    ensures PluckValues(Materialize(docs), name).Ok?
    ensures PluckValues(Materialize(docs), name).value == seq(|docs|, i requires 0 <= i < |docs| => docs[i][name])
  {
    MaterializeAt(docs);
  }

  /** The outcome of every blocked list mutator. */
  function Blocked(): (o: Outcome<Error>)
    ensures o.Fail? && o.error == Immutable(MUTATION_MESSAGE)
  {
    Fail(Immutable(MUTATION_MESSAGE))
  }

  /** A result container of one collection. */
  class Collection {
    /** The store collection this container class is bound to (`collection_id`). */
    const collectionId: string
    /** The pending store query (`self.query`). */
    var query: Query
    /** The materialised results (the list contents). */
    var records: seq<Model>
    /** How many times this container has been evaluated. */
    ghost var evaluations: nat

    /** `cls(records)`: the given records and the bare collection reference as query. */
    constructor (collectionId: string, records: seq<Model>)
      ensures this.collectionId == collectionId
      ensures query == CollectionRef(collectionId)
      ensures this.records == records
      ensures evaluations == 0
    {
      this.collectionId := collectionId;
      query := CollectionRef(collectionId);
      this.records := records;
      evaluations := 0;
    }

    /** `Collection.all()`: a new container started from an empty list and evaluated once. */
    static method All(collectionId: string, run: Query -> seq<Doc>) returns (c: Collection)
      ensures fresh(c)
      ensures c.collectionId == collectionId && c.query == CollectionRef(collectionId)
      ensures c.records == Materialize(run(CollectionRef(collectionId)))
      ensures c.evaluations == 1
    {
      c := new Collection(collectionId, []);
      var _ := c.Eval(run);
    }

    /** `Collection.get(id)`: the synced model of the document, or `None` when it does not exist. */
    static function Get(collectionId: string, documentId: string,
                        lookup: (string, string) -> Option<Doc>): (r: Option<Model>)
      ensures r.None? <==> lookup(collectionId, documentId).None?
      ensures r.Some? ==> r.value.isSync && r.value.fields == lookup(collectionId, documentId).value
    {
      match lookup(collectionId, documentId)
      case None => None
      case Some(d) => Some(MarkSynced(FromDbDict(d)))
    }

    /** `Collection.create(**fields)`: a new model, saved once, returned. */
    static method Create(fields: map<string, Value>) returns (document: Model, calls: seq<Call>)
      ensures document.fields == fields && !document.isSync
      ensures calls == [Save(document)]
    {
      document := NewModel(fields);
      calls := [Save(document)];
    }

    /** `eval`: run the pending query and replace the records with one synced model per document. */
    method Eval(run: Query -> seq<Doc>) returns (c: Collection)
      modifies this
      ensures c == this
      ensures query == old(query)
      ensures records == Materialize(run(query))
      ensures |records| == |run(query)|
      ensures forall i :: 0 <= i < |records| ==>
        records[i] == MarkSynced(FromDbDict(run(query)[i])) && records[i].isSync
      ensures evaluations == old(evaluations) + 1
    {
      var documents := run(query);
      var instances: seq<Model> := [];
      for i := 0 to |documents|
        invariant instances == Materialize(documents[..i])
      {
        var instance := FromDbDict(documents[i]);
        instance := instance.(isSync := true);
        assert documents[..i + 1][..i] == documents[..i];
        instances := instances + [instance];
      }
      assert documents[..|documents|] == documents;
      records := instances;
      evaluations := evaluations + 1;
      MaterializeAt(documents);
      c := this;
    }

    /** `where(*filters)`: add one `where` step per filter, in argument order, then evaluate. */
    method Where(filters: seq<FieldFilter>, run: Query -> seq<Doc>) returns (c: Collection)
      modifies this
      ensures c == this
      ensures query == old(query).Then(WhereSteps(filters))
      ensures records == Materialize(run(query))
      ensures evaluations == old(evaluations) + 1
    {
      for i := 0 to |filters|
        invariant query == old(query).Then(WhereSteps(filters[..i]))
        invariant evaluations == old(evaluations)
      {
        WhereStepsAppend(filters[..i], [filters[i]]);
        assert filters[..i + 1] == filters[..i] + [filters[i]];
        query := query.Then([Step.Where(filters[i])]);
      }
      assert filters[..|filters|] == filters;
      c := Eval(run);
    }

    /** `first()`, on this container's records. */
    function First(): (r: Option<Model>)
      reads this
      ensures r.None? <==> records == []
      ensures r.Some? ==> r.value == records[0]
    {
      FirstOf(records)
    }

    /** `last()`, on this container's records. */
    function Last(): (r: Option<Model>)
      reads this
      ensures r.None? <==> records == []
      ensures r.Some? ==> r.value == records[|records| - 1]
    {
      LastOf(records)
    }

    /** `order_by(field, desc=False)`: add one ordering step, then evaluate. */
    method OrderBy(field: string, run: Query -> seq<Doc>, desc: bool := false) returns (c: Collection)
      modifies this
      ensures c == this
      ensures query == old(query).Then([Step.OrderBy(field, DirectionOf(desc))])
      ensures records == Materialize(run(query))
      ensures evaluations == old(evaluations) + 1
    {
      var direction := if desc then DESCENDING else ASCENDING;
      query := query.Then([Step.OrderBy(field, direction)]);
      c := Eval(run);
    }

    /** `limit(amount)`: add the amount as given (it is not checked), then evaluate. */
    method Limit(amount: int, run: Query -> seq<Doc>) returns (c: Collection)
      modifies this
      ensures c == this
      ensures query == old(query).Then([Step.Limit(amount)])
      ensures records == Materialize(run(query))
      ensures evaluations == old(evaluations) + 1
    {
      query := query.Then([Step.Limit(amount)]);
      c := Eval(run);
    }

    /** `count()`: the store's aggregate count for the pending query, not the number of records. */
    method Count(count: Query -> int) returns (n: int)
      ensures n == count(query)
    {
      n := count(query);
    }

    /** `pluck(name)`, on this container's records. */
    function Pluck(name: string): (r: Result<seq<Value>, Error>)
      reads this
      ensures r.Ok? <==> forall i :: 0 <= i < |records| ==> name in records[i].fields
      ensures r.Ok? ==> |r.value| == |records| && forall i :: 0 <= i < |records| ==> r.value[i] == records[i].fields[name]
      ensures r.Err? ==> r.error == MissingAttribute(name)
    {
      PluckValues(records, name)
    }

    /** `delete()`: one `delete` call per record, in record order; the records stay as they are. */
    method Delete() returns (calls: seq<Call>)
      ensures |calls| == |records|
      ensures forall i :: 0 <= i < |records| ==> calls[i] == Call.Delete(records[i])
    {
      calls := [];
      for i := 0 to |records|
        invariant |calls| == i
        invariant forall k :: 0 <= k < i ==> calls[k] == Call.Delete(records[k])
      {
        calls := calls + [Call.Delete(records[i])];
      }
    }

    /** `append(x)`: always refused; nothing changes. */
    method Append(x: Model) returns (o: Outcome<Error>)
      ensures o == Fail(Immutable(MUTATION_MESSAGE))
    {
      o := Blocked();
    }

    /** `insert(index, x)`: always refused; nothing changes. */
    method Insert(index: int, x: Model) returns (o: Outcome<Error>)
      ensures o == Fail(Immutable(MUTATION_MESSAGE))
    {
      o := Blocked();
    }

    /** `self + other`: always refused; nothing changes. */
    method Add(other: seq<Model>) returns (o: Outcome<Error>)
      ensures o == Fail(Immutable(MUTATION_MESSAGE))
    {
      o := Blocked();
    }

    /** `self += other`: always refused; nothing changes. */
    method InPlaceAdd(other: seq<Model>) returns (o: Outcome<Error>)
      ensures o == Fail(Immutable(MUTATION_MESSAGE))
    {
      o := Blocked();
    }
  }
}
