/**
 * `hybrid_method`: a `classmethod` subclass whose `__get__` decides what a
 * container method is bound to. The attribute lookup itself is reduced to
 * that decision, to the container the decision builds, and to what the
 * decorated `first`, `last` and `where` then do with the object they get
 * as `self`.
 */
module Utils {
  import opened Wrappers
  import opened Records
  import opened Queries
  import opened Collections

  /** What a hybrid method call has as `self` once `__get__` has bound it. */
  datatype Receiver =
    | OwnerClass     // the container class itself
    | NoReceiver     // nothing: the plain function, called without `self`
    | Instance       // the container the method was looked up on
    | FreshContainer // a new container of all records

  /** The exceptions a container method raises when `self` is not a container. */
  datatype CallError =
    | MissingSelf               // TypeError: the function is called without its `self` argument
    | NoLen                     // TypeError: `len()` of the container class
    | NoAttribute(name: string) // AttributeError: `self.<name>` on an object that has no such attribute

  /**
   * The binding as written. `if instance:` is list truthiness. A truthy
   * instance goes to `classmethod.__get__`, which binds the owner class.
   * Otherwise `function.__get__(instance, fresh)` ignores the fresh
   * container: it binds the instance when there is one and returns the
   * plain function when there is none.
   */
  function ReceiverAsWritten(present: bool, size: nat): (r: Receiver)
    ensures r == OwnerClass <==> present && size > 0
    ensures r == Instance <==> present && size == 0
    ensures r == NoReceiver <==> !present
  {
    if present && size > 0 then OwnerClass
    else if present then Instance
    else NoReceiver
  }

  /** The binding the adapter's docstring describes: the instance when there is one, otherwise a new container. */
  function ReceiverIntended(present: bool): (r: Receiver)
    ensures r == Instance <==> present
    ensures r == FreshContainer <==> !present
  {
    if present then Instance else FreshContainer
  }

  /** The records of the instance a call was looked up on; none for a call on the class. */
  function RecordsOf(instance: Collection?): seq<Model>
    reads instance
  {
    if instance != null then instance.records else []
  }

  /** The records of the container of all records right after it is built and evaluated. */
  function AllRecords(collectionId: string, run: Query -> seq<Doc>): seq<Model>
  {
    Materialize(run(CollectionRef(collectionId)))
  }

  /** The outcome of `first()` bound to `r`: `own` are the instance's records, `all` the new container's. */
  function FirstOn(r: Receiver, own: seq<Model>, all: seq<Model>): (o: Result<Option<Model>, CallError>)
    ensures o.Err? <==> r == OwnerClass || r == NoReceiver
  {
    match r
    case OwnerClass => Err(NoLen)
    case NoReceiver => Err(MissingSelf)
    case Instance => Ok(FirstOf(own))
    case FreshContainer => Ok(FirstOf(all))
  }

  /** The outcome of `last()` bound to `r`. */
  function LastOn(r: Receiver, own: seq<Model>, all: seq<Model>): (o: Result<Option<Model>, CallError>)
    ensures o.Err? <==> r == OwnerClass || r == NoReceiver
  {
    match r
    case OwnerClass => Err(NoLen)
    case NoReceiver => Err(MissingSelf)
    case Instance => Ok(LastOf(own))
    case FreshContainer => Ok(LastOf(all))
  }

  /**
   * What `where(*filters)` raises when bound to something that is not a
   * container. With the class as `self`, the first filter reads
   * `self.query`, and with no filters `self.eval()` is the plain function
   * called without `self`. With nothing bound, the first filter becomes
   * `self`: the next filter reads its `query`, or, when it was the only
   * one, `self.eval` is looked up on it; with no filters at all, the plain
   * `where` is itself called without `self`.
   */
  function WhereFailure(r: Receiver, filters: seq<FieldFilter>): (e: Option<CallError>)
    ensures e.None? <==> r == Instance || r == FreshContainer
    ensures e.Some? && filters == [] ==> e.value == MissingSelf
    ensures r == OwnerClass && filters != [] ==> e == Some(NoAttribute("query"))
    ensures r == NoReceiver && |filters| == 1 ==> e == Some(NoAttribute("eval"))
    ensures r == NoReceiver && |filters| > 1 ==> e == Some(NoAttribute("query"))
  {
    match r
    case OwnerClass => Some(if filters == [] then MissingSelf else NoAttribute("query"))
    case NoReceiver =>
      Some(if filters == [] then MissingSelf
           else if |filters| == 1 then NoAttribute("eval")
           else NoAttribute("query"))
    case Instance => None
    case FreshContainer => None
  }

  /**
   * As written, `first()` succeeds only on a present but empty instance,
   * and there it returns `None`; on a non-empty result or on the class it raises.
   */
  lemma FirstAsWrittenFailsUnlessEmptyInstance(present: bool, own: seq<Model>, all: seq<Model>)
    ensures FirstOn(ReceiverAsWritten(present, |own|), own, all).Ok? <==> present && own == []
    ensures FirstOn(ReceiverAsWritten(present, |own|), own, all).Ok? ==>
      FirstOn(ReceiverAsWritten(present, |own|), own, all).value.None?
    ensures LastOn(ReceiverAsWritten(present, |own|), own, all).Ok? <==> present && own == []
  {
  }

  /** As written, `where(...)` raises unless it is looked up on a present but empty instance. */
  lemma WhereAsWrittenFailsUnlessEmptyInstance(present: bool, size: nat, filters: seq<FieldFilter>)
    ensures WhereFailure(ReceiverAsWritten(present, size), filters).None? <==> present && size == 0
  {
  }

  /**
   * Under the intended binding, `first()` and `last()` never raise: on an
   * instance they read its own records, on the class those of all records.
   */
  lemma IntendedFirstLastReadBoundRecords(present: bool, own: seq<Model>, all: seq<Model>)
    ensures FirstOn(ReceiverIntended(present), own, all) == Ok(FirstOf(if present then own else all))
    ensures LastOn(ReceiverIntended(present), own, all) == Ok(LastOf(if present then own else all))
  {
  }

  /** Under the intended binding, `where(...)` never raises. */
  lemma IntendedWhereNeverFails(present: bool, filters: seq<FieldFilter>)
    ensures WhereFailure(ReceiverIntended(present), filters).None?
  {
  }

  /** The written and the intended bindings agree only for a present but empty instance. */
  lemma BindingsAgreeOnlyOnEmptyInstance(present: bool, size: nat)
    ensures ReceiverAsWritten(present, size) == ReceiverIntended(present) <==> present && size == 0
  {
  }

  /**
   * `hybrid_method.__get__` as written: a truthy instance binds the owner
   * class and builds nothing; otherwise a container started from an empty
   * list is built and evaluated once, and then dropped (`discarded`), and
   * the call is bound to the instance or to nothing.
   */
  method Bind(instance: Collection?, collectionId: string, run: Query -> seq<Doc>)
    returns (receiver: Receiver, discarded: Collection?)
    requires instance != null ==> instance.collectionId == collectionId
    ensures receiver == ReceiverAsWritten(instance != null, |RecordsOf(instance)|)
    ensures receiver == OwnerClass ==> discarded == null
    ensures receiver != OwnerClass ==>
      && discarded != null
      && fresh(discarded)
      && discarded.collectionId == collectionId
      && discarded.query == CollectionRef(collectionId)
      && discarded.records == AllRecords(collectionId, run)
      && discarded.evaluations == 1
  {
    if instance != null && |instance.records| > 0 {
      receiver, discarded := OwnerClass, null;
    } else {
      var built := new Collection(collectionId, []);
      var _ := built.Eval(run);
      discarded := built;
      receiver := if instance != null then Instance else NoReceiver;
    }
  }

  /** `first()` through the binding as written. */
  method HybridFirst(instance: Collection?, collectionId: string, run: Query -> seq<Doc>)
    returns (r: Result<Option<Model>, CallError>)
    requires instance != null ==> instance.collectionId == collectionId
    ensures r == FirstOn(ReceiverAsWritten(instance != null, |RecordsOf(instance)|),
                         RecordsOf(instance), AllRecords(collectionId, run))
  {
    var receiver, _ := Bind(instance, collectionId, run);
    if receiver == OwnerClass {
      r := Err(NoLen);
    } else if receiver == NoReceiver {
      r := Err(MissingSelf);
    } else {
      r := Ok(instance.First());
    }
  }

  /** `last()` through the binding as written. */
  method HybridLast(instance: Collection?, collectionId: string, run: Query -> seq<Doc>)
    returns (r: Result<Option<Model>, CallError>)
    requires instance != null ==> instance.collectionId == collectionId
    ensures r == LastOn(ReceiverAsWritten(instance != null, |RecordsOf(instance)|),
                        RecordsOf(instance), AllRecords(collectionId, run))
  {
    var receiver, _ := Bind(instance, collectionId, run);
    if receiver == OwnerClass {
      r := Err(NoLen);
    } else if receiver == NoReceiver {
      r := Err(MissingSelf);
    } else {
      r := Ok(instance.Last());
    }
  }

  /**
   * `where(*filters)` through the binding as written: only a present but
   * empty instance runs it, extending and re-evaluating its own query;
   * every other call raises and changes no existing container.
   */
  method HybridWhere(instance: Collection?, collectionId: string, filters: seq<FieldFilter>,
                     run: Query -> seq<Doc>) returns (r: Result<Collection, CallError>)
    requires instance != null ==> instance.collectionId == collectionId
    modifies instance
    ensures r.Err? <==> old(ReceiverAsWritten(instance != null, |RecordsOf(instance)|)) != Instance
    ensures r.Err? ==>
      && WhereFailure(old(ReceiverAsWritten(instance != null, |RecordsOf(instance)|)), filters) == Some(r.error)
      && (instance != null ==> unchanged(instance))
    ensures r.Ok? ==>
      && r.value == instance
      && instance.query == old(instance.query).Then(WhereSteps(filters))
      && instance.records == Materialize(run(instance.query))
      && instance.evaluations == old(instance.evaluations) + 1
  {
    var receiver, _ := Bind(instance, collectionId, run);
    if receiver == Instance {
      var c := instance.Where(filters, run);
      r := Ok(c);
    } else {
      r := Err(WhereFailure(receiver, filters).value);
    }
  }

  /**
   * The corrected adapter: an existing instance is used as it is; a call on
   * the class gets a new collection, as the docstring says, built from an
   * empty list and evaluated once by the code at lines 27-28 of utils.py
   * (the state `Collection.all()` returns).
   */
  method BindIntended(instance: Collection?, collectionId: string, run: Query -> seq<Doc>)
    returns (target: Collection)
    requires instance != null ==> instance.collectionId == collectionId
    ensures instance != null ==> target == instance
    ensures instance == null ==>
      && fresh(target)
      && target.collectionId == collectionId
      && target.query == CollectionRef(collectionId)
      && target.records == AllRecords(collectionId, run)
      && target.evaluations == 1
  {
    if instance != null {
      target := instance;
    } else {
      target := new Collection(collectionId, []);
      var _ := target.Eval(run);
    }
  }

  /** `first()` through the intended adapter: never raises. */
  method HybridFirstIntended(instance: Collection?, collectionId: string, run: Query -> seq<Doc>)
    returns (r: Option<Model>)
    requires instance != null ==> instance.collectionId == collectionId
    ensures Ok(r) == FirstOn(ReceiverIntended(instance != null), RecordsOf(instance), AllRecords(collectionId, run))
    ensures instance != null ==> r == FirstOf(instance.records)
    ensures instance == null ==> r == FirstOf(AllRecords(collectionId, run))
  {
    var target := BindIntended(instance, collectionId, run);
    r := target.First();
  }

  /** `last()` through the intended adapter: never raises. */
  method HybridLastIntended(instance: Collection?, collectionId: string, run: Query -> seq<Doc>)
    returns (r: Option<Model>)
    requires instance != null ==> instance.collectionId == collectionId
    ensures Ok(r) == LastOn(ReceiverIntended(instance != null), RecordsOf(instance), AllRecords(collectionId, run))
    ensures instance != null ==> r == LastOf(instance.records)
    ensures instance == null ==> r == LastOf(AllRecords(collectionId, run))
  {
    var target := BindIntended(instance, collectionId, run);
    r := target.Last();
  }

  /**
   * `where(*filters)` through the intended adapter. On the class the new
   * container is evaluated twice: once by the adapter and once by `where`.
   */
  method HybridWhereIntended(instance: Collection?, collectionId: string, filters: seq<FieldFilter>,
                             run: Query -> seq<Doc>) returns (r: Collection)
    requires instance != null ==> instance.collectionId == collectionId
    modifies instance
    ensures instance != null ==>
      && r == instance
      && r.query == old(instance.query).Then(WhereSteps(filters))
      && r.records == Materialize(run(r.query))
      && r.evaluations == old(instance.evaluations) + 1
    ensures instance == null ==>
      && fresh(r)
      && r.collectionId == collectionId
      && r.query == CollectionRef(collectionId).Then(WhereSteps(filters))
      && r.records == Materialize(run(r.query))
      && r.evaluations == 2
  {
    var target := BindIntended(instance, collectionId, run);
    r := target.Where(filters, run);
  }
}
