# firedom result container, modelled in Dafny

firedom is a thin object-mapping layer over a document store. Its `Collection`
class (`firedom/collection.py`) is a Python `list` of model instances that also
carries a pending store query: chain calls (`where`, `order_by`, `limit`)
extend the query and re-evaluate it, `eval` replaces the list contents with one
synced model per streamed document, `first`/`last`/`pluck` read the list, and
four list mutators (`append`, `insert`, `+`, `+=`) are blocked.
`hybrid_method` (`firedom/utils.py`) decorates `where`, `first` and `last`.
Its docstring says that it instantiates the collection when the method is
called on the class. Its code builds a container from an empty list and
evaluates it (lines 27-28), but does not bind the call to that container (see
Findings).

This project models that container and the adapter:

- `wrappers.dfy` — `Option`, `Result`, `Outcome`.
- `records.dfy` — the model collaborator: a model instance as its attribute
  values plus its `_is_sync` flag; `Call` records the `save`/`delete` calls
  that reach the store.
- `queries.dfy` — the pending query as the collection reference plus the
  sequence of builder steps (`Where`, `OrderBy`, `Limit`) applied to it, in order.
- `collections.dfy` — the `Collection` class (fields `query`, `records`, and a
  ghost counter `evaluations`) with its methods, and the pure functions that
  specify them (`Materialize`, `FirstOf`, `LastOf`, `PluckValues`).
- `utils.dfy` — what `hybrid_method.__get__` binds a call to, and what
  `first`, `last` and `where` do through that binding, both as written and as
  the docstring intends.

The remote store is abstract. Operations that reach it take it as a function
argument: `run: Query -> seq<Doc>` (the documents a query streams, in
order), `lookup` (a single document by collection and id, or `None`), and
`count` (the store's aggregate count). Each call receives the store's state at
that moment. Store-side effects of model instances (`save`, `delete`) are
returned as a sequence of `Call`s.

The model follows the code in points where a reader might expect otherwise:
`limit` passes any amount through unchecked; `order_by` adds one more ordering
step rather than replacing an earlier one; and calls through `hybrid_method`
are bound as the code binds them (see Findings).

## Model

| member | source | states |
|---|---|---|
| `Collections.Collection.constructor` | firedom/collection.py:31-33 | A new container holds exactly the given records, its query is the bare collection reference, and it has not been evaluated. |
| `Collections.Collection.All` | firedom/collection.py:55-62 | Returns a new container, started from an empty list and evaluated exactly once, whose records are the models of the documents the bare collection query streams. |
| `Collections.Collection.Get` | firedom/collection.py:64-78 | Returns `None` exactly when the document does not exist; otherwise a model holding the document's fields with its sync flag set. |
| `Collections.Collection.Create` | firedom/collection.py:45-52 | Builds one unsynced model from the given fields and issues exactly one `save` on it, which is then returned. |
| `Collections.Collection.Eval` | firedom/collection.py:108-123 | Replaces (does not extend) the records: afterwards there is one record per streamed document, the i-th built from the i-th document and synced; the query is unchanged; the container itself is returned; the evaluation count goes up by one. |
| `Collections.Materialize` | firedom/collection.py:113-121 | Evaluating a stream yields exactly one model per document. |
| `Collections.MaterializeAt` | firedom/collection.py:113-121 | Evaluating a stream yields exactly as many models as documents, the i-th being the synced model of the i-th document. |
| `Collections.MaterializeSynced` | firedom/collection.py:116-119 | Every model evaluation produces is synced and holds its document's fields. |
| `Collections.MaterializeAppend` | firedom/collection.py:116-119 | Evaluation is a per-document map: the models of a concatenated stream are the concatenation of the models of its parts, in order. |
| `Collections.Collection.Where` | firedom/collection.py:80-90 | Adds one `where` step per filter to the pending query, in argument order, then evaluates once against the new query and returns the same container. |
| `Queries.WhereSteps` | firedom/collection.py:85-86 | One `where` step per filter, the i-th built from the i-th filter. |
| `Queries.WhereStepsAppend` | firedom/collection.py:85-86 | Filtering by `a` and then by `b` builds the same steps as filtering by `a + b` in one call. |
| `Queries.Query.Then` | firedom/collection.py:86 | A builder call keeps the collection and appends to the existing steps. |
| `Queries.CollectionRef` | firedom/collection.py:36-42 | The collection reference is a query on that collection with no steps. |
| `Collections.Collection.OrderBy` | firedom/collection.py:125-135 | Adds exactly one ordering step on the given field, descending only when asked (the default is ascending), then evaluates once and returns the same container. |
| `Queries.DirectionOf` | firedom/collection.py:130 | The direction is `DESCENDING` exactly when `desc` holds and `ASCENDING` exactly when it does not. |
| `Collections.Collection.Limit` | firedom/collection.py:137-144 | Adds `Limit(amount)` with the amount as given, any integer, then evaluates once and returns the same container. |
| `Collections.Collection.Count` | firedom/collection.py:146-158 | The result is the store's count for the pending query, independent of the materialised records. |
| `Collections.FirstOf` | firedom/collection.py:92-98 | `None` exactly when there are no records; otherwise the first record. |
| `Collections.LastOf` | firedom/collection.py:100-106 | `None` exactly when there are no records; otherwise the record at index length minus one. |
| `Collections.Collection.First` | firedom/collection.py:93-98 | The body of `first` run with a container as `self`: `None` exactly when it has no records, otherwise its first record; nothing changes. Which object the decorated call gets as `self` is `Utils.Bind`'s concern. |
| `Collections.Collection.Last` | firedom/collection.py:101-106 | The body of `last` run with a container as `self`: `None` exactly when it has no records, otherwise its last record; nothing changes. |
| `Collections.PluckValues` | firedom/collection.py:160-166 | Succeeds exactly when every record has the attribute; then it has one value per record, the i-th being record i's attribute; otherwise it fails with a missing-attribute error for that name. |
| `Collections.Collection.Pluck` | firedom/collection.py:160-166 | `pluck(name)` on the container: succeeds exactly when every record has the attribute, then one value per record in record order; otherwise a missing-attribute error. |
| `Collections.PluckAfterEvaluation` | firedom/collection.py:164-166 | Plucking a field from freshly evaluated records returns that field of each streamed document, in stream order. |
| `Collections.Collection.Delete` | firedom/collection.py:168-173 | Issues exactly one `delete` per record, in record order, and changes nothing in the container. |
| `Collections.Blocked` | firedom/collection.py:175-186 | Every blocked mutator fails with the immutable-results error and its message. |
| `Collections.Collection.Append` | firedom/collection.py:176-177 | `append` fails in every state; the method has no write frame, so records and query are unchanged. |
| `Collections.Collection.Insert` | firedom/collection.py:179-180 | `insert` fails in every state and changes nothing. |
| `Collections.Collection.Add` | firedom/collection.py:182-183 | `+` fails in every state and changes nothing. |
| `Collections.Collection.InPlaceAdd` | firedom/collection.py:185-186 | `+=` fails in every state and changes nothing. |
| `Records.NewModel` | firedom/collection.py:49 | A model built from keyword fields holds those fields and is not synced. |
| `Records.FromDbDict` | firedom/collection.py:117 | A model built from a document holds that document's fields. |
| `Records.MarkSynced` | firedom/collection.py:118 | Marking a model synced sets its sync flag and keeps its fields. |
| `Utils.ReceiverAsWritten` | firedom/utils.py:23-30 | A present, non-empty instance is bound to the owner class; a present, empty instance to itself; a call on the class to nothing. |
| `Utils.ReceiverIntended` | firedom/utils.py:13-30 | As the docstring describes: an instance is bound to itself, a call on the class to a new container. |
| `Utils.FirstOn` | firedom/collection.py:93-98 | `first` with a given receiver: it raises exactly when `self` is the class or nothing; otherwise it reads the bound container's records. |
| `Utils.LastOn` | firedom/collection.py:101-106 | `last` with a given receiver: it raises exactly when `self` is the class or nothing; otherwise it reads the bound container's records. |
| `Utils.WhereFailure` | firedom/collection.py:85-88 | `where` with a receiver that is not a container raises; with a container it does not. With filters it is an `AttributeError`: at `self.query` with the class as `self`; on the class, where the first filter becomes `self`, at `f.eval` for one filter and `f.query` for more. With no filters it is a missing-`self` TypeError: from `where` itself on the class, from `self.eval()` with the class as `self`. |
| `Utils.Bind` | firedom/utils.py:18-30 | Binds as `ReceiverAsWritten` says. A truthy instance builds nothing. Otherwise one container is built from an empty list, evaluated once into the state `Collection.all()` returns, and then dropped. |
| `Utils.HybridFirst` | firedom/utils.py:23-30 | `first()` as written: raises on a truthy instance (`len` of the class) and on the class (no `self`); on an empty instance returns its own first record, `None`. |
| `Utils.HybridLast` | firedom/utils.py:23-30 | `last()` as written, with the same three outcomes as `first()`. |
| `Utils.HybridWhere` | firedom/utils.py:23-30 | `where(...)` as written: raises, changing no existing container, unless looked up on an empty instance; there it extends that instance's own query and evaluates it once. |
| `Utils.FirstAsWrittenFailsUnlessEmptyInstance` | firedom/utils.py:23-30 | As written, `first()`/`last()` succeed exactly on a present, empty instance, and `first()` then returns `None`. |
| `Utils.WhereAsWrittenFailsUnlessEmptyInstance` | firedom/utils.py:23-30 | As written, `where(...)` raises exactly when it is not looked up on a present, empty instance. |
| `Utils.BindingsAgreeOnlyOnEmptyInstance` | firedom/utils.py:23-30 | The written and the intended bindings agree only for a present, empty instance. |
| `Utils.BindIntended` | firedom/utils.py:13-30 | Intended adapter: an instance is used as it is; a call on the class gets a new container from an empty list, evaluated once, as `Collection.all()` builds it. |
| `Utils.HybridFirstIntended` | firedom/utils.py:13-30 | Intended `first()` never raises: an instance's own first record, or the first of all records on the class. |
| `Utils.HybridLastIntended` | firedom/utils.py:13-30 | Intended `last()` never raises: an instance's own last record, or the last of all records on the class. |
| `Utils.HybridWhereIntended` | firedom/utils.py:13-30 | Intended `where(...)`: an instance's query gains the filters and is evaluated once; on the class a new container's bare query gains them and it has been evaluated twice. |
| `Utils.IntendedFirstLastReadBoundRecords` | firedom/utils.py:13-30 | Under the intended binding `first()`/`last()` never raise and read the bound container's records. |
| `Utils.IntendedWhereNeverFails` | firedom/utils.py:13-30 | Under the intended binding `where(...)` never raises. |

## Left out

- Store client internals: the collection reference, document fetch, `stream()` and the aggregation query (including the `FirestoreQuery` versus collection-reference branch of `count`) are foreign calls. They are the abstract `run`, `lookup` and `count` arguments. Filter, sort and limit semantics belong to the store and are not modelled.
- Field values are reduced to four sample kinds (`Null`, `Bool`, `Int`, `Str`). Documents can also hold floats, arrays, maps, timestamps and references. Nothing in this layer computes on values, so no property depends on which kinds there are.
- The model module (`from_db_dict`, `save`, `delete`) is not part of this model. `from_db_dict` is taken to copy the document's fields into a new unsynced instance. `save` and `delete` appear only as recorded calls.
- Collections.Collection.Create: what `save` changes on the instance it persists is not modelled; the returned value is the instance as constructed.
- Collections.Collection.Delete: a `delete` that raises stops the loop in the source and propagates; the model has every call return.
- Only the four list mutators the class overrides are modelled. The others it inherits from `list` (`extend`, item assignment and deletion, `pop`, `remove`, `clear`, `sort`, `reverse`, `*=`) still change the records in the source; the model has no operation for them.
- Remote-transport failures (network, auth, quota) propagate unchanged in the source and are not modelled.
- Python descriptor binding is reduced to what `classmethod.__get__` and `function.__get__` bind (`Utils.Receiver`). What a container method does when `self` is not a container is modelled only for `first`, `last` and `where`, as the exception each one raises. The class a call is looked up on is its `collectionId`.
- Collections.PluckValues: the model looks only among the document's fields. `getattr` also finds other instance attributes (such as `_is_sync`), class attributes and methods.
- Collections.Collection.Pluck: runs `PluckValues` on the records, so it too looks only among the document's fields. `getattr` also finds other instance attributes (such as `_is_sync`), class attributes and methods.
- Model instances are values here. The source mutates the instances it builds in place (`_is_sync = True` right after construction); no instance is shared before that, so nothing observable is lost.
- The integration test file runs against a live store and has no logic of its own.

## Findings

| source | as written | input that shows it | evidently intended | confidence | as-written member | corrected member |
|---|---|---|---|---|---|---|
| firedom/utils.py:23-30 | the two binders are swapped. A truthy instance goes to `classmethod.__get__`, which binds the owner class as `self`. Then `first`/`last` raise at `len(self)`, and `where` raises at `self.query` when given filters, or at `self.eval()` (a function called without `self`) when given none. Otherwise `function.__get__(instance, fresh)` ignores the freshly evaluated container. On the class it returns the plain function: `first()`/`last()` raise for the missing `self`, and `where(f, ...)` takes the first filter as `self` and raises `AttributeError`, at `f.eval` for one filter and at `f.query` for more. On an empty instance it binds that instance | `Collection.first()` raises `TypeError` (missing `self`); on a collection with records, `Collection.all().first()` raises `TypeError` (`len` of the class) | bind an existing instance to itself and a call on the class to the container built and evaluated at lines 27-28, testing `instance is not None`, so that a call on the class works on a new collection as the docstring says | high; not executed | `Utils.FirstAsWrittenFailsUnlessEmptyInstance` | `Utils.HybridFirstIntended` |

`Utils.Bind`, `Utils.HybridFirst`, `Utils.HybridLast` and `Utils.HybridWhere`
model the code as written. `Utils.BindIntended` and the three `Intended`
methods model the corrected adapter, and `Utils.IntendedFirstLastReadBoundRecords`
and `Utils.IntendedWhereNeverFails` state its promise at the level of the binding.
