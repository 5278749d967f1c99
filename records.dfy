/**
 * The model collaborator of the collection layer. The model module itself is
 * not part of this model: a model instance is reduced to its attribute values
 * and its `_is_sync` flag, and the calls the collection layer makes on it.
 */
module Records {

  /** A field value as it is read from or written to a document. */
  datatype Value = Null | Bool(b: bool) | Int(i: int) | Str(s: string)

  /** A raw document as the store hands it over (`document.to_dict()`). */
  type Doc = map<string, Value>

  /** A model instance: its attributes and whether it is already synced with the store. */
  datatype Model = Model(fields: map<string, Value>, isSync: bool)

  /** `model_class(**kwargs)`: a fresh instance that the store has not seen yet. */
  function NewModel(fields: map<string, Value>): (m: Model)
    ensures m.fields == fields && !m.isSync
  {
    Model(fields, false)
  }

  /** `model_class.from_db_dict(d)`: an instance holding the document's fields. */
  function FromDbDict(d: Doc): (m: Model)
    ensures m.fields == d
  {
    Model(d, false)
  }

  /** `instance._is_sync = True`: the same attributes, now marked as synced. */
  function MarkSynced(m: Model): (r: Model)
    ensures r.isSync && r.fields == m.fields
  {
    m.(isSync := true)
  }

  /** The calls on a model instance that reach the remote store. */
  datatype Call = Save(model: Model) | Delete(model: Model)
}
