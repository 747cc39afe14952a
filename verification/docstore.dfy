/**
 * An in-memory stand-in for one document collection: `add` stores a document
 * under a fresh automatically chosen id and `get` reads it back.
 */
module DocStore {
  import opened Basics
  import opened Js

  /** Automatically assigned document ids; any fresh value serves. */
  type DocId = nat

  /** A `Timestamp.now()` reading, taken as a parameter. */
  datatype Timestamp = Timestamp(seconds: int, nanoseconds: nat)

  /** A stored document: its payload fields and the `createdAt` field the handler adds. */
  datatype Record = Record(fields: map<string, Value>, createdAt: Timestamp)

  /**
   * `{ ...data, createdAt: now }` for an object payload: every own property of the
   * payload is copied, and `createdAt` comes last, so it replaces a payload field
   * of the same name.
   */
  function Stamped(data: Value, now: Timestamp): (r: Record)
    requires data.Obj?
    ensures r.createdAt == now
    ensures r.fields.Keys == data.props.Keys - {"createdAt"}
    ensures forall k :: k in r.fields ==> r.fields[k] == data.props[k]
  {
    Record(data.props - {"createdAt"}, now)
  }

  class Collection<T> {
    var docs: map<DocId, T>
    var nextKey: DocId

    ghost predicate Valid()
      reads this
    {
      forall id :: id in docs ==> id < nextKey
    }

    constructor ()
      ensures Valid() && docs == map[]
    {
      docs := map[];
      nextKey := 0;
    }

    /** `collection.add(doc)`: stores `doc` under an id no document has. */
    method Add(doc: T) returns (id: DocId)
      requires Valid()
      modifies this
      ensures Valid()
      ensures id !in old(docs)
      ensures docs == old(docs)[id := doc]
    {
      id := nextKey;
      docs := docs[id := doc];
      nextKey := nextKey + 1;
    }

    /** `docRef.get()` followed by `.data()`: None when no document has that id. */
    method Get(id: DocId) returns (doc: Option<T>)
      ensures doc.Some? <==> id in docs
      ensures doc.Some? ==> doc.value == docs[id]
    {
      doc := if id in docs then Some(docs[id]) else None;
    }
  }
}
