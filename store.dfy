/**
 * The MongoDB collection `webhook` that the receiver writes and the logs
 * endpoint reads: an ordered list of documents, each given a fresh ObjectId
 * when it is inserted.
 */
module Store {
  import Numerals

  /** A stored field: a string, or the ObjectId the driver assigns. */
  datatype Value = Str(s: string) | ObjectId(id: nat)

  type Document = map<string, Value>

  /** Python's `str()` of a stored value; an ObjectId prints as hexadecimal. */
  function Show(v: Value): (s: string)
    ensures v.Str? ==> s == v.s
    ensures v.ObjectId? ==> s == Numerals.HexId(v.id)
    ensures v.ObjectId? ==> Numerals.AllDigits(s, 16) && Numerals.Read(s, 16) == v.id
  {
    match v
    case Str(s) => s
    case ObjectId(n) => Numerals.HexIdRoundTrip(n); Numerals.HexId(n)
  }

  class Collection {
    /**
     * The documents in the order an unsorted `find()` returns them; an
     * insert is taken to add its document at the end of that order.
     */
    var docs: seq<Document>
    /** The ObjectId the next insert receives. */
    var nextId: nat
    /** Whether the server accepts writes; `insert_one` raises when it does not. */
    var available: bool

    /** Every document carries its own ObjectId, all of them distinct. */
    ghost predicate Valid()
      reads this
    {
      (forall k :: 0 <= k < |docs| ==>
        "_id" in docs[k] && docs[k]["_id"].ObjectId? && docs[k]["_id"].id < nextId) &&
      (forall k, m :: 0 <= k < m < |docs| ==> docs[k]["_id"] != docs[m]["_id"])
    }

    constructor (available: bool)
      ensures Valid() && docs == [] && this.available == available
    {
      docs := [];
      nextId := 0;
      this.available := available;
    }

    /**
     * `insert_one(doc)`: appends `doc` with a fresh `_id`, or raises (ok is
     * false) and stores nothing when the server is unavailable.
     */
    method InsertOne(doc: Document) returns (ok: bool)
      requires Valid()
      requires "_id" !in doc
      modifies this
      ensures Valid() && available == old(available)
      ensures ok == available
      ensures ok ==> docs == old(docs) + [doc["_id" := ObjectId(old(nextId))]]
      ensures !ok ==> docs == old(docs)
    {
      ok := available;
      if ok {
        docs := docs + [doc["_id" := ObjectId(nextId)]];
        nextId := nextId + 1;
      }
    }
  }
}
