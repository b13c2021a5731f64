/** The document store the route handlers talk to: named collections of
    documents, each new document given a fresh identifier under `_id`. */
module Storage {
  import opened Wrappers
  import opened Values
  import opened Queries

  /** `d` carries a store identifier issued before `next`. */
  predicate IdBelow(d: Document, next: nat) {
    "_id" in d && d["_id"].Oid? && d["_id"].id.n < next
  }

  /** A document as stored: the data with its identifier under `_id`. */
  function Inserted(data: Document, n: nat): Document {
    data["_id" := Oid(ObjectId(n))]
  }

  class Store {
    var collections: map<string, seq<Document>>
    /** The identifier the next insertion is given. */
    var nextId: nat

    /** Every stored document carries an identifier issued earlier, so a new one is fresh. */
    ghost predicate Valid()
      reads this
    {
      forall name, i :: name in collections && 0 <= i < |collections[name]| ==> IdBelow(collections[name][i], nextId)
    }

    constructor ()
      ensures Valid() && collections == map[] && nextId == 0
    {
      collections := map[];
      nextId := 0;
    }

    /** The documents of a collection in insertion order; a collection never written to is empty. */
    function Collection(name: string): seq<Document>
      reads this
    {
      if name in collections then collections[name] else []
    }

    /** `count_documents({})`. */
    function Count(name: string): nat
      reads this
    {
      |Collection(name)|
    }

    /** `get_documents(name, filter, limit)`: the matching documents in insertion order, at most `limit`. */
    function GetDocuments(name: string, f: Filter, limit: Option<nat>): (r: seq<Document>)
      reads this
      ensures forall d :: d in r ==> d in Collection(name) && Matches(f, d)
      ensures limit.Some? ==> |r| <= limit.value
      ensures limit.None? ==> forall d :: d in r <==> d in Collection(name) && Matches(f, d)
      ensures var matching := Select(Collection(name), f);
        && |r| == (if limit.Some? && limit.value < |matching| then limit.value else |matching|)
        && r == matching[..|r|]
    {
      Take(Select(Collection(name), f), limit)
    }

    /** `create_document(name, data)`: appends `data` under a fresh identifier and returns it as text. */
    method CreateDocument(name: string, data: Document) returns (id: string)
      requires Valid()
      modifies this
      ensures Valid()
      ensures nextId == old(nextId) + 1
      ensures collections == old(collections)[name := old(Collection(name)) + [Inserted(data, old(nextId))]]
      ensures forall d :: d in old(Collection(name)) ==> d["_id"] != Oid(ObjectId(old(nextId)))
      ensures id == ObjectIdHex(ObjectId(old(nextId)))
    {
      var oid := ObjectId(nextId);
      ghost var before := Collection(name);
      assert forall i :: 0 <= i < |before| ==> IdBelow(before[i], nextId);
      collections := collections[name := Collection(name) + [Inserted(data, nextId)]];
      nextId := nextId + 1;
      id := ObjectIdHex(oid);
    }
  }
}
