/** The public form of a stored document: the store's `_id` is handed out as
    a text field named `id`. */
module Public {
  import opened Values

  /** A mutable dict, as the handlers receive documents from the store. */
  class Dict {
    var entries: map<string, Value>

    constructor (entries: map<string, Value>)
      ensures this.entries == entries
    {
      this.entries := entries;
    }

    /** `dict(other)`: a shallow copy. */
    constructor Copy(other: Dict)
      ensures entries == other.entries
    {
      entries := other.entries;
    }

    /** `d.pop(k)` on a present key. */
    method Pop(k: string) returns (v: Value)
      requires k in entries
      modifies this
      ensures v == old(entries)[k] && entries == old(entries) - {k}
    {
      v := entries[k];
      entries := entries - {k};
    }

    /** `d[k] = v`. */
    method Put(k: string, v: Value)
      modifies this
      ensures entries == old(entries)[k := v]
    {
      entries := entries[k := v];
    }
  }

  /** What `to_public` makes of a document: `_id` is dropped and its text form
      is stored under `id`; every other field stays as it was. `show` is
      Python's `str`. */
  function PublicForm(m: Document, show: Value -> string): (r: Document)
    ensures "_id" !in r
    ensures "_id" in m ==> "id" in r && r["id"] == Str(show(m["_id"]))
    ensures "_id" in m ==> r.Keys == m.Keys - {"_id"} + {"id"}
    ensures "_id" !in m ==> r == m
    ensures forall k :: k in m && k != "_id" && k != "id" ==> k in r && r[k] == m[k]
  {
    if "_id" in m then (m - {"_id"})["id" := Str(show(m["_id"]))] else m
  }

  /** Once public, a document stays as it is: `to_public` is idempotent. */
  lemma PublicFormIdempotent(m: Document, show: Value -> string)
    ensures PublicForm(PublicForm(m, show), show) == PublicForm(m, show)
  {
  }

  /** An empty document has nothing to rename. */
  lemma PublicFormEmpty(show: Value -> string)
    ensures PublicForm(map[], show) == map[]
  {
  }

  /** `to_public(doc)`: an absent or empty document is returned as it is; any
      other is copied and the copy renamed, so the input is left untouched. */
  method ToPublic(doc: Dict?, show: Value -> string) returns (r: Dict?)
    ensures doc == null ==> r == null
    ensures doc != null && doc.entries == map[] ==> r == doc
    ensures doc != null && doc.entries != map[] ==>
      r != null && fresh(r) && r.entries == PublicForm(doc.entries, show)
    ensures doc != null ==> doc.entries == old(doc.entries)
  {
    if doc == null || doc.entries == map[] {
      return doc;
    }
    var d := new Dict.Copy(doc);
    if "_id" in d.entries {
      var id := d.Pop("_id");
      d.Put("id", Str(show(id)));
    }
    return d;
  }

  /** `[to_public(d) for d in docs]` over documents that came from the store. */
  function PublicList(docs: seq<Document>, show: Value -> string): (r: seq<Document>)
    ensures |r| == |docs|
    ensures forall i :: 0 <= i < |docs| ==> r[i] == PublicForm(docs[i], show)
    ensures forall i :: 0 <= i < |r| ==> "_id" !in r[i]
  {
    seq(|docs|, i requires 0 <= i < |docs| => PublicForm(docs[i], show))
  }

  /** Listing two runs of documents one after the other lists each run in turn. */
  lemma PublicListConcat(a: seq<Document>, b: seq<Document>, show: Value -> string)
    ensures PublicList(a + b, show) == PublicList(a, show) + PublicList(b, show)
  {
    var ab := a + b;
    assert forall i :: |a| <= i < |ab| ==> ab[i] == b[i - |a|];
  }

  /** A listing of public documents is its own public form: listing again changes nothing. */
  lemma PublicListIdempotent(docs: seq<Document>, show: Value -> string)
    ensures PublicList(PublicList(docs, show), show) == PublicList(docs, show)
  {
    var r := PublicList(docs, show);
    forall i | 0 <= i < |r| ensures PublicForm(r[i], show) == r[i] {
      PublicFormIdempotent(docs[i], show);
    }
  }

  /** A listed document is the public form of one of the listed store documents, and each of those is listed. */
  lemma {:induction false} PublicListMembers(docs: seq<Document>, show: Value -> string, x: Document)
    ensures x in PublicList(docs, show) <==> exists d :: d in docs && x == PublicForm(d, show)
  {
    var r := PublicList(docs, show);
    if x in r {
      var i :| 0 <= i < |r| && r[i] == x;
      assert docs[i] in docs;
    }
    if exists d :: d in docs && x == PublicForm(d, show) {
      var d :| d in docs && x == PublicForm(d, show);
      var i :| 0 <= i < |docs| && docs[i] == d;
      assert r[i] == x;
    }
  }
}
