/**
 * The calls the screen makes on the "Clientes" collection, and a reference
 * model of that collection used to state what each call means: what a later
 * read returns after a successful add, set or delete.
 */
module Gateway {

  import opened Clientes

  /** A call issued on the collection; its outcome arrives later as an event. */
  datatype Request =
    | ReadAll                                          // collection.get()
    | Create(fields: map<string, string>)              // collection.add(fields)
    | Update(id: string, fields: map<string, string>)  // collection.document(id).set(fields)
    | Delete(id: string)                               // collection.document(id).delete()

  /** The collection: each document id with its fields. */
  type Collection = map<string, map<string, string>>

  /** The document a request addresses; `newId` is the id the store assigns to an added document. */
  function Target(req: Request, newId: string): string
  {
    match req
    case ReadAll => ""
    case Create(_) => newId
    case Update(id, _) => id
    case Delete(id) => id
  }

  /**
   * The collection after a request succeeds. A set replaces the whole
   * document (or creates it); an add creates a document under a newId id.
   */
  function Apply(coll: Collection, req: Request, newId: string): (after: Collection)
    requires req.Create? ==> newId !in coll
    ensures req.ReadAll? ==> after == coll
    ensures req.Create? ==> after.Keys == coll.Keys + {newId} && after[newId] == req.fields
    ensures req.Update? ==> after.Keys == coll.Keys + {req.id} && after[req.id] == req.fields
    ensures req.Delete? ==> after.Keys == coll.Keys - {req.id}
    ensures forall id :: id in coll && id != Target(req, newId) ==> id in after && after[id] == coll[id]
  {
    match req
    case ReadAll => coll
    case Create(f) => coll[newId := f]
    case Update(id, f) => coll[id := f]
    case Delete(id) => coll - {id}
  }

  /** `docs` is one possible answer of a read: every document exactly once, in any order. */
  ghost predicate Lists(coll: Collection, docs: seq<Document>)
  {
    && (forall i :: 0 <= i < |docs| ==> docs[i].id in coll && docs[i].fields == coll[docs[i].id])
    && (forall i, j :: 0 <= i < j < |docs| ==> docs[i].id != docs[j].id)
    && (forall id :: id in coll ==> exists i :: 0 <= i < |docs| && docs[i].id == id)
  }

  /** The ids of a record list are pairwise distinct. */
  ghost predicate UniqueIds(cs: seq<Cliente>)
  {
    forall i, j :: 0 <= i < j < |cs| ==> cs[i].id != cs[j].id
  }

  /** Reading a collection yields a list with unique ids, and one record per stored document. */
  lemma {:induction false} ListedIdsUnique(coll: Collection, docs: seq<Document>)
    requires Lists(coll, docs)
    ensures UniqueIds(ToClientes(docs))
    ensures |ToClientes(docs)| == |coll|
  {
    var cs := ToClientes(docs);
    forall i, j | 0 <= i < j < |cs| ensures cs[i].id != cs[j].id {
      assert cs[i] == ToCliente(docs[i]) && cs[j] == ToCliente(docs[j]);
    }
    IdsSize(coll, docs);
  }

  /** A listing of a collection has as many documents as the collection. */
  lemma {:induction false} IdsSize(coll: Collection, docs: seq<Document>)
    requires Lists(coll, docs)
    ensures |docs| == |coll|
  {
    var ids := set i | 0 <= i < |docs| :: docs[i].id;
    assert ids == coll.Keys by {
      forall id | id in coll ensures id in ids {
        var i :| 0 <= i < |docs| && docs[i].id == id;
      }
    }
    DistinctIdsCount(docs);
  }

  /** Pairwise distinct ids: there are as many ids as documents. */
  lemma {:induction false} DistinctIdsCount(docs: seq<Document>)
    requires forall i, j :: 0 <= i < j < |docs| ==> docs[i].id != docs[j].id
    ensures |set i | 0 <= i < |docs| :: docs[i].id| == |docs|
  {
    if docs != [] {
      var rest := docs[1..];
      DistinctIdsCount(rest);
      var all := set i | 0 <= i < |docs| :: docs[i].id;
      var tail := set i | 0 <= i < |rest| :: rest[i].id;
      assert all == tail + {docs[0].id} by {
        forall id | id in all ensures id in tail + {docs[0].id} {
          var i :| 0 <= i < |docs| && docs[i].id == id;
          if i > 0 { assert rest[i - 1].id == id; }
        }
        forall id | id in tail ensures id in all {
          var i :| 0 <= i < |rest| && rest[i].id == id;
          assert docs[i + 1].id == id;
        }
      }
      assert docs[0].id !in tail by {
        forall i | 0 <= i < |rest| ensures rest[i].id != docs[0].id {
          assert rest[i] == docs[i + 1];
        }
      }
    }
  }

  /** After a successful add or set of `fields`, the next read lists the written record. */
  lemma {:induction false} WrittenIsListed(coll: Collection, req: Request, newId: string,
                                           docs: seq<Document>, nome: string, telefone: string, email: string)
    requires req == Create(DocumentFields(nome, telefone, email))
          || (req.Update? && req.fields == DocumentFields(nome, telefone, email))
    requires req.Create? ==> newId !in coll
    requires Lists(Apply(coll, req, newId), docs)
    ensures Cliente(Target(req, newId), nome, telefone, email) in ToClientes(docs)
  {
    var after := Apply(coll, req, newId);
    var id := Target(req, newId);
    assert id in after;
    var i :| 0 <= i < |docs| && docs[i].id == id;
    assert docs[i] == Document(id, DocumentFields(nome, telefone, email));
    assert ToClientes(docs)[i] == Cliente(id, nome, telefone, email);
  }

  /** After a successful set, the record read back under that id carries exactly the written fields. */
  lemma {:induction false} UpdateReplacesWhole(coll: Collection, id: string, docs: seq<Document>,
                                               nome: string, telefone: string, email: string)
    requires Lists(Apply(coll, Update(id, DocumentFields(nome, telefone, email)), ""), docs)
    ensures forall c :: c in ToClientes(docs) && c.id == id ==> c == Cliente(id, nome, telefone, email)
  {
    var cs := ToClientes(docs);
    forall c | c in cs && c.id == id ensures c == Cliente(id, nome, telefone, email) {
      var i :| 0 <= i < |cs| && cs[i] == c;
      assert docs[i].fields == DocumentFields(nome, telefone, email);
    }
  }

  /** Every stored document's record appears in a read of the collection. */
  lemma {:induction false} StoredIsListed(coll: Collection, docs: seq<Document>, k: string)
    requires Lists(coll, docs) && k in coll
    ensures ToCliente(Document(k, coll[k])) in ToClientes(docs)
  {
    var i :| 0 <= i < |docs| && docs[i].id == k;
    assert docs[i] == Document(k, coll[k]);
    assert ToClientes(docs)[i] == ToCliente(docs[i]);
  }

  /** After a successful delete, the next read lists no record with that id, and lists every other document's record. */
  lemma {:induction false} DeletedIsNotListed(coll: Collection, id: string, docs: seq<Document>)
    requires Lists(Apply(coll, Delete(id), ""), docs)
    ensures forall c :: c in ToClientes(docs) ==> c.id != id
    ensures |ToClientes(docs)| == |coll - {id}|
    ensures forall k :: k in coll && k != id ==> ToCliente(Document(k, coll[k])) in ToClientes(docs)
  {
    var cs := ToClientes(docs);
    var after := Apply(coll, Delete(id), "");
    forall k | k in coll && k != id ensures ToCliente(Document(k, coll[k])) in cs {
      assert k in after && after[k] == coll[k];
      StoredIsListed(after, docs, k);
    }
    forall c | c in cs ensures c.id != id {
      var i :| 0 <= i < |cs| && cs[i] == c;
      assert docs[i].id in coll - {id};
    }
    IdsSize(Apply(coll, Delete(id), ""), docs);
  }
}
