/**
 * Customer records, the documents of the "Clientes" collection they are read
 * from and written to, and the phone-number rule of the entry form.
 */
module Clientes {

  /** One customer entry as the screen lists it. */
  datatype Cliente = Cliente(id: string, nome: string, telefone: string, email: string)

  /**
   * One document of the collection as a read returns it: the id the store
   * assigned and its string-valued fields by name.
   */
  datatype Document = Document(id: string, fields: map<string, string>)

  /** The value of a string field, or "" when the document has no such field. */
  function StringOrEmpty(fields: map<string, string>, key: string): string
  {
    if key in fields then fields[key] else ""
  }

  /** The record built from one document when the list is read. */
  function ToCliente(d: Document): (c: Cliente)
    ensures c.id == d.id
    ensures "nome" in d.fields ==> c.nome == d.fields["nome"]
    ensures "telefone" in d.fields ==> c.telefone == d.fields["telefone"]
    ensures "email" in d.fields ==> c.email == d.fields["email"]
    ensures "nome" !in d.fields ==> c.nome == ""
    ensures "telefone" !in d.fields ==> c.telefone == ""
    ensures "email" !in d.fields ==> c.email == ""
  {
    Cliente(d.id, StringOrEmpty(d.fields, "nome"), StringOrEmpty(d.fields, "telefone"),
            StringOrEmpty(d.fields, "email"))
  }

  /** The whole answer of a read, one record per document, in the order the store returned them. */
  function ToClientes(docs: seq<Document>): (cs: seq<Cliente>)
    ensures |cs| == |docs|
    ensures forall i :: 0 <= i < |docs| ==> cs[i] == ToCliente(docs[i])
  {
    if docs == [] then [] else [ToCliente(docs[0])] + ToClientes(docs[1..])
  }

  /** The map written by both the add and the set call: exactly the three fields. */
  function DocumentFields(nome: string, telefone: string, email: string): (f: map<string, string>)
    ensures f.Keys == {"nome", "telefone", "email"}
    ensures forall id :: ToCliente(Document(id, f)) == Cliente(id, nome, telefone, email)
  {
    map["nome" := nome, "telefone" := telefone, "email" := email]
  }

  /** A decimal digit (only the ASCII ones; see README). */
  predicate IsDigit(ch: char)
  {
    '0' <= ch <= '9'
  }

  /** Every character is a digit; the empty string qualifies. */
  function AllDigits(s: string): (b: bool)
    ensures b <==> forall i :: 0 <= i < |s| ==> IsDigit(s[i])
  {
    s == [] || (IsDigit(s[0]) && AllDigits(s[1..]))
  }

  /** The phone rule: only digits, and at least eight of them. */
  function ValidarTelefone(telefone: string): (ok: bool)
    ensures ok <==> |telefone| >= 8 && forall i :: 0 <= i < |telefone| ==> IsDigit(telefone[i])
    ensures ok ==> telefone != ""
  {
    AllDigits(telefone) && |telefone| >= 8
  }
}
