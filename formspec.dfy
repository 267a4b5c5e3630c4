/**
 * The state of the customer screen as a value, and what each user action and
 * each completion of a remote call does to it. The class in screen.dfy holds
 * the same seven variables and is proved to follow these transitions.
 */
module FormSpec {

  import opened Wrappers
  import opened Clientes
  import opened Gateway

  /**
   * The seven state variables of the screen: the three form fields, the
   * listed records, the record being edited (None in create mode), the
   * phone error flag and the "saving" indicator.
   */
  datatype Snapshot = Snapshot(nome: string, telefone: string, email: string,
                               clientes: seq<Cliente>, editandoClienteId: Option<string>,
                               telefoneErro: bool, salvando: bool)

  const AtualizarLabel := "Atualizar Cliente"
  const CadastrarLabel := "Cadastrar Cliente"

  predicate FormEmpty(s: Snapshot)
  {
    s.nome == "" && s.telefone == "" && s.email == ""
  }

  predicate Editing(s: Snapshot)
  {
    s.editandoClienteId.Some?
  }

  /** The list and both flags are the same in `s` and `t`. */
  predicate KeepsListAndFlags(s: Snapshot, t: Snapshot)
  {
    t.clientes == s.clientes && t.telefoneErro == s.telefoneErro && t.salvando == s.salvando
  }

  /** The number of records shown in the header. */
  function Count(s: Snapshot): (n: nat)
    ensures n == |s.clientes|
  {
    |s.clientes|
  }

  /** The "no customers" placeholder is shown. */
  predicate IsEmpty(s: Snapshot)
    ensures IsEmpty(s) <==> s.clientes == []
  {
    Count(s) == 0
  }

  /** The state when the screen is first composed. */
  function Initial(): (s: Snapshot)
    ensures FormEmpty(s) && !Editing(s)
    ensures s.clientes == [] && IsEmpty(s)
    ensures !s.telefoneErro && !s.salvando
  {
    Snapshot("", "", "", [], None, false, false)
  }

  /** The caption of the submit button. */
  function SubmitLabel(s: Snapshot): (caption: string)
    ensures caption == AtualizarLabel <==> Editing(s)
    ensures caption == CadastrarLabel <==> !Editing(s)
  {
    if s.editandoClienteId != None then AtualizarLabel else CadastrarLabel
  }

  /** limparCampos: empty form, create mode; the phone error flag is left as it was. */
  function Cleared(s: Snapshot): (t: Snapshot)
    ensures FormEmpty(t) && !Editing(t)
    ensures SubmitLabel(t) == CadastrarLabel
    ensures KeepsListAndFlags(s, t)
  {
    s.(nome := "", telefone := "", email := "", editandoClienteId := None)
  }

  /** Typing in the name field. */
  function NomeEdited(s: Snapshot, v: string): (t: Snapshot)
    ensures t.nome == v
    ensures t.(nome := s.nome) == s
  {
    s.(nome := v)
  }

  /** Typing in the email field. */
  function EmailEdited(s: Snapshot, v: string): (t: Snapshot)
    ensures t.email == v
    ensures t.(email := s.email) == s
  {
    s.(email := v)
  }

  /**
   * Typing in the phone field: a value with a non-digit is refused outright;
   * a digit-only value is taken and flagged when shorter than eight.
   */
  function PhoneEdited(s: Snapshot, v: string): (t: Snapshot)
    ensures (exists i :: 0 <= i < |v| && !IsDigit(v[i])) ==> t == s
    ensures (forall i :: 0 <= i < |v| ==> IsDigit(v[i])) ==> t.telefone == v && (t.telefoneErro <==> |v| < 8)
    ensures t.(telefone := s.telefone, telefoneErro := s.telefoneErro) == s
  {
    if AllDigits(v) then s.(telefone := v, telefoneErro := !ValidarTelefone(v)) else s
  }

  /** The edit button of record `c`: its fields go into the form and the form targets its id. */
  function StartEdit(s: Snapshot, c: Cliente): (t: Snapshot)
    ensures t.nome == c.nome && t.telefone == c.telefone && t.email == c.email
    ensures t.editandoClienteId == Some(c.id) && SubmitLabel(t) == AtualizarLabel
    ensures KeepsListAndFlags(s, t)
  {
    s.(nome := c.nome, telefone := c.telefone, email := c.email, editandoClienteId := Some(c.id))
  }

  /**
   * The call the submit button issues: none while the phone error flag is
   * up; otherwise a set of the three fields on the edited id, or an add of
   * them in create mode.
   */
  function SubmitRequest(s: Snapshot): (req: Option<Request>)
    ensures req == None <==> s.telefoneErro
    ensures req.Some? && Editing(s) ==> req.value.Update? && req.value.id == s.editandoClienteId.value
    ensures req.Some? && !Editing(s) ==> req.value.Create?
    ensures req.Some? ==> req.value.fields.Keys == {"nome", "telefone", "email"}
    ensures req.Some? ==> ToCliente(Document("", req.value.fields)) == Cliente("", s.nome, s.telefone, s.email)
  {
    if s.telefoneErro then None
    else
      var fields := DocumentFields(s.nome, s.telefone, s.email);
      match s.editandoClienteId
      case Some(id) => Some(Update(id, fields))
      case None => Some(Create(fields))
  }

  /** The state right after the submit button: the saving indicator goes up unless blocked. */
  function AfterSubmit(s: Snapshot): (t: Snapshot)
    ensures s.telefoneErro ==> t == s
    ensures !s.telefoneErro ==> t.salvando && t.(salvando := s.salvando) == s
  {
    if s.telefoneErro then s else s.(salvando := true)
  }

  /** A read succeeded: the list is replaced wholesale by the documents read. */
  function Refreshed(s: Snapshot, docs: seq<Document>): (t: Snapshot)
    ensures |t.clientes| == |docs|
    ensures forall i :: 0 <= i < |docs| ==> t.clientes[i] == ToCliente(docs[i])
    ensures t.(clientes := s.clientes) == s
  {
    s.(clientes := ToClientes(docs))
  }

  /** The add call completed, or the display timeout fired: the saving indicator goes down. */
  function SavingCleared(s: Snapshot): (t: Snapshot)
    ensures !t.salvando
    ensures t.(salvando := s.salvando) == s
  {
    s.(salvando := false)
  }

  // ---- Properties of the transitions ----

  /** Clearing twice is clearing once. */
  lemma ClearIdempotent(s: Snapshot)
    ensures Cleared(Cleared(s)) == Cleared(s)
  {
  }

  /** Starting an edit and then clearing leaves no trace of the edited record. */
  lemma StartEditThenClear(s: Snapshot, c: Cliente)
    ensures Cleared(StartEdit(s, c)) == Cleared(s)
    ensures FormEmpty(Cleared(StartEdit(s, c))) && !Editing(Cleared(StartEdit(s, c)))
  {
  }

  /** After a digit-only edit the error flag is exactly the negation of the phone rule. */
  lemma DigitEditFlagsInvalid(s: Snapshot, v: string)
    requires AllDigits(v)
    ensures PhoneEdited(s, v).telefoneErro == !ValidarTelefone(PhoneEdited(s, v).telefone)
  {
  }

  /** A valid phone typed in lifts any block on submitting. */
  lemma ValidPhoneUnblocksSubmit(s: Snapshot, v: string)
    requires ValidarTelefone(v)
    ensures SubmitRequest(PhoneEdited(s, v)).Some?
  {
  }

  /** The submit guard reads only the flag: at start-up an empty phone is submitted. */
  lemma EmptyPhoneSubmittedAtStart()
    ensures !ValidarTelefone(Initial().telefone)
    ensures SubmitRequest(Initial()) == Some(Create(DocumentFields("", "", "")))
  {
  }

  /** Clearing does not lower the error flag, so a blocked form stays blocked after a clear. */
  lemma ClearKeepsSubmitBlocked(s: Snapshot)
    requires s.telefoneErro
    ensures FormEmpty(Cleared(s)) && SubmitRequest(Cleared(s)) == None
  {
  }

  /** Starting an edit does not recompute the error flag, whatever the record's phone. */
  lemma StartEditKeepsSubmitBlocked(s: Snapshot, c: Cliente)
    requires s.telefoneErro
    ensures SubmitRequest(StartEdit(s, c)) == None
  {
  }

  /** A read outcome and a form reset touch disjoint variables, so their order does not matter. */
  lemma RefreshAndClearCommute(s: Snapshot, docs: seq<Document>)
    ensures Refreshed(Cleared(s), docs) == Cleared(Refreshed(s, docs))
  {
  }

  /** After a read the header counts the documents read, and the placeholder shows iff there were none. */
  lemma RefreshedCount(s: Snapshot, docs: seq<Document>)
    ensures Count(Refreshed(s, docs)) == |docs|
    ensures IsEmpty(Refreshed(s, docs)) <==> docs == []
  {
  }

  /**
   * On the add path neither the success listener (form reset, read issued)
   * nor the failure listener lowers the indicator; the completion listener
   * does. Afterwards the state is the one before the submit, with the form
   * cleared (success) or untouched (failure), and the indicator down.
   */
  lemma CreatePathLowersSaving(s: Snapshot)
    requires !s.telefoneErro && !Editing(s)
    ensures Cleared(AfterSubmit(s)).salvando
    ensures AfterSubmit(s).salvando
    ensures SavingCleared(Cleared(AfterSubmit(s))) == Cleared(s).(salvando := false)
    ensures SavingCleared(AfterSubmit(s)) == s.(salvando := false)
  {
  }

  /**
   * On the set path nothing but the timeout lowers the indicator: it is
   * still up after the set's success and after each of two following reads.
   */
  lemma UpdatePathKeepsSaving(s: Snapshot, docs: seq<Document>, docs2: seq<Document>)
    requires !s.telefoneErro && Editing(s)
    ensures SubmitRequest(s).value.Update?
    ensures Cleared(AfterSubmit(s)).salvando
    ensures Refreshed(Cleared(AfterSubmit(s)), docs).salvando
    ensures Refreshed(Refreshed(Cleared(AfterSubmit(s)), docs), docs2).salvando
  {
  }

  /**
   * Submitting a new record in create mode: once the add and the read it
   * triggers succeed, the list holds the record under its new id and the form
   * is back to an empty create form.
   */
  lemma {:induction false} CreateRoundTrip(s: Snapshot, coll: Collection, newId: string, docs: seq<Document>)
    requires !s.telefoneErro && !Editing(s) && newId !in coll
    requires Lists(Apply(coll, SubmitRequest(s).value, newId), docs)
    ensures Cliente(newId, s.nome, s.telefone, s.email) in Refreshed(Cleared(AfterSubmit(s)), docs).clientes
    ensures FormEmpty(Refreshed(Cleared(AfterSubmit(s)), docs))
    ensures !Editing(Refreshed(Cleared(AfterSubmit(s)), docs))
  {
    var req := SubmitRequest(s).value;
    assert req == Create(DocumentFields(s.nome, s.telefone, s.email));
    WrittenIsListed(coll, req, newId, docs, s.nome, s.telefone, s.email);
  }

  /**
   * Editing a record and submitting it unchanged issues a set on its id, and
   * the read that follows lists it exactly as it was.
   */
  lemma {:induction false} UpdateRoundTrip(s: Snapshot, c: Cliente, coll: Collection, docs: seq<Document>)
    requires !s.telefoneErro
    requires Lists(Apply(coll, Update(c.id, DocumentFields(c.nome, c.telefone, c.email)), ""), docs)
    ensures SubmitRequest(StartEdit(s, c)) == Some(Update(c.id, DocumentFields(c.nome, c.telefone, c.email)))
    ensures c in Refreshed(Cleared(AfterSubmit(StartEdit(s, c))), docs).clientes
    ensures forall x :: x in Refreshed(Cleared(AfterSubmit(StartEdit(s, c))), docs).clientes && x.id == c.id ==> x == c
  {
    var req := Update(c.id, DocumentFields(c.nome, c.telefone, c.email));
    WrittenIsListed(coll, req, "", docs, c.nome, c.telefone, c.email);
    UpdateReplacesWhole(coll, c.id, docs, c.nome, c.telefone, c.email);
  }

  /** A successful delete of `c` followed by its read leaves no record with `c`'s id. */
  lemma {:induction false} DeleteRoundTrip(s: Snapshot, c: Cliente, coll: Collection, docs: seq<Document>)
    requires Lists(Apply(coll, Delete(c.id), ""), docs)
    ensures forall x :: x in Refreshed(s, docs).clientes ==> x.id != c.id
    ensures Count(Refreshed(s, docs)) == |coll - {c.id}|
  {
    DeletedIsNotListed(coll, c.id, docs);
  }
}
