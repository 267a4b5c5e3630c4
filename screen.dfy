/**
 * The customer screen's controller: the seven state variables of the
 * composable and one method per user action or per completion of a remote
 * call. Remote calls are not performed here; a method that would start one
 * returns it as a Request, and its outcome is delivered later by calling the
 * matching On... method, in any order a caller chooses.
 */
module Screen {

  import opened Wrappers
  import opened Clientes
  import opened Gateway
  import opened FormSpec

  class App {
    var nome: string
    var telefone: string
    var email: string
    var clientes: seq<Cliente>
    var editandoClienteId: Option<string>
    var telefoneErro: bool
    var salvando: bool

    /** The current values of the seven variables. */
    function State(): Snapshot
      reads this
    {
      Snapshot(nome, telefone, email, clientes, editandoClienteId, telefoneErro, salvando)
    }

    constructor ()
      ensures State() == Initial()
    {
      nome, telefone, email := "", "", "";
      clientes := [];
      editandoClienteId := None;
      telefoneErro, salvando := false, false;
    }

    /** The first composition reads the whole collection once. */
    method OnLaunch() returns (req: Request)
      ensures req == ReadAll
    {
      req := ReadAll;
    }

    /** limparCampos, also the "Limpar" button. */
    method LimparCampos()
      modifies this
      ensures State() == Cleared(old(State()))
    {
      nome := "";
      telefone := "";
      email := "";
      editandoClienteId := None;
    }

    method OnNomeChange(v: string)
      modifies this
      ensures State() == NomeEdited(old(State()), v)
    {
      nome := v;
    }

    method OnTelefoneChange(v: string)
      modifies this
      ensures State() == PhoneEdited(old(State()), v)
    {
      if AllDigits(v) {
        telefone := v;
        telefoneErro := !ValidarTelefone(v);
      }
    }

    method OnEmailChange(v: string)
      modifies this
      ensures State() == EmailEdited(old(State()), v)
    {
      email := v;
    }

    /** The edit button on the card of `c`. */
    method OnEditClick(c: Cliente)
      modifies this
      ensures State() == StartEdit(old(State()), c)
    {
      nome := c.nome;
      telefone := c.telefone;
      email := c.email;
      editandoClienteId := Some(c.id);
    }

    /** The delete button on the card of `c` (excluirCliente): one delete call on its id. */
    method OnDeleteClick(c: Cliente) returns (req: Request)
      ensures req == Delete(c.id)
    {
      req := Delete(c.id);
    }

    /** The submit button. */
    method OnSubmitClick() returns (req: Option<Request>)
      modifies this
      ensures req == SubmitRequest(old(State()))
      ensures State() == AfterSubmit(old(State()))
    {
      if telefoneErro {
        return None;
      }
      salvando := true;
      var fields := DocumentFields(nome, telefone, email);
      if editandoClienteId != None {
        req := Some(Update(editandoClienteId.value, fields));
      } else {
        req := Some(Create(fields));
      }
    }

    /** A read answered with `docs` (the success listener of lerClientes). */
    method OnRefreshSuccess(docs: seq<Document>)
      modifies this
      ensures State() == Refreshed(old(State()), docs)
    {
      clientes := ToClientes(docs);
    }

    /** A read failed: it is only logged, and the stale list stays. */
    method OnRefreshFailure()
      ensures State() == old(State())
    {
    }

    /**
     * An add or a set succeeded: one read is issued and the form is reset.
     * The list changes only when that read answers.
     */
    method OnWriteSuccess() returns (req: Request)
      modifies this
      ensures req == ReadAll
      ensures State() == Cleared(old(State()))
    {
      req := ReadAll;
      LimparCampos();
    }

    /** An add or a set failed: it is only logged; the form stays as typed for a retry. */
    method OnWriteFailure()
      ensures State() == old(State())
    {
    }

    /** The completion listener, registered on the add call only. */
    method OnCreateComplete()
      modifies this
      ensures State() == SavingCleared(old(State()))
    {
      salvando := false;
    }

    /** The display timeout, which runs only while the indicator is up. */
    method OnSavingTimeout()
      requires salvando
      modifies this
      ensures State() == SavingCleared(old(State()))
    {
      salvando := false;
    }

    /** A delete succeeded: exactly one read is issued; nothing else changes. */
    method OnDeleteSuccess() returns (req: Request)
      ensures req == ReadAll
      ensures State() == old(State())
    {
      req := ReadAll;
    }

    /** A delete failed: it is only logged; list and form stay. */
    method OnDeleteFailure()
      ensures State() == old(State())
    {
    }
  }

  /**
   * A session on one screen: start editing `c`, clear, then submit. Whatever
   * `c` was, the form is empty again and the submit adds a new empty record,
   * unless the phone error flag was already up.
   */
  method EditClearSubmit(app: App, c: Cliente) returns (req: Option<Request>)
    modifies app
    ensures FormEmpty(app.State()) && !Editing(app.State())
    ensures app.clientes == old(app.clientes)
    ensures old(app.telefoneErro) ==> req == None && app.salvando == old(app.salvando)
    ensures !old(app.telefoneErro) ==> req == Some(Create(DocumentFields("", "", ""))) && app.salvando
  {
    app.OnEditClick(c);
    app.LimparCampos();
    StartEditThenClear(old(app.State()), c);
    req := app.OnSubmitClick();
  }
}
