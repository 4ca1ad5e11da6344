/** The `App` component's contact-form controller: six pieces of state and
    the handlers that move them between create and edit mode and between the
    form screen and the list screen.

    Each handler is one atomic step. The network round trip it starts is an
    input (`Response`), and so is the user's answer to the removal prompt.
    A handler returns the request it issued and whether it asked for a list
    refresh; the refresh's own outcome is folded in by `ListarContatos`.
    Inside a handler every read of the state comes before the first write to
    it, so the assignments, run in source order, leave the state React leaves
    after the handler's setters: the last write to a field wins. */
module ContactForm {
  import opened Contacts
  import opened Requests
  import opened Status

  /** How a request settled: a 2xx response with its decoded body, a non-2xx
      status, or no response at all. */
  datatype Response<T> = Ok(data: T) | HttpErr(status: int) | ConnFail

  /** The six pieces of state, as one value. */
  datatype State = State(
    form: Form,
    mensagem: string,
    mostrarFormulario: bool,
    contatos: seq<Contact>,
    modoEdicao: bool,
    contatoEditando: Option<Contact>)

  /** The state right after mounting, before the first list response. */
  const Initial: State := State(EmptyForm, "", true, [], false, None)

  class App {
    var form: Form
    var mensagem: string
    var mostrarFormulario: bool
    var contatos: seq<Contact>
    var modoEdicao: bool
    var contatoEditando: Option<Contact>

    /** Edit mode always has a record being edited, and only edit mode has
        one; so the PUT URL never reads the id of `null`. */
    ghost predicate Valid()
      reads this
    {
      modoEdicao <==> contatoEditando.Some?
    }

    function Snapshot(): State
      reads this
    {
      State(form, mensagem, mostrarFormulario, contatos, modoEdicao, contatoEditando)
    }

    /** The `useState` initial values. */
    constructor ()
      ensures Valid()
      ensures Snapshot() == Initial
    {
      form := EmptyForm;
      mensagem := "";
      mostrarFormulario := true;
      contatos := [];
      modoEdicao := false;
      contatoEditando := None;
    }

    /** An input changed: replace exactly that field of the draft. */
    method HandleChange(field: Field, value: string)
      requires Valid()
      modifies this
      ensures Valid()
      ensures form.Get(field) == value
      ensures forall g: Field :: g != field ==> form.Get(g) == old(form).Get(g)
      ensures Snapshot() == old(Snapshot()).(form := form)
    {
      form := form.With(field, value);
    }

    /** A list response arrived: a 2xx replaces the cached list wholesale, in
        the order received, and leaves the message alone; a failure keeps the
        list and reports the failure. */
    method ListarContatos(resp: Response<seq<Contact>>) returns (sent: Request)
      requires Valid()
      modifies this
      ensures Valid()
      ensures sent == ListRequest
      ensures resp.Ok? ==> Snapshot() == old(Snapshot()).(contatos := resp.data)
      ensures resp.HttpErr? ==> Snapshot() == old(Snapshot()).(mensagem := MsgListHttp(resp.status))
      ensures resp.ConnFail? ==> Snapshot() == old(Snapshot()).(mensagem := MsgListConn)
    {
      sent := ListRequest;
      match resp
      case Ok(data) =>
        contatos := data;
      case HttpErr(status) =>
        mensagem := MsgListHttp(status);
      case ConnFail =>
        mensagem := MsgListConn;
    }

    /** Submit the draft. An incomplete draft sends nothing and asks the user
        to fill every field. Otherwise the request follows the mode; on
        success the form is reset and hidden, the list is refreshed, and the
        success text is overwritten by the reset's empty message; on failure
        only the message changes, so the user keeps the draft. */
    method HandleSubmit(resp: Response<()>) returns (sent: Option<Request>, refresh: bool)
      requires Valid()
      modifies this
      ensures Valid()
      ensures sent == SubmitRequest(old(form), old(modoEdicao), old(contatoEditando))
      ensures refresh <==> sent.Some? && resp.Ok?
      ensures sent.None? ==> Snapshot() == old(Snapshot()).(mensagem := MsgIncomplete)
      ensures sent.Some? && resp.Ok? ==>
        Snapshot() == old(Snapshot()).(form := EmptyForm, mensagem := "", mostrarFormulario := false,
                                       modoEdicao := false, contatoEditando := None)
      ensures sent.Some? && resp.HttpErr? ==>
        Snapshot() == old(Snapshot()).(mensagem := MsgSubmitHttp(resp.status))
      ensures sent.Some? && resp.ConnFail? ==>
        Snapshot() == old(Snapshot()).(mensagem := MsgSubmitConn)
    {
      sent := SubmitRequest(form, modoEdicao, contatoEditando);
      refresh := false;
      if sent.Some? {
        match resp
        case Ok(_) =>
          mensagem := if modoEdicao then MsgUpdated else MsgCreated;
          mostrarFormulario := false;
          LimparFormulario();
          refresh := true;
          modoEdicao := false;
          contatoEditando := None;
        case HttpErr(status) =>
          mensagem := MsgSubmitHttp(status);
        case ConnFail =>
          mensagem := MsgSubmitConn;
      } else {
        mensagem := MsgIncomplete;
      }
    }

    /** Remove a record. A falsy id is refused without a prompt or a request;
        a declined prompt changes nothing; otherwise the DELETE's outcome is
        reported, and only a 2xx asks for a refresh, so the cached list is
        never touched here. */
    method RemoverContato(id: Id, confirmed: bool, resp: Response<()>)
      returns (asked: bool, sent: Option<Request>, refresh: bool)
      requires Valid()
      modifies this
      ensures Valid()
      ensures asked <==> !IsFalsy(id)
      ensures sent == RemoveRequest(id, confirmed)
      ensures refresh <==> sent.Some? && resp.Ok?
      ensures IsFalsy(id) ==> Snapshot() == old(Snapshot()).(mensagem := MsgInvalidId)
      ensures !IsFalsy(id) && !confirmed ==> Snapshot() == old(Snapshot())
      ensures sent.Some? && resp.Ok? ==> Snapshot() == old(Snapshot()).(mensagem := MsgRemoved)
      ensures sent.Some? && resp.HttpErr? ==>
        Snapshot() == old(Snapshot()).(mensagem := MsgRemoveHttp(resp.status))
      ensures sent.Some? && resp.ConnFail? ==>
        Snapshot() == old(Snapshot()).(mensagem := MsgRemoveConn)
    {
      asked := !IsFalsy(id);
      sent := RemoveRequest(id, confirmed);
      refresh := false;
      if !asked {
        mensagem := MsgInvalidId;
      } else if sent.Some? {
        match resp
        case Ok(_) =>
          mensagem := MsgRemoved;
          refresh := true;
        case HttpErr(status) =>
          mensagem := MsgRemoveHttp(status);
        case ConnFail =>
          mensagem := MsgRemoveConn;
      }
    }

    /** Start editing `c`: copy its four fields into the draft, remember it,
        enter edit mode, show the form and say which id is being edited. */
    method IniciarEdicao(c: Contact)
      requires Valid()
      modifies this
      ensures Valid()
      ensures form == Form(c.nome, c.email, c.whatsapp, c.plano)
      ensures Snapshot() == old(Snapshot()).(form := Form(c.nome, c.email, c.whatsapp, c.plano),
                                             mensagem := MsgEditing(c.id), mostrarFormulario := true,
                                             modoEdicao := true, contatoEditando := Some(c))
    {
      form := Form(c.nome, c.email, c.whatsapp, c.plano);
      contatoEditando := Some(c);
      modoEdicao := true;
      mostrarFormulario := true;
      mensagem := MsgEditing(c.id);
    }

    /** Clear or cancel: empty draft, empty message, back to create mode. The
        screen and the cached list stay as they are. */
    method LimparFormulario()
      modifies this
      ensures Valid()
      ensures Snapshot() == old(Snapshot()).(form := EmptyForm, mensagem := "",
                                             modoEdicao := false, contatoEditando := None)
    {
      form := EmptyForm;
      mensagem := "";
      modoEdicao := false;
      contatoEditando := None;
    }

    /** "Novo Cadastro": a cleared form in create mode, on screen. */
    method NovoCadastro()
      modifies this
      ensures Valid()
      ensures Snapshot() == old(Snapshot()).(form := EmptyForm, mensagem := "", mostrarFormulario := true,
                                             modoEdicao := false, contatoEditando := None)
    {
      LimparFormulario();
      mostrarFormulario := true;
    }

    /** "Ver Clientes Cadastrados": clear the message, show the list and
        refresh it; the draft and the mode are kept. */
    method VerClientes() returns (refresh: bool)
      requires Valid()
      modifies this
      ensures Valid()
      ensures refresh
      ensures Snapshot() == old(Snapshot()).(mensagem := "", mostrarFormulario := false)
    {
      mensagem := "";
      mostrarFormulario := false;
      refresh := true;
    }
  }

  /** Mounting the page: the initial state, then the outcome of the list
      request the mount effect sends. A failed first load leaves the cached
      list empty. */
  method Mount(resp: Response<seq<Contact>>) returns (app: App, sent: Request)
    ensures fresh(app) && app.Valid()
    ensures sent == ListRequest
    ensures app.contatos == (if resp.Ok? then resp.data else [])
    ensures resp.Ok? ==> app.Snapshot() == Initial.(contatos := resp.data)
    ensures resp.HttpErr? ==> app.Snapshot() == Initial.(mensagem := MsgListHttp(resp.status))
    ensures resp.ConnFail? ==> app.Snapshot() == Initial.(mensagem := MsgListConn)
  {
    app := new App();
    sent := app.ListarContatos(resp);
  }

  /** "Editar" on a listed record, then "Cancelar Edição": the draft ends
      empty, create mode is back, the form stays on screen and the cached
      list is untouched. */
  method EditThenCancel(app: App, c: Contact)
    requires app.Valid()
    modifies app
    ensures app.Valid()
    ensures app.Snapshot() == old(app.Snapshot()).(form := EmptyForm, mensagem := "", mostrarFormulario := true,
                                                   modoEdicao := false, contatoEditando := None)
  {
    app.IniciarEdicao(c);
    app.LimparFormulario();
  }
}
