/** Which request a handler issues, decided before any network traffic. */
module Requests {
  import opened Text
  import opened Contacts

  datatype Verb = Get | Post | Put | Delete

  /** A request to the remote collection: verb, URL and JSON body, if any. */
  datatype Request = Request(verb: Verb, url: string, body: Option<Form>)

  /** The collection endpoint. */
  const ApiUrl: string := "https://68eed6c7b06cc802829b6f18.mockapi.io/habla1/contatos"

  /** The endpoint of one record: `${API_URL}/${id}`. It extends the
      collection URL by a slash and the id's text, so the id can be read back
      from it. */
  function ItemUrl(id: Id): (r: string)
    ensures |r| == |ApiUrl| + 1 + |IdText(id)|
    ensures r[..|ApiUrl|] == ApiUrl && r[|ApiUrl|] == '/'
    ensures r[|ApiUrl| + 1..] == IdText(id)
  {
    ApiUrl + "/" + IdText(id)
  }

  /** What a refresh of the list sends. */
  const ListRequest: Request := Request(Get, ApiUrl, None)

  /** An item URL is never the collection URL, and two item URLs are the same
      exactly when the ids read the same; for numeric ids, exactly when the ids
      are the same number. */
  lemma ItemUrlNamesId(x: Id, y: Id)
    ensures ItemUrl(x) != ApiUrl
    ensures ItemUrl(x) == ItemUrl(y) <==> IdText(x) == IdText(y)
    ensures x.Number? && y.Number? ==> (ItemUrl(x) == ItemUrl(y) <==> x == y)
  {
  }

  /** The request a submit sends for draft `f`: none when an input is empty,
      otherwise the draft as body, PUT to the edited record in edit mode and
      POST to the collection in create mode. Edit mode without a record being
      edited would fail on `contatoEditando.id`, so callers rule it out. */
  function SubmitRequest(f: Form, modoEdicao: bool, contatoEditando: Option<Contact>): (r: Option<Request>)
    requires modoEdicao ==> contatoEditando.Some?
    ensures r.None? <==> exists g: Field :: f.Get(g) == ""
    ensures r.Some? ==> r.value.body == Some(f)
    ensures r.Some? ==> r.value.verb in {Post, Put} && (r.value.verb == Put <==> modoEdicao)
    ensures r.Some? && modoEdicao ==> r.value.url == ItemUrl(contatoEditando.value.id)
    ensures r.Some? && !modoEdicao ==> r.value.url == ApiUrl
  {
    if f.nome != "" && f.email != "" && f.whatsapp != "" && f.plano != "" then
      var verb := if modoEdicao then Put else Post;
      var url := if modoEdicao then ItemUrl(contatoEditando.value.id) else ApiUrl;
      Some(Request(verb, url, Some(f)))
    else
      var g := if f.nome == "" then Nome else if f.email == "" then Email
               else if f.whatsapp == "" then Whatsapp else Plano;
      assert f.Get(g) == "";
      None
  }

  /** The request a removal sends: none for a falsy id, none when the user
      declines the confirmation, otherwise DELETE on the record. */
  function RemoveRequest(id: Id, confirmed: bool): (r: Option<Request>)
    ensures r.Some? <==> !IsFalsy(id) && confirmed
    ensures r.Some? ==> r.value.verb == Delete && r.value.url == ItemUrl(id) && r.value.body == None
  {
    if IsFalsy(id) || !confirmed then None else Some(Request(Delete, ItemUrl(id), None))
  }
}
