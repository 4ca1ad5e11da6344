# Contact form controller of the Habla Caça client register

This project models, in Dafny, the only logic in the single-page React client
`src/App.jsx`. It is the controller behind the contact form. The page keeps six
pieces of state:

- `form`: the draft, with fields `nome`, `email`, `whatsapp` and `plano`;
- `mensagem`: the status line;
- `mostrarFormulario`: whether the form screen or the list screen is shown;
- `contatos`: the cached list of contacts;
- `modoEdicao`: create mode or edit mode;
- `contatoEditando`: the record being edited.

The handlers move this state between create and edit mode and between the two
screens. They decide which REST request to send to the MockAPI collection (GET,
POST, PUT or DELETE), and fold the outcome back into the state. A keyword rule
colours the status line.

Layout:

- `text.dfy` (module `Text`): JavaScript's case-sensitive `includes`, and the
  decimal text of an integer with its inverse.
- `contacts.dfy` (module `Contacts`): the contact and draft values, the input
  names, and the JavaScript truthiness and text of an id.
- `requests.dfy` (module `Requests`): request selection as pure functions. This
  covers validation, the verb and the URL.
- `status.dfy` (module `Status`): every status text the handlers write, the
  colour rule, and the colour each text gets.
- `app.dfy` (module `ContactForm`): class `App` with the six fields. Each
  handler is a method that changes them. `Valid()` is the invariant "edit mode
  ⇔ a record is being edited".

Each handler is one atomic step. The network outcome is a `Response` input:
`Ok(data)`, `HttpErr(status)` or `ConnFail`. The answer to the removal prompt is
a `bool` input. A handler returns the request it sent and whether it asked for a
list refresh. The refresh's own outcome is a later `ListarContatos` step.

Inside every handler, all reads of state come before the first write. So
running the assignments in source order gives the same result as React's
"last setter wins". This matters after a successful submit: the success text
set at line 69 is overwritten by the empty message that `limparFormulario` sets
at line 153. The status line is therefore hidden after every successful create
or update.

Some of the longer status texts are written in `status.dfy` as a concatenation
of shorter literals, so that the colour proofs can reason letter by letter. The
`...Spelling` lemmas there show that each is the single literal of the page.

Behaviour of the page worth noting:

- A successful list refresh leaves `mensagem` as it was: the 2xx branch at
  lines 36-38 only calls `setContatos`.
- Every non-2xx response to a submit gets the "Verifique o ID" advice (line
  87), whatever the status, not only a 404.
- A successful submit leaves the status line empty: the success text set at
  line 69 is overwritten by `limparFormulario` at line 153.
- The colour test at lines 281-285 is case-sensitive, and only the capitalised
  "ERRO" gives red. "Erro de conexão …" (lines 44, 92, 130), "Erro: ID …" (line
  103) and "Erro ao carregar lista …" (line 40) are orange, and so is
  "PREENCHA TODOS OS CAMPOS" (line 95).

## Model

| member | source | states |
|---|---|---|
| `ContactForm.App.constructor` | src/App.jsx:7-17 | The initial state: empty draft, empty message, form shown, empty list, create mode, nothing being edited; `Valid()` holds. |
| `ContactForm.Mount` | src/App.jsx:19-22 | Mounting sends the list GET. A 2xx fills the list. A failed first load leaves the list empty and sets only the failure text. |
| `ContactForm.App.HandleChange` | src/App.jsx:25-27 | Exactly the named field of the draft gets the new value. The other three fields and the other five state variables are unchanged. |
| `Contacts.Form.With` | src/App.jsx:26 | `{...form, [name]: value}`: the named field reads `value`, and every other field reads what it read before. |
| `ContactForm.App.ListarContatos` | src/App.jsx:32-46 | Always a GET on the collection. A 2xx replaces `contatos` wholesale with the response array, in order, and keeps the message. A non-2xx status or a connection failure keeps `contatos` and changes only the message. |
| `ContactForm.App.HandleSubmit` | src/App.jsx:49-97 | The request is `SubmitRequest` of the old draft and mode. Incomplete draft: no request, only the message becomes "PREENCHA TODOS OS CAMPOS". 2xx: empty draft, create mode, nothing being edited, list screen, refresh requested, and the final message is "" (line 153 runs after line 69). Non-2xx or connection failure: only the message changes, to the status-code text or the connection text. `Valid()` is preserved. |
| `Requests.SubmitRequest` | src/App.jsx:50-59 | No request exactly when some field is empty. Otherwise the body is the current draft, and the verb is PUT exactly in edit mode, to `API_URL/<id of the edited record>`. In create mode it is a POST to `API_URL`. |
| `Requests.ItemUrlNamesId` | src/App.jsx:53-56 | An item URL is never the collection URL. Two item URLs are equal exactly when the ids read the same, and for numeric ids exactly when they are the same number. So a PUT or DELETE goes to the record whose id was used. |
| `ContactForm.App.RemoverContato` | src/App.jsx:100-133 | A falsy id gets no prompt and no request, and only the invalid-id message is set. A declined prompt changes nothing. After a DELETE: 2xx sets the removed text and requests a refresh; a non-2xx status or a connection failure sets only its message. `contatos` is never changed. |
| `Requests.RemoveRequest` | src/App.jsx:102-112 | DELETE on `API_URL/<id>` exactly when the id is truthy and the prompt was confirmed; otherwise no request. |
| `ContactForm.App.IniciarEdicao` | src/App.jsx:136-147 | The draft is exactly the contact's four fields. The contact becomes the one being edited, edit mode is on, the form is shown, and the message is "Editando cliente ID: <id>". `contatos` is unchanged. |
| `ContactForm.App.LimparFormulario` | src/App.jsx:151-156 | Empty draft, empty message, create mode, nothing being edited. The screen and the list are unchanged. Establishes `Valid()`. |
| `ContactForm.EditThenCancel` | src/App.jsx:136-156 | Editing a record and then cancelling leaves the draft empty, create mode on, the form on screen and `contatos` untouched. |
| `ContactForm.App.NovoCadastro` | src/App.jsx:158-161 | A cleared draft in create mode with an empty message, and the form screen shown. |
| `ContactForm.App.VerClientes` | src/App.jsx:369-373 | Empty message, list screen, a refresh requested. The draft and the mode are kept. |
| `Status.StatusLine` | src/App.jsx:276-290 | No status line exactly when the message is empty. Otherwise the line has the colour `Classify` gives the message. |
| `Status.Classify` | src/App.jsx:281-285 | Green exactly when the message includes "sucesso" or "Editando". Red exactly when it includes neither but includes "ERRO". Orange exactly when it includes none of the three. The tests are case-sensitive. |
| `Contacts.IsFalsy` | src/App.jsx:102 | `!id` holds exactly for `undefined`, the empty string and the number whose text is "0". |
| `Contacts.IdText` | src/App.jsx:146 | `${id}`, here and at lines 56 and 110: `undefined` is spelled out and a string is itself. A number is written as a numeral that reads back as the same number. |
| `Requests.ItemUrl` | src/App.jsx:110 | The item URL (also built at line 56) is the collection URL, then a slash, then the id's text, so the id can be read back from the URL. |
| `Status.SuccessTones` | src/App.jsx:281-285 | The created, updated and removed texts (lines 71-72, 115) are green, because they contain "sucesso". Only the removed text reaches the screen: the created and updated texts are overwritten by the reset at line 153 before the submit handler ends. |
| `Status.EditingTone` | src/App.jsx:146 | "Editando cliente ID: <id>" is green, whatever the id reads. |
| `Status.SubmitHttpTone` | src/App.jsx:86-88 | A rejected create or update is red. Its text contains the status code and "Verifique o ID". |
| `Status.RemoveHttpTone` | src/App.jsx:124-126 | A rejected removal is red. Its text contains the status code and "Verifique o ID". |
| `Status.ListHttpTone` | src/App.jsx:40 | A rejected list request is orange: its text says "Erro", not "ERRO". |
| `Status.IncompleteTone` | src/App.jsx:95 | "PREENCHA TODOS OS CAMPOS" is orange. |
| `Status.SubmitConnTone` | src/App.jsx:92 | The submit connection-failure text is orange, not red. |
| `Status.InvalidIdTone` | src/App.jsx:103 | The invalid-id text is orange, not red. |
| `Status.RemoveConnTone` | src/App.jsx:130 | The removal connection-failure text is orange. |
| `Status.ListConnTone` | src/App.jsx:44 | The list connection-failure text is orange. |
| `Status.NumeralKeepsTone` | src/App.jsx:281-285 | Splicing a status code into a text neither adds nor hides a keyword. The colour of `a + code + b` is red if `a` or `b` contains "ERRO", and orange otherwise (when neither mentions success or editing). |
| `Text.ExcludesAcross` | src/App.jsx:281-285 | `includes` across a joined string: if `a` and `b` do not include `w`, and the middle part has no letter of `w`, then the whole does not include `w`. |
| `Text.NatToString` | src/App.jsx:87 | The decimal text of a status code is non-empty and made only of digits. |
| `Text.DecimalRoundTrip` | src/App.jsx:87 | Reading the digits back gives the number: the text names the status exactly. |
| `Text.IntRoundTrip` | src/App.jsx:146 | The same round trip for any integer, including a leading minus sign, as a numeric id is written into the editing text here and into the item URL at line 56. |

## Left out

- Network and serialisation I/O are not modelled: `fetch`, `response.json()`, `response.text()`, `JSON.stringify` and `console.error`. A request is the `Request` value a handler returns. Its outcome is a `Response` input whose 2xx body is an already decoded `seq<Contact>`. A 2xx whose body fails to decode has the same effect as `ConnFail`. A failure of `response.text()` is not modelled; it would show the connection-failure text instead.
- `window.confirm` is a `bool` input that is consulted only when the id is truthy.
- Asynchrony is not modelled: overlapping requests, out-of-order completions and stale closures. Each handler is one atomic step that receives its own outcome, and a requested refresh is a separate `ListarContatos` step.
- The mount effect is modelled only as `Mount`: construction followed by one list outcome.
- Rendering is not modelled: JSX, the static table of plans, the labels and the `styles` object. The one exception is the status line's visibility and colour (`StatusLine`, `Classify`).
- Ids cover only strings, `undefined` and integers that a JavaScript number holds exactly (magnitude at most 2^53 - 1, `SafeInt`). Each of those is written in plain decimal. Larger numeric ids are not modelled: JavaScript rounds them, and from 10^21 on `${id}` writes them in exponent form ("1e+21"). JavaScript `null`, `NaN` and non-integer numbers are not modelled either. Contact fields are taken to be strings.
- The draft can only be changed through the four inputs that exist in the page (`Field`). An arbitrary `e.target.name` would add a new key; that case is not modelled.
