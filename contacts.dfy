/** The values the contact form works with: a contact as the server sends it,
    the four-field draft behind the form's inputs, and the contact id with
    JavaScript's truthiness and text conversion. */
module Contacts {
  import opened Text

  datatype Option<+T> = None | Some(value: T)

  /** The integers a JavaScript number holds exactly (`Number.MAX_SAFE_INTEGER`
      is 2^53 - 1). Each of them is written in plain decimal, with no exponent. */
  type SafeInt = n: int | -0x1F_FFFF_FFFF_FFFF <= n <= 0x1F_FFFF_FFFF_FFFF

  /** A contact id as the page sees it: a string or a number sent by the
      server, or `undefined` when the record carries none. */
  datatype Id = Absent | Text(s: string) | Number(n: SafeInt)

  /** `${id}` inside a template literal: `undefined` is spelled out, a string
      is itself, and a number is its decimal numeral, which reads back as the
      number. */
  function IdText(id: Id): (r: string)
    ensures id.Absent? ==> r == "undefined"
    ensures id.Text? ==> r == id.s
    ensures id.Number? ==> IsNumeral(r) && IntValue(r) == id.n
  {
    match id
    case Absent => "undefined"
    case Text(s) => s
    case Number(n) => IntRoundTrip(n); IntToString(n)
  }

  /** `!id`: JavaScript treats as false exactly `undefined`, the empty string
      and the number written "0". */
  function IsFalsy(id: Id): (r: bool)
    ensures r <==> id.Absent? || IdText(id) == "" || (id.Number? && IdText(id) == "0")
  {
    id == Absent || id == Text("") || id == Number(0)
  }

  /** A record of the remote collection. */
  datatype Contact = Contact(id: Id, nome: string, email: string, whatsapp: string, plano: string)

  /** The names of the form's four inputs. */
  datatype Field = Nome | Email | Whatsapp | Plano

  /** The draft behind the form: one string per input, no id. */
  datatype Form = Form(nome: string, email: string, whatsapp: string, plano: string) {

    function Get(field: Field): string {
      match field
      case Nome => nome
      case Email => email
      case Whatsapp => whatsapp
      case Plano => plano
    }

    /** `{ ...form, [name]: value }`: the draft with one input replaced. */
    function With(field: Field, value: string): (r: Form)
      ensures r.Get(field) == value
      ensures forall g: Field :: g != field ==> r.Get(g) == Get(g)
    {
      match field
      case Nome => this.(nome := value)
      case Email => this.(email := value)
      case Whatsapp => this.(whatsapp := value)
      case Plano => this.(plano := value)
    }
  }

  const EmptyForm: Form := Form("", "", "", "")
}
