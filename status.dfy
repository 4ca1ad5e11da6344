/** The status line: the texts the handlers write into `mensagem`, and the
    keyword rule that picks its colour. */
module Status {
  import opened Text
  import opened Contacts

  /** The three colours of the status line: limegreen, red and orange. */
  datatype Tone = Positive | Negative | Neutral

  /** The colour rule: "sucesso" or "Editando" gives green, otherwise "ERRO"
      gives red, otherwise orange. The test is case-sensitive. */
  function Classify(mensagem: string): (r: Tone)
    ensures r == Positive <==> Includes(mensagem, "sucesso") || Includes(mensagem, "Editando")
    ensures r == Negative <==>
      !Includes(mensagem, "sucesso") && !Includes(mensagem, "Editando") && Includes(mensagem, "ERRO")
    ensures r == Neutral <==>
      !Includes(mensagem, "sucesso") && !Includes(mensagem, "Editando") && !Includes(mensagem, "ERRO")
  {
    if Includes(mensagem, "sucesso") || Includes(mensagem, "Editando") then Positive
    else if Includes(mensagem, "ERRO") then Negative
    else Neutral
  }

  /** `mensagem && <p>`: an empty message shows no status line at all, and
      any other message is shown in the colour the rule gives it. */
  function StatusLine(mensagem: string): (r: Option<Tone>)
    ensures r.None? <==> mensagem == ""
    ensures r.Some? ==> r.value == Classify(mensagem)
  {
    if mensagem == "" then None else Some(Classify(mensagem))
  }

  // The texts written into `mensagem`. The longer ones are spelled as a
  // concatenation of shorter literals, because the solver follows the letters
  // of a literal only a couple of dozen positions deep, and the tone lemmas
  // below reason letter by letter. `PageSpelling` shows that each denotes
  // the single literal of the page.

  const MsgCreated: string := "PARABÉNS! Cliente cadastrado e plano contratado com sucesso!"
  const MsgUpdated: string := "Cliente atualizado com sucesso!"
  const MsgIncomplete: string := "PREENCHA TODOS " + "OS CAMPOS"
  const MsgRemoved: string := "Cliente removido com sucesso!"
  const MsgInvalidId: string := "Erro: ID do cliente " + "é inválido " + "para remoção."

  /** The opening shared by the three connection-failure texts. */
  const ConnFailure: string := "Erro de conexão "
  const MsgSubmitConn: string := ConnFailure + "com o servidor."
  const MsgRemoveConn: string := ConnFailure + "ao remover " + "o cliente."
  const MsgListConn: string := ConnFailure + "com o servidor " + "ao carregar " + "contatos."

  /** The advice that closes both rejection texts. */
  const Advice: string := "). Verifique o ID" + " no MockAPI."

  const SubmitRejected: string := "ERRO (Status: "
  const RemoveRejected: string := "ERRO ao remover " + "(Status: "
  const ListRejected: string := "Erro ao carregar " + "lista. Status: "

  // Each text written in pieces above is, letter for letter, the single
  // literal the page passes to `setMensagem`.

  /** The validation text and the pieces of the rejection texts. */
  lemma ShortTextsSpelling()
    ensures MsgIncomplete == "PREENCHA TODOS OS CAMPOS"
    ensures RemoveRejected == "ERRO ao remover (Status: "
    ensures ListRejected == "Erro ao carregar lista. Status: "
    ensures Advice == "). Verifique o ID no MockAPI."
  {
  }

  /** The submit and removal connection-failure texts. */
  lemma ConnTextsSpelling()
    ensures MsgSubmitConn == "Erro de conexão com o servidor."
    ensures MsgRemoveConn == "Erro de conexão ao remover o cliente."
  {
  }

  /** The invalid-id text. */
  lemma InvalidIdSpelling()
    ensures MsgInvalidId == "Erro: ID do cliente é inválido para remoção."
  {
  }

  /** The list connection-failure text. */
  lemma ListConnSpelling()
    ensures MsgListConn == "Erro de conexão com o servidor ao carregar contatos."
  {
  }

  /** The text after a rejected create or update, whatever the status. */
  function MsgSubmitHttp(status: int): string {
    SubmitRejected + IntToString(status) + Advice
  }

  /** The text after a rejected removal. */
  function MsgRemoveHttp(status: int): string {
    RemoveRejected + IntToString(status) + Advice
  }

  /** The text after a rejected list request. */
  function MsgListHttp(status: int): string {
    ListRejected + IntToString(status)
  }

  /** The text shown when editing starts. */
  function MsgEditing(id: Id): string {
    "Editando cliente ID: " + IdText(id)
  }

  /** The letters of a numeral (digits and the minus sign) appear in none of the keywords. */
  lemma NumeralAvoidsKeywords(n: int)
    ensures forall j :: 0 <= j < |IntToString(n)| ==>
      IntToString(n)[j] !in "sucesso" && IntToString(n)[j] !in "Editando" && IntToString(n)[j] !in "ERRO"
  {
  }

  /** A numeral spliced into a message neither adds nor hides a keyword: the
      colour of `a + numeral + b` is decided by `a` and `b` alone. */
  lemma NumeralKeepsTone(a: string, n: int, b: string)
    requires !Includes(a, "sucesso") && !Includes(b, "sucesso")
    requires !Includes(a, "Editando") && !Includes(b, "Editando")
    ensures Classify(a + IntToString(n) + b) ==
      if Includes(a, "ERRO") || Includes(b, "ERRO") then Negative else Neutral
  {
    var d := IntToString(n);
    NumeralAvoidsKeywords(n);
    ExcludesAcross(a, d, b, "sucesso");
    ExcludesAcross(a, d, b, "Editando");
    if Includes(a, "ERRO") {
      IncludesWithin([], a, d + b, "ERRO");
      assert [] + a + (d + b) == a + d + b;
    } else if Includes(b, "ERRO") {
      IncludesWithin(a + d, b, [], "ERRO");
      assert a + d + b + [] == a + d + b;
    } else {
      ExcludesAcross(a, d, b, "ERRO");
    }
  }

  /** The advice says nothing of success or editing, and does name the id. */
  lemma AdviceParts()
    ensures !Includes(Advice, "sucesso") && !Includes(Advice, "Editando")
    ensures Includes(Advice, "Verifique o ID")
  {
    AbsentLetter(Advice, "sucesso", 0);
    AbsentLetter(Advice, "Editando", 0);
    assert OccursAt(Advice, "Verifique o ID", 3);
  }

  /** A rejected create or update is shown in red, and its text carries both
      the status code and the advice to check the id. */
  lemma SubmitHttpTone(status: int)
    ensures Classify(MsgSubmitHttp(status)) == Negative
    ensures Includes(MsgSubmitHttp(status), IntToString(status))
    ensures Includes(MsgSubmitHttp(status), "Verifique o ID")
  {
    var d := IntToString(status);
    AdviceParts();
    AbsentLetter(SubmitRejected, "sucesso", 2);
    AbsentLetter(SubmitRejected, "Editando", 1);
    assert OccursAt(SubmitRejected, "ERRO", 0);
    NumeralKeepsTone(SubmitRejected, status, Advice);
    assert OccursAt(d, d, 0);
    IncludesWithin(SubmitRejected, d, Advice, d);
    IncludesWithin(SubmitRejected + d, Advice, "", "Verifique o ID");
    assert SubmitRejected + d + Advice + "" == MsgSubmitHttp(status);
  }

  /** A rejected removal is shown in red, and its text carries both the
      status code and the advice to check the id. */
  lemma RemoveHttpTone(status: int)
    ensures Classify(MsgRemoveHttp(status)) == Negative
    ensures Includes(MsgRemoveHttp(status), IntToString(status))
    ensures Includes(MsgRemoveHttp(status), "Verifique o ID")
  {
    var d := IntToString(status);
    AdviceParts();
    AbsentLetter(RemoveRejected, "sucesso", 2);
    AbsentLetter(RemoveRejected, "Editando", 1);
    assert OccursAt(RemoveRejected, "ERRO", 0);
    NumeralKeepsTone(RemoveRejected, status, Advice);
    assert OccursAt(d, d, 0);
    IncludesWithin(RemoveRejected, d, Advice, d);
    IncludesWithin(RemoveRejected + d, Advice, "", "Verifique o ID");
    assert RemoveRejected + d + Advice + "" == MsgRemoveHttp(status);
  }

  /** A rejected list request is shown in orange: it says "Erro", not "ERRO". */
  lemma ListHttpTone(status: int)
    ensures Classify(MsgListHttp(status)) == Neutral
  {
    AbsentPair(ListRejected, "sucesso", 0);
    AbsentLetter(ListRejected, "Editando", 1);
    AbsentLetter(ListRejected, "ERRO", 1);
    AbsentLetter("", "sucesso", 0);
    AbsentLetter("", "Editando", 0);
    AbsentLetter("", "ERRO", 0);
    NumeralKeepsTone(ListRejected, status, "");
    assert ListRejected + IntToString(status) + "" == MsgListHttp(status);
  }

  /** Starting an edit is shown in green, whatever the id reads. */
  lemma EditingTone(id: Id)
    ensures Classify(MsgEditing(id)) == Positive
  {
    assert OccursAt(MsgEditing(id), "Editando", 0);
  }

  /** The three success texts are shown in green. The removed text stays on
      screen; the created and updated texts are overwritten by the form reset
      before the submit handler ends, so they are never on screen. */
  lemma SuccessTones()
    ensures Classify(MsgCreated) == Positive
    ensures Classify(MsgUpdated) == Positive
    ensures Classify(MsgRemoved) == Positive
  {
    assert OccursAt(MsgCreated, "sucesso", 52);
    assert OccursAt(MsgUpdated, "sucesso", 23);
    assert OccursAt(MsgRemoved, "sucesso", 21);
  }

  /** The validation text is shown in orange. */
  lemma IncompleteTone()
    ensures Classify(MsgIncomplete) == Neutral
  {
    AbsentLetter(MsgIncomplete, "sucesso", 0);
    AbsentLetter(MsgIncomplete, "Editando", 1);
    AbsentPair(MsgIncomplete, "ERRO", 0);
  }

  /** A failed connection on submit is shown in orange: it says "Erro", not "ERRO". */
  lemma SubmitConnTone()
    ensures Classify(MsgSubmitConn) == Neutral
  {
    AbsentLetter(MsgSubmitConn, "sucesso", 1);
    AbsentLetter(MsgSubmitConn, "Editando", 4);
    AbsentLetter(MsgSubmitConn, "ERRO", 1);
  }

  /** The invalid-id text is shown in orange: it says "Erro", not "ERRO". */
  lemma InvalidIdTone()
    ensures Classify(MsgInvalidId) == Neutral
  {
    AbsentLetter(MsgInvalidId, "sucesso", 0);
    AbsentPair(MsgInvalidId, "Editando", 0);
    AbsentLetter(MsgInvalidId, "ERRO", 1);
  }

  /** A failed connection on removal is shown in orange. */
  lemma RemoveConnTone()
    ensures Classify(MsgRemoveConn) == Neutral
  {
    AbsentLetter(MsgRemoveConn, "sucesso", 0);
    AbsentPair(MsgRemoveConn, "Editando", 0);
    AbsentLetter(MsgRemoveConn, "ERRO", 1);
  }

  /** A failed connection on listing is shown in orange. */
  lemma ListConnTone()
    ensures Classify(MsgListConn) == Neutral
  {
    AbsentLetter(MsgListConn, "sucesso", 1);
    AbsentPair(MsgListConn, "Editando", 0);
    AbsentLetter(MsgListConn, "ERRO", 1);
  }
}
