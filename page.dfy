/**
 * Model of app/page.tsx: the event code typed (or picked from the menu) on
 * the main page, loading it, and which form the page then shows.
 */
module Pagina {
  import opened Common
  import E = Eventos

  // ---------------------------------------------------------------- the event code

  /**
   * `Number(codigoEvento.match(/^\d+/)?.[0] ?? NaN)`: the value of the
   * leading run of digits; `None` is NaN, when the text does not start with
   * a digit.
   */
  function CodigoEventoNumero(codigoEvento: string): (r: Option<nat>)
    ensures r.None? <==> codigoEvento == [] || !IsDigit(codigoEvento[0])
    ensures r.Some? ==> r.value == DigitsValue(LeadingDigits(codigoEvento))
  {
    var digitos := LeadingDigits(codigoEvento);
    if digitos == "" then None else Some(DigitsValue(digitos))
  }

  /** Leading zeros do not change the value of a run of digits. */
  lemma {:induction false} ZeroAEsquerda(s: string)
    requires AllDigits(s)
    ensures AllDigits("0" + s) && DigitsValue("0" + s) == DigitsValue(s)
  {
    if s != [] {
      var z := "0" + s;
      assert z[..|z| - 1] == "0" + s[..|s| - 1];
      ZeroAEsquerda(s[..|s| - 1]);
    }
  }

  /**
   * The number printed alone is read back, and so is the same number with a
   * leading zero.
   */
  lemma {:induction false} NumeroSozinho(n: nat)
    ensures CodigoEventoNumero(NatToString(n)) == Some(n)
    ensures CodigoEventoNumero("0" + NatToString(n)) == Some(n)
  {
    var s := NatToString(n);
    LeadingDigitsOfAllDigits(s);
    NatToStringRoundTrip(n);
    ZeroAEsquerda(s);
    LeadingDigitsOfAllDigits("0" + s);
  }

  /**
   * The number printed at the start of a text, followed by anything that is
   * not a digit, is read back; so is the same number with a leading zero.
   */
  lemma {:induction false} NumeroNoInicio(n: nat, c: char, resto: string)
    requires !IsDigit(c)
    ensures CodigoEventoNumero(NatToString(n) + [c] + resto) == Some(n)
    ensures CodigoEventoNumero("0" + NatToString(n) + [c] + resto) == Some(n)
  {
    var s := NatToString(n);
    LeadingDigitsOfDigitsThen(s, c, resto);
    NatToStringRoundTrip(n);
    ZeroAEsquerda(s);
    LeadingDigitsOfDigitsThen("0" + s, c, resto);
  }

  /** A text that starts with a blank is NaN, whatever follows: leading blanks are not skipped. */
  lemma BrancoNoInicio(resto: string)
    ensures CodigoEventoNumero(" " + resto) == None
  {
  }

  // ---------------------------------------------------------------- the menu

  /** An entry of the menu: its code and the label the input receives when it is picked, `<valor> - <descricao>`. */
  datatype OpcaoEvento = OpcaoEvento(valor: nat, descricao: string)

  function Rotulo(o: OpcaoEvento): string {
    NatToString(o.valor) + " - " + o.descricao
  }

  /** `OPCOES_EVENTO`, in menu order. */
  const OPCOES_EVENTO := [
    OpcaoEvento(10, "Início de Produção"), OpcaoEvento(15, "Fim de Produção"),
    OpcaoEvento(13, "Divisão de OS"), OpcaoEvento(19, "Resultado de Etapa"),
    OpcaoEvento(80, "Resultado de Inspeção"), OpcaoEvento(85, "Resultado de Inspeção de Carga"),
    OpcaoEvento(50, "Situação de Postos"), OpcaoEvento(51, "Situação de Postos"),
    OpcaoEvento(52, "Situação de Postos"), OpcaoEvento(53, "Situação de Postos"),
    OpcaoEvento(54, "Situação de Postos"), OpcaoEvento(59, "Patamares de Postos de Trabalho"),
    OpcaoEvento(32, "Entrada de Operador"), OpcaoEvento(38, "Saída de Operador"),
    OpcaoEvento(25, "Confirmação de Embarque"), OpcaoEvento(27, "Confirmação de Embarque sem NF"),
    OpcaoEvento(99, "Eventos de Manutenção"), OpcaoEvento(40, "Início de Processo"),
    OpcaoEvento(41, "Término de Processo"), OpcaoEvento(44, "Processo Executado")]

  /** Picking a menu entry puts its label in the input, and the label reads back as the entry's code. */
  lemma RotuloLidoComoCodigo(o: OpcaoEvento)
    ensures CodigoEventoNumero(Rotulo(o)) == Some(o.valor)
  {
    NumeroNoInicio(o.valor, ' ', "- " + o.descricao);
    assert Rotulo(o) == NatToString(o.valor) + [' '] + ("- " + o.descricao);
  }

  // ---------------------------------------------------------------- loading

  const ALERTA_VAZIO := "Informe o codigo do evento"
  const ALERTA_INEXISTENTE := "Evento nao encontrado"

  /** The form registered for the number the text starts with, if any. */
  function ComponenteDe(codigoEvento: string): (c: Option<E.Componente>)
    ensures c.Some? <==> CodigoEventoNumero(codigoEvento).Some? && CodigoEventoNumero(codigoEvento).value in E.EVENTO_COMPONENTS
    ensures c.Some? ==> c.value == E.EVENTO_COMPONENTS[CodigoEventoNumero(codigoEvento).value]
  {
    var n := CodigoEventoNumero(codigoEvento);
    if n.Some? && n.value in E.EVENTO_COMPONENTS then Some(E.EVENTO_COMPONENTS[n.value]) else None
  }

  /** `carregarEvento()` on the text typed: the new `eventoValido` and the alert raised. */
  function Carregar(codigoEvento: string): (r: (bool, Option<string>))
    // a blank text raises its own alert
    ensures IsBlank(codigoEvento) ==> r == (false, Some(ALERTA_VAZIO))
    // otherwise the event is valid exactly when the number it starts with is registered
    ensures !IsBlank(codigoEvento) ==> (r.0 <==> ComponenteDe(codigoEvento).Some?)
    ensures !IsBlank(codigoEvento) ==> r.1 == (if r.0 then None else Some(ALERTA_INEXISTENTE))
    // valid means no alert
    ensures r.0 <==> r.1 == None
  {
    if Trim(codigoEvento) == "" then (false, Some(ALERTA_VAZIO))
    else if ComponenteDe(codigoEvento).Some? then (true, None)
    else (false, Some(ALERTA_INEXISTENTE))
  }

  /** Loading accepts exactly the registered codes typed alone, with or without a leading zero. */
  lemma {:induction false} CarregarCodigoSozinho(n: nat)
    ensures Carregar(NatToString(n)).0 <==> n in E.EVENTO_COMPONENTS
    ensures Carregar("0" + NatToString(n)).0 <==> n in E.EVENTO_COMPONENTS
  {
    NumeroSozinho(n);
    NaoBranco(NatToString(n));
    NaoBranco("0" + NatToString(n));
  }

  /**
   * Loading accepts exactly the registered codes followed by any non-digit
   * text (a menu label, say), with or without a leading zero.
   */
  lemma {:induction false} CarregarCodigoRegistrado(n: nat, c: char, resto: string)
    requires !IsDigit(c)
    ensures Carregar(NatToString(n) + [c] + resto).0 <==> n in E.EVENTO_COMPONENTS
    ensures Carregar("0" + NatToString(n) + [c] + resto).0 <==> n in E.EVENTO_COMPONENTS
  {
    NumeroNoInicio(n, c, resto);
    NaoBranco(NatToString(n) + [c] + resto);
    NaoBranco("0" + NatToString(n) + [c] + resto);
  }

  /** A text that starts with a digit is not blank. */
  lemma NaoBranco(s: string)
    requires s != [] && IsDigit(s[0])
    ensures !IsBlank(s)
  {
    TrimStartSemBranco(s);
    BlankIffAllWhitespace(s);
  }

  /** Loading a picked menu entry succeeds exactly when its code is registered. */
  lemma CarregarOpcao(o: OpcaoEvento)
    ensures Carregar(Rotulo(o)).0 <==> o.valor in E.EVENTO_COMPONENTS
  {
    RotuloLidoComoCodigo(o);
    assert Rotulo(o)[0] == NatToString(o.valor)[0];
    NaoBranco(Rotulo(o));
  }

  /** Of the codes on the menu, only 10, 13, 15 and 19 have a form; 18 is not on the menu. */
  lemma CodigosDoMenu()
    ensures forall i :: 0 <= i < |OPCOES_EVENTO| ==> (OPCOES_EVENTO[i].valor in E.EVENTO_COMPONENTS <==> OPCOES_EVENTO[i].valor in {10, 13, 15, 19})
    ensures forall i :: 0 <= i < |OPCOES_EVENTO| ==> OPCOES_EVENTO[i].valor != 18
  {
  }

  /**
   * The menu offers codes that have no form: picking 80, 50 or 99 and
   * loading raises "Evento nao encontrado". Event 18 has a form but no menu
   * entry: it is reached only by typing its code.
   */
  lemma {:induction false} MenuForaDoRegistro()
    ensures forall i :: 0 <= i < |OPCOES_EVENTO| ==> (Carregar(Rotulo(OPCOES_EVENTO[i])).0 <==> OPCOES_EVENTO[i].valor in {10, 13, 15, 19})
    ensures forall i :: 0 <= i < |OPCOES_EVENTO| ==> OPCOES_EVENTO[i].valor != 18
  {
    CodigosDoMenu();
    forall i | 0 <= i < |OPCOES_EVENTO|
      ensures Carregar(Rotulo(OPCOES_EVENTO[i])).0 <==> OPCOES_EVENTO[i].valor in {10, 13, 15, 19}
    {
      CarregarOpcao(OPCOES_EVENTO[i]);
    }
  }

  // ---------------------------------------------------------------- the page

  /** The form on screen, with the props it receives and its `key`. */
  datatype Exibicao = Exibicao(montagem: E.Montagem, chave: string)

  /** `${codigoEvento}-${osSelecionada?.numero ?? "sem-os"}`. */
  function Chave(codigoEvento: string, numero: Option<string>): string {
    codigoEvento + "-" + (if numero.Some? then numero.value else "sem-os")
  }

  /**
   * With the same OS, different texts give different keys; with the same
   * text, picking an OS where there was none, or a different OS number,
   * gives a different key: either change remounts the form. The one
   * exception is an OS numbered `sem-os` (see `ChaveSemOSColide`).
   */
  lemma {:induction false} ChaveDistingue(a: string, b: string, x: Option<string>, y: Option<string>)
    ensures x == y && a != b ==> Chave(a, x) != Chave(b, y)
    ensures a == b && x.Some? && y.Some? && x.value != y.value ==> Chave(a, x) != Chave(b, y)
    ensures a == b && x.None? && y.Some? && y.value != "sem-os" ==> Chave(a, x) != Chave(b, y)
    ensures a == b && x.Some? && y.None? && x.value != "sem-os" ==> Chave(a, x) != Chave(b, y)
  {
    if x == y && a != b && |a| == |b| {
      assert Chave(a, x)[..|a|] == a;
      assert Chave(b, y)[..|b|] == b;
    }
    if a == b && x != y {
      assert Chave(a, x)[|a| + 1..] == (if x.Some? then x.value else "sem-os");
      assert Chave(b, y)[|b| + 1..] == (if y.Some? then y.value else "sem-os");
    }
  }

  /** As written, an OS whose number is the text `sem-os` gets the key of no OS: picking it does not remount the form. */
  lemma ChaveSemOSColide(codigoEvento: string)
    ensures Chave(codigoEvento, None) == Chave(codigoEvento, Some("sem-os"))
  {
  }

  /** A key that tells "no OS" apart from every OS number: the number is marked with `os-`. */
  function ChaveCorrigida(codigoEvento: string, numero: Option<string>): string {
    codigoEvento + "-" + (if numero.Some? then "os-" + numero.value else "sem-os")
  }

  /** With the corrected key, a change of the text or of the OS, whatever it is, always remounts the form. */
  lemma {:induction false} ChaveCorrigidaDistingue(a: string, b: string, x: Option<string>, y: Option<string>)
    ensures x == y && a != b ==> ChaveCorrigida(a, x) != ChaveCorrigida(b, y)
    ensures a == b && x != y ==> ChaveCorrigida(a, x) != ChaveCorrigida(b, y)
  {
    if x == y && a != b && |a| == |b| {
      assert ChaveCorrigida(a, x)[..|a|] == a;
      assert ChaveCorrigida(b, y)[..|b|] == b;
    }
    if a == b && x != y {
      var u, v := ChaveCorrigida(a, x)[|a| + 1..], ChaveCorrigida(b, y)[|b| + 1..];
      assert u == (if x.Some? then "os-" + x.value else "sem-os");
      assert v == (if y.Some? then "os-" + y.value else "sem-os");
      if x.Some? && y.Some? {
        assert u[3..] == x.value && v[3..] == y.value;
      } else {
        assert u[0] != v[0];
      }
    }
  }

  /** The page's state: the text in the input, whether the last load succeeded, and the OS picked in the search dialog. */
  class Pagina {
    var codigoEvento: string
    var eventoValido: bool
    var osSelecionada: Option<string>

    constructor ()
      ensures codigoEvento == "" && !eventoValido && osSelecionada == None
      ensures Exibido() == None
    {
      codigoEvento, eventoValido, osSelecionada := "", false, None;
    }

    /**
     * What the page shows: a form only while the last load succeeded and the
     * text now in the input starts with a registered code, the one the text
     * names now.
     */
    function Exibido(): (r: Option<Exibicao>)
      reads this
      ensures r.Some? <==> eventoValido && ComponenteDe(codigoEvento).Some?
      ensures r.Some? ==>
                && r.value.montagem == E.Renderizar(ComponenteDe(codigoEvento).value, E.EventoProps(osSelecionada, None))
                && r.value.chave == Chave(codigoEvento, osSelecionada)
    {
      var c := ComponenteDe(codigoEvento);
      if eventoValido && c.Some? then
        Some(Exibicao(E.Renderizar(c.value, E.EventoProps(osSelecionada, None)), Chave(codigoEvento, osSelecionada)))
      else None
    }

    /** The input's `onChange`: the text changes and nothing is loaded, yet the form shown follows the new text. */
    method AlterarCodigo(texto: string)
      modifies this
      ensures codigoEvento == texto && eventoValido == old(eventoValido) && osSelecionada == old(osSelecionada)
    {
      codigoEvento := texto;
    }

    /** Picking a menu entry: its label goes into the input. */
    method EscolherOpcao(o: OpcaoEvento)
      modifies this
      ensures codigoEvento == Rotulo(o) && eventoValido == old(eventoValido) && osSelecionada == old(osSelecionada)
      ensures eventoValido && o.valor in E.EVENTO_COMPONENTS ==> Exibido().Some?
    {
      codigoEvento := Rotulo(o);
      RotuloLidoComoCodigo(o);
    }

    /** `carregarEvento()`: returns the alert raised, if any. */
    method CarregarEvento() returns (alerta: Option<string>)
      modifies this
      ensures (eventoValido, alerta) == Carregar(codigoEvento)
      ensures codigoEvento == old(codigoEvento) && osSelecionada == old(osSelecionada)
      // a successful load shows the form of the code typed; a failed one hides whatever was shown
      ensures eventoValido <==> Exibido().Some?
    {
      if Trim(codigoEvento) == "" {
        alerta := Some(ALERTA_VAZIO);
        eventoValido := false;
        return;
      }

      var cod := CodigoEventoNumero(codigoEvento);
      var eventoExiste := cod.Some? && cod.value in E.EVENTO_COMPONENTS;

      if eventoExiste {
        eventoValido := true;
        alerta := None;
      } else {
        alerta := Some(ALERTA_INEXISTENTE);
        eventoValido := false;
      }
    }

    /** `onSelectOS`: the OS picked in the search dialog, which changes the form's key. */
    method SelecionarOS(numero: string)
      modifies this
      ensures osSelecionada == Some(numero) && codigoEvento == old(codigoEvento) && eventoValido == old(eventoValido)
      // the same form stays on screen; picking another OS, or the first one, gives it a new key and so remounts it
      ensures (Exibido().Some? <==> old(Exibido()).Some?)
      ensures Exibido().Some? && old(osSelecionada) != Some(numero) && numero != "sem-os" ==>
                Exibido().value.chave != old(Exibido()).value.chave
    {
      ChaveDistingue(codigoEvento, codigoEvento, osSelecionada, Some(numero));
      osSelecionada := Some(numero);
    }
  }
}
