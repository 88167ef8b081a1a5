/**
 * Model of app/eventos/Evento13.tsx, the "division of OS" form: look an OS
 * up, type a quantity no larger than its balance, and save the event.
 */
module Evento13 {
  import opened Common
  import opened Lookup
  import B = BuscaOSEvento13
  import S = SalvarEvento

  /** `parseFloat` followed by `isNaN`: the number a text starts with, or `None` for NaN. */
  type ParseFloat = string -> Option<real>

  /** What `parseFloat` guarantees and the form relies on: a blank text is NaN. */
  ghost predicate ParseValido(parse: ParseFloat) {
    forall s :: IsBlank(s) ==> parse(s).None?
  }

  /** The texts of the form. */
  datatype TextosEvento13 = TextosEvento13(
    informeOS: string, osObrigatoria: string, osPesquisar: string,
    qtdObrigatoria: string, qtdPositiva: string, qtdSaldo: string, qtdSaldoFim: string,
    cabecalho: string, titulo: string)

  const TEXTOS := TextosEvento13(
    "Informe o número da OS",
    "O número da OS é obrigatório.",
    "É necessário pesquisar e encontrar dados válidos para a OS.",
    "A quantidade é obrigatória.",
    "A quantidade deve ser um número maior que zero.",
    "A quantidade não pode ser maior que o saldo disponível (",
    ").",
    "Erro(s) de validação:\n",
    "Divisão de OS")

  /** `handleQuantidadeChange`'s test: an empty text, or a number in (0, saldo]. */
  predicate AceitaQuantidade(value: string, saldo: int, parse: ParseFloat) {
    value == "" || (parse(value).Some? && 0.0 < parse(value).value <= saldo as real)
  }

  /** A quantity the save accepts against an OS with this balance. */
  predicate QuantidadeValida(quantidade: string, saldo: int, parse: ParseFloat) {
    !IsBlank(quantidade) && parse(quantidade).Some? && 0.0 < parse(quantidade).value <= saldo as real
  }

  /** The OS group of `handleSalvar`: required, then found. */
  function ErroOS(t: TextosEvento13, num_os: string, osInfo: Option<B.OSEvento13>): (r: Option<string>)
    ensures r == None <==> !IsBlank(num_os) && osInfo.Some?
    ensures IsBlank(num_os) ==> r == Some(t.osObrigatoria)
    ensures !IsBlank(num_os) && osInfo.None? ==> r == Some(t.osPesquisar)
  {
    if Trim(num_os) == "" then Some(t.osObrigatoria)
    else if osInfo.None? then Some(t.osPesquisar)
    else None
  }

  /**
   * The quantity group of `handleSalvar`: required, then a positive number,
   * then (only when an OS was found) no larger than its balance.
   */
  function ErroQuantidade(t: TextosEvento13, quantidade: string, osInfo: Option<B.OSEvento13>, parse: ParseFloat): (r: Option<string>)
    ensures r == None <==>
              !IsBlank(quantidade) && parse(quantidade).Some? && parse(quantidade).value > 0.0
              && (osInfo.Some? ==> parse(quantidade).value <= osInfo.value.saldo_divisoes as real)
    ensures IsBlank(quantidade) ==> r == Some(t.qtdObrigatoria)
    ensures !IsBlank(quantidade) && (parse(quantidade).None? || parse(quantidade).value <= 0.0) ==> r == Some(t.qtdPositiva)
    // the balance is quoted in the message
    ensures !IsBlank(quantidade) && parse(quantidade).Some? && osInfo.Some?
            && parse(quantidade).value > 0.0 && parse(quantidade).value > osInfo.value.saldo_divisoes as real ==>
              r == Some(t.qtdSaldo + IntToString(osInfo.value.saldo_divisoes) + t.qtdSaldoFim)
  {
    if Trim(quantidade) == "" then Some(t.qtdObrigatoria)
    else
      var q := parse(quantidade);
      if q.None? || q.value <= 0.0 then Some(t.qtdPositiva)
      else if osInfo.Some? && q.value > osInfo.value.saldo_divisoes as real then
        Some(t.qtdSaldo + IntToString(osInfo.value.saldo_divisoes) + t.qtdSaldoFim)
      else None
  }

  function ComoLista(o: Option<string>): seq<string> {
    if o.Some? then [o.value] else []
  }

  /** Every error `handleSalvar` reports: one per failing group, the OS group first. */
  function Erros13(t: TextosEvento13, num_os: string, quantidade: string, osInfo: Option<B.OSEvento13>, parse: ParseFloat): (erros: seq<string>)
    // the groups are checked independently, so both are reported together
    ensures erros == ComoLista(ErroOS(t, num_os, osInfo)) + ComoLista(ErroQuantidade(t, quantidade, osInfo, parse))
    ensures |erros| <= 2
    // nothing is reported exactly when the OS was found and the quantity is within its balance
    ensures erros == [] <==> !IsBlank(num_os) && osInfo.Some? && QuantidadeValida(quantidade, osInfo.value.saldo_divisoes, parse)
  {
    ComoLista(ErroOS(t, num_os, osInfo)) + ComoLista(ErroQuantidade(t, quantidade, osInfo, parse))
  }

  /** A quantity the change handler let in is one the save accepts. */
  lemma {:induction false} QuantidadeAceitaEhValida(value: string, saldo: int, parse: ParseFloat)
    requires ParseValido(parse) && AceitaQuantidade(value, saldo, parse) && value != ""
    ensures QuantidadeValida(value, saldo, parse)
  {
    assert parse(value).Some?;
  }

  /**
   * Because the change handler lets in only acceptable quantities, a form
   * whose quantity was typed through it can only ever report "required" for
   * the quantity: the positive-number and balance checks of the save never fire.
   */
  lemma {:induction false} SoQuantidadeObrigatoria(t: TextosEvento13, quantidade: string, osInfo: Option<B.OSEvento13>, parse: ParseFloat)
    requires ParseValido(parse)
    requires quantidade != "" ==> osInfo.Some? && QuantidadeValida(quantidade, osInfo.value.saldo_divisoes, parse)
    ensures ErroQuantidade(t, quantidade, osInfo, parse) == None || ErroQuantidade(t, quantidade, osInfo, parse) == Some(t.qtdObrigatoria)
  {
    if quantidade == "" {
      assert IsBlank(quantidade);
    }
  }

  /** The payload `handleSalvar` builds: event 13, the OS as typed, the last division, and the custom time when set. */
  function Payload13(num_os: string, ultimaDivisao: int, dataHoraCustomizada: Option<string>): S.Payload {
    S.Mesclar(map["evento" := "13", "numero_os" := num_os, "divisao" := IntToString(ultimaDivisao)], dataHoraCustomizada)
  }

  /**
   * What is posted: exactly the event code, the OS as typed, the last
   * division and, only when a custom time is set, that time; the quantity is
   * not sent. Merging the time again in `salvarEvento` changes nothing.
   */
  lemma PayloadEvento13(st: S.TextosSalvar, num_os: string, ultimaDivisao: int, dataHoraCustomizada: Option<string>,
                        titulo: string, resposta: Resposta<Option<S.RetornoSalvar>>)
    ensures var p := S.Salvar(st, Payload13(num_os, ultimaDivisao, dataHoraCustomizada), titulo, dataHoraCustomizada, resposta).enviado;
            && p.Keys == {"evento", "numero_os", "divisao"} + (if Preenchido(dataHoraCustomizada) then {S.DATA_HORA} else {})
            && p["evento"] == "13" && p["numero_os"] == num_os && p["divisao"] == IntToString(ultimaDivisao)
            && (Preenchido(dataHoraCustomizada) ==> p[S.DATA_HORA] == dataHoraCustomizada.value)
  {
    S.MesclarIdempotente(map["evento" := "13", "numero_os" := num_os, "divisao" := IntToString(ultimaDivisao)], dataHoraCustomizada);
  }

  /** The form's own state: its two text fields and whether the quantity can be typed. */
  datatype Campos13 = Campos13(num_os: string, quantidade: string, habilitada: bool)

  /** The quantity is enabled only while an OS is kept. */
  predicate HabilitadaComOS(c: Campos13, e: B.EstadoOS13) {
    c.habilitada ==> e.osInfo.Some?
  }

  /** The form and the lookup after `handleConsultarOS`, with the toast raised and the number sent. */
  datatype SaidaConsulta13 = SaidaConsulta13(campos: Campos13, busca: B.EstadoOS13, aviso: Option<string>, pedido: Option<string>)

  /** One call of `handleConsultarOS` from the form `c` and the lookup state `e`, for the server's reply. */
  function ConsultaForm13(t: TextosEvento13, tb: B.TextosOS13, c: Campos13, e: B.EstadoOS13,
                          resposta: Resposta<Option<B.OSEvento13>>): (s: SaidaConsulta13)
    // a blank number only raises a toast
    ensures IsBlank(c.num_os) ==> s == SaidaConsulta13(c, e, Some(t.informeOS), None)
    // otherwise the lookup runs on the trimmed number, and its toast is the one raised
    ensures !IsBlank(c.num_os) ==>
              var b := B.ConsultaOS13(tb, e, Trim(c.num_os), resposta);
              s.busca == b.estado && s.aviso == b.aviso && s.pedido == Some(Trim(c.num_os))
    // the quantity is cleared, and it can be typed exactly when an OS with a balance was kept
    ensures !IsBlank(c.num_os) ==>
              && s.campos.quantidade == "" && (s.campos.habilitada <==> s.busca.osInfo.Some?)
              && (s.campos.habilitada ==> s.busca.osInfo.value.saldo_divisoes != 0)
    // a number that found nothing is erased; a found one stays as typed
    ensures !IsBlank(c.num_os) ==> s.campos.num_os == (if s.busca.osInfo.Some? then c.num_os else "")
    ensures HabilitadaComOS(c, e) ==> HabilitadaComOS(s.campos, s.busca)
  {
    if Trim(c.num_os) == "" then
      SaidaConsulta13(c, e, Some(t.informeOS), None)
    else
      TrimIdempotent(c.num_os);
      var b := B.ConsultaOS13(tb, e, Trim(c.num_os), resposta);
      var achou := b.retorno.Some?;
      SaidaConsulta13(Campos13(if achou then c.num_os else "", "", achou), b.estado, b.aviso, b.pedido)
  }

  /** The form: its two text fields, whether the quantity can be typed, and the hooks it uses. */
  class Evento13 {
    const textos: TextosEvento13
    const parseFloat: ParseFloat
    const busca: B.UseBuscaOSEvento13
    const salvar: S.UseSalvarEvento
    var num_os: string
    var quantidade: string
    var quantidadeHabilitada: bool

    /** The hooks are in their resting states and the number parser behaves as `parseFloat`. */
    ghost predicate Montado()
      reads this, busca, salvar
    {
      ParseValido(parseFloat) && busca.Valid() && salvar.Valid()
    }

    /**
     * The quantity can only be typed once an OS was found, and a quantity
     * held is always one the save accepts against that OS's balance.
     */
    ghost predicate Valid()
      reads this, busca, salvar
    {
      && Montado()
      && (quantidadeHabilitada ==> busca.osInfo.Some?)
      && (quantidade != "" ==> busca.osInfo.Some? && QuantidadeValida(quantidade, busca.osInfo.value.saldo_divisoes, parseFloat))
    }

    function Campos(): Campos13
      reads this
    {
      Campos13(num_os, quantidade, quantidadeHabilitada)
    }

    /** The form as it mounts: the OS number preselected on the page, if any. */
    constructor (osSelecionada: Option<string>, parse: ParseFloat)
      requires ParseValido(parse)
      ensures Valid() && fresh(busca) && fresh(salvar) && textos == TEXTOS && parseFloat == parse
      ensures num_os == (if osSelecionada.Some? then osSelecionada.value else "") && quantidade == "" && !quantidadeHabilitada
      ensures busca.osInfo == None
    {
      textos := TEXTOS;
      parseFloat := parse;
      busca := new B.UseBuscaOSEvento13();
      salvar := new S.UseSalvarEvento();
      num_os := if osSelecionada.Some? then osSelecionada.value else "";
      quantidade := "";
      quantidadeHabilitada := false;
    }

    /** The OS input's `onChange`. */
    method AlterarNumOS(value: string)
      requires Valid()
      modifies this
      ensures Valid() && num_os == value && quantidade == old(quantidade) && quantidadeHabilitada == old(quantidadeHabilitada)
    {
      num_os := value;
    }

    /** `limparCampos()`: disables and clears the quantity. */
    method LimparCampos()
      requires Valid()
      modifies this
      ensures Valid() && num_os == old(num_os) && quantidade == "" && !quantidadeHabilitada
    {
      quantidadeHabilitada := false;
      quantidade := "";
    }

    /**
     * `handleConsultarOS()`, with the server's reply to the lookup. Returns
     * the toast raised (by the form or by the lookup) and the number sent.
     */
    method HandleConsultarOS(resposta: Resposta<Option<B.OSEvento13>>) returns (aviso: Option<string>, pedido: Option<string>)
      requires Valid()
      modifies this, busca
      ensures Valid()
      ensures SaidaConsulta13(Campos(), busca.Estado(), aviso, pedido)
              == ConsultaForm13(textos, busca.textos, old(Campos()), old(busca.Estado()), resposta)
    {
      var numeroOS := Trim(num_os);
      if numeroOS == "" {
        return Some(textos.informeOS), None;
      }

      ghost var c0, e0 := Campos(), busca.Estado();
      ghost var b := B.ConsultaOS13(busca.textos, e0, numeroOS, resposta);
      ghost var achou := b.retorno.Some?;
      ghost var fim := ConsultaForm13(textos, busca.textos, c0, e0, resposta);
      assert fim == SaidaConsulta13(Campos13(if achou then c0.num_os else "", "", achou), b.estado, b.aviso, b.pedido);

      LimparCampos();
      assert busca.Estado() == e0 && num_os == c0.num_os;
      var resultado;
      resultado, pedido, aviso := busca.ConsultarOS(numeroOS, resposta);
      assert busca.Estado() == b.estado && resultado == b.retorno && aviso == b.aviso && pedido == b.pedido;
      assert num_os == c0.num_os && quantidade == "";

      if resultado.Some? {
        quantidadeHabilitada := true;
        assert Campos() == fim.campos;
      } else {
        num_os := "";
        assert Campos() == fim.campos;
      }
    }

    /**
     * The effect that runs when the form mounts with a preselected OS and
     * no reference yet: the reference `OS <numero>` is set, then
     * `handleConsultarOS()` runs (deferred by a zero timeout in the source).
     */
    method InicializarOSSelecionada(osSelecionada: Option<string>, resposta: Resposta<Option<B.OSEvento13>>)
      returns (aviso: Option<string>, pedido: Option<string>)
      requires Valid()
      modifies this, busca
      ensures Valid()
      ensures osSelecionada.None? || old(busca.referencia).Some? ==>
                Campos() == old(Campos()) && busca.Estado() == old(busca.Estado()) && aviso == None && pedido == None
      ensures osSelecionada.Some? && old(busca.referencia).None? ==>
                SaidaConsulta13(Campos(), busca.Estado(), aviso, pedido)
                == ConsultaForm13(textos, busca.textos, old(Campos()),
                                  old(busca.Estado()).(referencia := Some("OS " + osSelecionada.value)), resposta)
    {
      if osSelecionada.Some? && busca.referencia.None? {
        busca.SetReferencia(Some("OS " + osSelecionada.value));
        aviso, pedido := HandleConsultarOS(resposta);
      } else {
        aviso, pedido := None, None;
      }
    }

    /** `handleQuantidadeChange(value)`: ignored with no OS; otherwise kept only when acceptable. */
    method HandleQuantidadeChange(value: string)
      requires Valid()
      modifies this
      ensures Valid()
      ensures quantidade == (if busca.osInfo.Some? && AceitaQuantidade(value, busca.osInfo.value.saldo_divisoes, parseFloat)
                             then value else old(quantidade))
      ensures num_os == old(num_os) && quantidadeHabilitada == old(quantidadeHabilitada)
    {
      if busca.osInfo.None? {
        return;
      }
      if AceitaQuantidade(value, busca.osInfo.value.saldo_divisoes, parseFloat) {
        if value != "" {
          QuantidadeAceitaEhValida(value, busca.osInfo.value.saldo_divisoes, parseFloat);
        }
        quantidade := value;
      }
    }

    /**
     * `handleSalvar()`, with the outcome of the POST it makes when the form
     * is valid. Returns the validation toast, or what the save did.
     */
    method HandleSalvar(dataHoraCustomizada: Option<string>, resposta: Resposta<Option<S.RetornoSalvar>>)
      returns (avisoValidacao: Option<string>, salvamento: Option<S.Salvamento>)
      requires Montado()
      modifies salvar
      ensures Montado() && (old(Valid()) ==> Valid())
      ensures var erros := Erros13(textos, num_os, quantidade, busca.osInfo, parseFloat);
              && (erros != [] ==> avisoValidacao == Some(textos.cabecalho + Join(erros, "\n")) && salvamento == None)
              && (erros == [] ==>
                    && avisoValidacao == None && busca.osInfo.Some?
                    && salvamento == Some(S.Salvar(salvar.textos, Payload13(num_os, busca.osInfo.value.ultima_divisao, dataHoraCustomizada),
                                                   textos.titulo, dataHoraCustomizada, resposta)))
    {
      var erros: seq<string> := [];

      if Trim(num_os) == "" {
        erros := erros + [textos.osObrigatoria];
      } else if busca.osInfo.None? {
        erros := erros + [textos.osPesquisar];
      }

      assert erros == ComoLista(ErroOS(textos, num_os, busca.osInfo));
      ghost var grupoOS := erros;

      ghost var grupoQuantidade := ErroQuantidade(textos, quantidade, busca.osInfo, parseFloat);
      if Trim(quantidade) == "" {
        erros := erros + [textos.qtdObrigatoria];
        assert grupoQuantidade == Some(textos.qtdObrigatoria);
      } else {
        var q := parseFloat(quantidade);
        if q.None? || q.value <= 0.0 {
          erros := erros + [textos.qtdPositiva];
          assert grupoQuantidade == Some(textos.qtdPositiva);
        } else if busca.osInfo.Some? && q.value > busca.osInfo.value.saldo_divisoes as real {
          var saldo := busca.osInfo.value.saldo_divisoes;
          erros := erros + [textos.qtdSaldo + IntToString(saldo) + textos.qtdSaldoFim];
          assert grupoQuantidade == Some(textos.qtdSaldo + IntToString(saldo) + textos.qtdSaldoFim);
        } else {
          assert grupoQuantidade == None;
        }
      }

      assert erros == grupoOS + ComoLista(ErroQuantidade(textos, quantidade, busca.osInfo, parseFloat));
      assert erros == Erros13(textos, num_os, quantidade, busca.osInfo, parseFloat);
      if |erros| > 0 {
        return Some(textos.cabecalho + Join(erros, "\n")), None;
      }

      var payload := Payload13(num_os, busca.osInfo.value.ultima_divisao, dataHoraCustomizada);
      var ok, enviado, avisoSucesso, avisoErro := salvar.SalvarEvento(payload, textos.titulo, dataHoraCustomizada, resposta);
      return None, Some(S.Salvamento(enviado, ok, avisoSucesso, avisoErro));
    }

    /** `handleCancelar()`: clears both fields and disables the quantity (the redirect home is not modelled). */
    method HandleCancelar()
      requires Valid()
      modifies this
      ensures Valid() && num_os == "" && quantidade == "" && !quantidadeHabilitada
    {
      num_os := "";
      quantidade := "";
      quantidadeHabilitada := false;
    }
  }
}
