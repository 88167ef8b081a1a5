/**
 * Model of app/components/hooks/useBuscaOS.ts: the service-order (OS) lookup
 * shared by the event forms. `consultarOS` fetches the order's summary and
 * keeps it; `consultarOSCompleta` fetches the order with its divisions and
 * hands them back to the caller.
 */
module BuscaOS {
  import opened Common
  import opened ApiErrors
  import opened Lookup

  /**
   * An order's summary. `numero_os` may come as a number or a string: it is
   * held as the text a template literal prints for it.
   */
  datatype OrdemBusca = OrdemBusca(numero_os: Option<string>, cliente: Option<string>, descricao: Option<string>, status: Option<string>)

  /** An order with its divisions; every property the server may omit is optional. */
  datatype OrdemCompleta = OrdemCompleta(
    numero_os: int, quantidade_os: int, numero_carga: Option<int>,
    posto: Option<string>, descricao_posto: Option<string>, postos_possiveis: Option<seq<Cadastro>>,
    cargas_prioritarias: Option<string>, divisoes: Option<seq<Linha>>)

  /** What `consultarOSCompleta` hands back. */
  datatype ResultadoOS = ResultadoOS(
    linhas: seq<Linha>, referencia: Option<string>,
    posto: Option<string>, descricaoPosto: Option<string>, postosPossiveis: Option<seq<Cadastro>>,
    numeroCarga: Option<int>, cargasPrioritarias: Option<string>)

  /** The result of a blank number or a failure: no rows, nothing else. */
  const RESULTADO_VAZIO := ResultadoOS([], None, None, None, None, None, None)

  /** The texts of this hook: required number, nothing found, no divisions, failure fallback. */
  datatype TextosOS = TextosOS(obrigatorio: string, semInformacao: string, semDivisao: string, falha: string)

  const TEXTOS := TextosOS(
    "Informe o número da OS para pesquisar.",
    "Nenhuma informação encontrada para a OS informada.",
    "Nenhuma divisão encontrada para a OS informada.",
    "Não foi possível consultar a OS.")

  predicate TextosOSValidos(t: TextosOS) {
    t.obrigatorio != "" && t.semInformacao != "" && t.semDivisao != "" && t.falha != ""
  }

  /** The hook's state: the order found, its reference label, the inline error and the pending flag. */
  datatype EstadoOS = EstadoOS(osInfo: Option<OrdemBusca>, referencia: Option<string>, erro: Option<string>, buscando: bool)

  /** The state after `consultarOS`, the order it returns, the number sent (`None`: no request) and the toast raised. */
  datatype SaidaOS = SaidaOS(estado: EstadoOS, retorno: Option<OrdemBusca>, pedido: Option<string>, aviso: Option<string>)

  /** The state after `consultarOSCompleta`, its result, the number sent and the toast raised. */
  datatype SaidaOSCompleta = SaidaOSCompleta(estado: EstadoOS, resultado: ResultadoOS, pedido: Option<string>, aviso: Option<string>)

  /** `OS ${numero_os ?? numero}`: the order's own number, or the number typed when the reply has none. */
  function ReferenciaOS(o: OrdemBusca, numero: string): string {
    "OS " + (if o.numero_os.Some? then o.numero_os.value else numero)
  }

  /** One call of `consultarOS` from state `e`, for the number typed and the server's reply. */
  function ConsultaOS(t: TextosOS, e: EstadoOS, numeroOS: string, resposta: Resposta<Corpo<OrdemBusca>>): (s: SaidaOS)
    // a blank number sets the "required" error and then clears it along with everything else: nothing is shown
    ensures IsBlank(numeroOS) ==> s == SaidaOS(EstadoOS(None, None, None, e.buscando), None, None, None)
    ensures !IsBlank(numeroOS) ==> s.pedido == Some(Trim(numeroOS)) && !s.estado.buscando
    // the order kept is the one returned, and it has a reference exactly when it is kept
    ensures s.estado.osInfo == s.retorno
    ensures s.estado.osInfo.Some? <==> s.estado.referencia.Some?
    ensures s.retorno.Some? ==> s.estado.referencia == Some(ReferenciaOS(s.retorno.value, Trim(numeroOS))) && s.estado.erro == None
    // a reply: element 0 of an array or the object itself; nothing found shows the "no information" error
    ensures !IsBlank(numeroOS) && resposta.Recebida? ==> s.retorno == PrimeiroOuUnico(resposta.corpo) && s.aviso == None
    ensures !IsBlank(numeroOS) && resposta.Recebida? && s.retorno == None ==> s.estado.erro == Some(t.semInformacao)
    // a failure raises the normalised message as a toast and then clears the whole lookup
    ensures !IsBlank(numeroOS) && resposta.Falhou? ==>
              s.estado == EstadoOS(None, None, None, false) && s.retorno == None
              && s.aviso == Some(MensagemErroApi(resposta.erro, t.falha))
    // the only error this call can leave on screen is "no information"
    ensures s.estado.erro.Some? ==> s.estado.erro == Some(t.semInformacao)
  {
    var numero := Trim(numeroOS);
    if numero == "" then
      SaidaOS(EstadoOS(None, None, None, e.buscando), None, None, None)
    else
      match resposta
      case Recebida(corpo) =>
        var ordem := PrimeiroOuUnico(corpo);
        if ordem.Some? then
          SaidaOS(EstadoOS(ordem, Some(ReferenciaOS(ordem.value, numero)), None, false), ordem, Some(numero), None)
        else
          SaidaOS(EstadoOS(None, None, Some(t.semInformacao), false), None, Some(numero), None)
      case Falhou(erro) =>
        SaidaOS(EstadoOS(None, None, None, false), None, Some(numero), Some(MensagemErroApi(erro, t.falha)))
  }

  /** `dados.map(linha => ({...linha, numero_os}))`: every row keeps its division and quantity and gets the order's number. */
  function AnotarLinhas(dados: seq<Linha>, numero: int): (r: seq<Linha>)
    ensures |r| == |dados|
    ensures forall i :: 0 <= i < |r| ==>
              r[i].numero_os == Some(numero) && r[i].divisao == dados[i].divisao && r[i].quantidade == dados[i].quantidade
  {
    seq(|dados|, i requires 0 <= i < |dados| => dados[i].(numero_os := Some(numero)))
  }

  /** The outcome of `consultarOSCompleta` when the request threw `erro`: the reference shown before is kept. */
  function FalhaOSCompleta(t: TextosOS, e: EstadoOS, numero: string, erro: ApiError): SaidaOSCompleta {
    var mensagem := MensagemErroApi(erro, t.falha);
    SaidaOSCompleta(EstadoOS(e.osInfo, e.referencia, Some(mensagem), false), RESULTADO_VAZIO, Some(numero), Some(mensagem))
  }

  /**
   * One call of `consultarOSCompleta` from state `e`. The reply is the
   * decoded body, `None` for an empty one: reading `divisoes` from it then
   * throws inside the hook's `try`.
   */
  function ConsultaOSCompleta(t: TextosOS, e: EstadoOS, numeroOS: string, resposta: Resposta<Option<OrdemCompleta>>): (s: SaidaOSCompleta)
    // blank: only the "required" error changes
    ensures IsBlank(numeroOS) ==>
              s == SaidaOSCompleta(EstadoOS(e.osInfo, e.referencia, Some(t.obrigatorio), e.buscando), RESULTADO_VAZIO, None, None)
    // otherwise the trimmed number is sent, the pending flag ends false and the kept summary is untouched
    ensures !IsBlank(numeroOS) ==> s.pedido == Some(Trim(numeroOS)) && !s.estado.buscando && s.estado.osInfo == e.osInfo
    // an order: its rows carry its number, its reference is shown and returned, its other data passes through
    ensures !IsBlank(numeroOS) && resposta.Recebida? && resposta.corpo.Some? ==>
              var r := resposta.corpo.value;
              var dados := if r.divisoes.Some? then r.divisoes.value else [];
              && |s.resultado.linhas| == |dados|
              && (forall i :: 0 <= i < |dados| ==> s.resultado.linhas[i] == dados[i].(numero_os := Some(r.numero_os)))
              && s.resultado.referencia == Some("OS " + IntToString(r.numero_os)) && s.estado.referencia == s.resultado.referencia
              && s.resultado.posto == r.posto && s.resultado.descricaoPosto == r.descricao_posto
              && s.resultado.postosPossiveis == r.postos_possiveis && s.resultado.numeroCarga == r.numero_carga
              && s.resultado.cargasPrioritarias == r.cargas_prioritarias
              // no divisions is reported inline, yet the reference is still set
              && s.estado.erro == (if dados == [] then Some(t.semDivisao) else None) && s.aviso == None
    // an empty body fails like a thrown TypeError
    ensures !IsBlank(numeroOS) && resposta.Recebida? && resposta.corpo.None? ==>
              s == FalhaOSCompleta(t, e, Trim(numeroOS), ErroLeituraDeIndefinido("divisoes"))
    // a failure shows and raises the normalised message, returns nothing and keeps the previous reference
    ensures !IsBlank(numeroOS) && resposta.Falhou? ==>
              && s.resultado == RESULTADO_VAZIO && s.estado.referencia == e.referencia
              && s.estado.erro == Some(MensagemErroApi(resposta.erro, t.falha)) && s.aviso == s.estado.erro
  {
    var numero := Trim(numeroOS);
    if numero == "" then
      SaidaOSCompleta(EstadoOS(e.osInfo, e.referencia, Some(t.obrigatorio), e.buscando), RESULTADO_VAZIO, None, None)
    else
      match resposta
      case Recebida(None) => FalhaOSCompleta(t, e, numero, ErroLeituraDeIndefinido("divisoes"))
      case Recebida(Some(r)) =>
        var dados := if r.divisoes.Some? then r.divisoes.value else [];
        var referencia := Some("OS " + IntToString(r.numero_os));
        var erro := if |dados| == 0 then Some(t.semDivisao) else None;
        var resultado := ResultadoOS(AnotarLinhas(dados, r.numero_os), referencia, r.posto, r.descricao_posto,
                                     r.postos_possiveis, r.numero_carga, r.cargas_prioritarias);
        SaidaOSCompleta(EstadoOS(e.osInfo, referencia, erro, false), resultado, Some(numero), None)
      case Falhou(erro) => FalhaOSCompleta(t, e, numero, erro)
  }

  /** An empty body is reported with the engine's own TypeError text, shown and raised, not with the fallback. */
  lemma {:induction false} CorpoVazioMostraTypeError(t: TextosOS, e: EstadoOS, numeroOS: string)
    requires !IsBlank(numeroOS)
    ensures var s := ConsultaOSCompleta(t, e, numeroOS, Recebida(None));
            s.aviso == ErroLeituraDeIndefinido("divisoes").mensagem && s.estado.erro == s.aviso
  {
    var erro := ErroLeituraDeIndefinido("divisoes");
    assert !StatusPermitido(erro.status) && Preenchido(erro.mensagem);
  }

  /** The outcome of a search depends only on the trimmed number and the reply: blanks around it change nothing. */
  lemma ConsultaOSIgnoraEspacos(t: TextosOS, e: EstadoOS, a: string, b: string, resposta: Resposta<Corpo<OrdemBusca>>)
    requires Trim(a) == Trim(b)
    ensures ConsultaOS(t, e, a, resposta) == ConsultaOS(t, e, b, resposta)
  {
  }

  class UseBuscaOS {
    const textos: TextosOS
    var osInfo: Option<OrdemBusca>
    var referencia: Option<string>
    var erroBuscaOS: Option<string>
    var buscandoOS: bool

    /** No request in flight between handlers. */
    predicate Valid()
      reads this
    {
      TextosOSValidos(textos) && !buscandoOS
    }

    function Estado(): EstadoOS
      reads this
    {
      EstadoOS(osInfo, referencia, erroBuscaOS, buscandoOS)
    }

    constructor ()
      ensures Valid() && textos == TEXTOS
      ensures Estado() == EstadoOS(None, None, None, false)
    {
      textos := TEXTOS;
      osInfo, referencia, erroBuscaOS, buscandoOS := None, None, None, false;
    }

    /** `limparBuscaOS()`: forgets the order, its reference and the error. */
    method LimparBuscaOS()
      modifies this
      ensures Estado() == EstadoOS(None, None, None, old(buscandoOS))
    {
      osInfo := None;
      referencia := None;
      erroBuscaOS := None;
    }

    /** `setReferencia(r)`, which the forms call directly. */
    method SetReferencia(r: Option<string>)
      modifies this
      ensures Estado() == old(Estado()).(referencia := r)
    {
      referencia := r;
    }

    /** `consultarOS(numeroOS)`, with the server's reply to the request it makes. */
    method ConsultarOS(numeroOS: string, resposta: Resposta<Corpo<OrdemBusca>>)
      returns (retorno: Option<OrdemBusca>, pedido: Option<string>, aviso: Option<string>)
      requires Valid()
      modifies this
      ensures Valid()
      ensures SaidaOS(Estado(), retorno, pedido, aviso) == ConsultaOS(textos, old(Estado()), numeroOS, resposta)
    {
      var numero := Trim(numeroOS);
      if numero == "" {
        erroBuscaOS := Some(textos.obrigatorio);
        LimparBuscaOS();
        return None, None, None;
      }

      erroBuscaOS := None;
      buscandoOS := true;
      pedido, aviso := Some(numero), None;

      match resposta {
        case Recebida(corpo) =>
          var ordemEncontrada := PrimeiroOuUnico(corpo);
          if ordemEncontrada.Some? {
            osInfo := ordemEncontrada;
            referencia := Some(ReferenciaOS(ordemEncontrada.value, numero));
            retorno := ordemEncontrada;
          } else {
            osInfo := None;
            referencia := None;
            erroBuscaOS := Some(textos.semInformacao);
            retorno := None;
          }
        case Falhou(erro) =>
          var mensagem := MensagemErroApi(erro, textos.falha);
          erroBuscaOS := Some(mensagem);
          aviso := Some(mensagem);
          LimparBuscaOS();
          retorno := None;
      }

      buscandoOS := false;
    }

    /** `consultarOSCompleta(numeroOS)`, with the server's reply to the request it makes. */
    method ConsultarOSCompleta(numeroOS: string, resposta: Resposta<Option<OrdemCompleta>>)
      returns (resultado: ResultadoOS, pedido: Option<string>, aviso: Option<string>)
      requires Valid()
      modifies this
      ensures Valid()
      ensures SaidaOSCompleta(Estado(), resultado, pedido, aviso) == ConsultaOSCompleta(textos, old(Estado()), numeroOS, resposta)
    {
      var numero := Trim(numeroOS);
      if numero == "" {
        erroBuscaOS := Some(textos.obrigatorio);
        return RESULTADO_VAZIO, None, None;
      }

      erroBuscaOS := None;
      buscandoOS := true;
      pedido, aviso := Some(numero), None;

      var falha: Option<ApiError> := None;
      match resposta {
        case Recebida(None) =>
          falha := Some(ErroLeituraDeIndefinido("divisoes"));
        case Recebida(Some(r)) =>
          var dados := if r.divisoes.Some? then r.divisoes.value else [];
          var linhasComNumeroOS := AnotarLinhas(dados, r.numero_os);
          var referenciaTexto := "OS " + IntToString(r.numero_os);
          referencia := Some(referenciaTexto);
          if |dados| == 0 {
            erroBuscaOS := Some(textos.semDivisao);
          }
          resultado := ResultadoOS(linhasComNumeroOS, Some(referenciaTexto), r.posto, r.descricao_posto,
                                   r.postos_possiveis, r.numero_carga, r.cargas_prioritarias);
        case Falhou(erro) =>
          falha := Some(erro);
      }

      if falha.Some? {
        var mensagem := MensagemErroApi(falha.value, textos.falha);
        erroBuscaOS := Some(mensagem);
        aviso := Some(mensagem);
        resultado := RESULTADO_VAZIO;
      }

      buscandoOS := false;
    }
  }
}
