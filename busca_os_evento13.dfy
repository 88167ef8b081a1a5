/**
 * Model of app/components/hooks/useBuscaOSEvento13.ts: the OS lookup of the
 * "division of OS" event, which refuses an order with no balance of
 * divisions left.
 */
module BuscaOSEvento13 {
  import opened Common
  import opened ApiErrors
  import opened Lookup

  /** The order as this lookup returns it. */
  datatype OSEvento13 = OSEvento13(numero_os: int, quantidade_os: int, ultima_divisao: int, saldo_divisoes: int)

  /** The texts of this hook: required number, nothing found, no balance, failure fallback. */
  datatype TextosOS13 = TextosOS13(obrigatorio: string, semInformacao: string, semSaldo: string, falha: string)

  const TEXTOS := TextosOS13(
    "Informe o número da OS para pesquisar.",
    "Nenhuma informação encontrada para a OS informada.",
    "OS não possui saldo disponível",
    "Não foi possível consultar a OS.")

  predicate TextosOS13Validos(t: TextosOS13) {
    t.obrigatorio != "" && t.semInformacao != "" && t.semSaldo != "" && t.falha != ""
  }

  /** The hook's state: the order kept, its reference label, the inline error and the pending flag. */
  datatype EstadoOS13 = EstadoOS13(osInfo: Option<OSEvento13>, referencia: Option<string>, erro: Option<string>, buscando: bool)

  /** The state after `consultarOS`, the order returned, the number sent (`None`: no request) and the toast raised. */
  datatype SaidaOS13 = SaidaOS13(estado: EstadoOS13, retorno: Option<OSEvento13>, pedido: Option<string>, aviso: Option<string>)

  /** The order that may be kept: only one with a balance of divisions. */
  predicate ComSaldo(o: Option<OSEvento13>) {
    o.Some? ==> o.value.saldo_divisoes != 0
  }

  /**
   * One call of `consultarOS` from state `e`. The reply is the decoded body,
   * `None` for an empty one (which the hook treats as "not found").
   */
  function ConsultaOS13(t: TextosOS13, e: EstadoOS13, numeroOS: string, resposta: Resposta<Option<OSEvento13>>): (s: SaidaOS13)
    // a blank number: the "required" error is set and cleared again, so nothing is shown
    ensures IsBlank(numeroOS) ==> s == SaidaOS13(EstadoOS13(None, None, None, e.buscando), None, None, None)
    ensures !IsBlank(numeroOS) ==> s.pedido == Some(Trim(numeroOS)) && !s.estado.buscando
    // an order with a balance is kept and returned, with the reference `OS <numero_os>`
    ensures !IsBlank(numeroOS) && resposta.Recebida? && resposta.corpo.Some? && resposta.corpo.value.saldo_divisoes != 0 ==>
              var o := resposta.corpo.value;
              s == SaidaOS13(EstadoOS13(Some(o), Some("OS " + IntToString(o.numero_os)), None, false), Some(o), Some(Trim(numeroOS)), None)
    // an order with no balance is refused with a toast and the lookup is cleared
    ensures !IsBlank(numeroOS) && resposta.Recebida? && resposta.corpo.Some? && resposta.corpo.value.saldo_divisoes == 0 ==>
              s.estado == EstadoOS13(None, None, None, false) && s.retorno == None && s.aviso == Some(t.semSaldo)
    ensures !IsBlank(numeroOS) && resposta.Recebida? && resposta.corpo.None? ==>
              s.estado == EstadoOS13(None, None, Some(t.semInformacao), false) && s.retorno == None && s.aviso == None
    ensures !IsBlank(numeroOS) && resposta.Falhou? ==>
              s.estado == EstadoOS13(None, None, None, false) && s.retorno == None
              && s.aviso == Some(MensagemErroApi(resposta.erro, t.falha))
    // whatever the reply, an order without balance is never kept, and the order kept is the one returned
    ensures ComSaldo(s.estado.osInfo) && s.estado.osInfo == s.retorno
    ensures s.estado.osInfo.Some? <==> s.estado.referencia.Some?
  {
    var numero := Trim(numeroOS);
    if numero == "" then
      SaidaOS13(EstadoOS13(None, None, None, e.buscando), None, None, None)
    else
      match resposta
      case Recebida(Some(o)) =>
        if o.saldo_divisoes == 0 then
          SaidaOS13(EstadoOS13(None, None, None, false), None, Some(numero), Some(t.semSaldo))
        else
          SaidaOS13(EstadoOS13(Some(o), Some("OS " + IntToString(o.numero_os)), None, false), Some(o), Some(numero), None)
      case Recebida(None) =>
        SaidaOS13(EstadoOS13(None, None, Some(t.semInformacao), false), None, Some(numero), None)
      case Falhou(erro) =>
        SaidaOS13(EstadoOS13(None, None, None, false), None, Some(numero), Some(MensagemErroApi(erro, t.falha)))
  }

  /** The outcome depends only on the reply, never on what was kept before. */
  lemma ConsultaOS13SemMemoria(t: TextosOS13, e1: EstadoOS13, e2: EstadoOS13, numeroOS: string, resposta: Resposta<Option<OSEvento13>>)
    requires !IsBlank(numeroOS)
    ensures ConsultaOS13(t, e1, numeroOS, resposta) == ConsultaOS13(t, e2, numeroOS, resposta)
  {
  }

  class UseBuscaOSEvento13 {
    const textos: TextosOS13
    var osInfo: Option<OSEvento13>
    var referencia: Option<string>
    var erroBuscaOS: Option<string>
    var buscandoOS: bool

    /** The order kept always has a balance, and no request is in flight between handlers. */
    predicate Valid()
      reads this
    {
      TextosOS13Validos(textos) && ComSaldo(osInfo) && !buscandoOS
    }

    function Estado(): EstadoOS13
      reads this
    {
      EstadoOS13(osInfo, referencia, erroBuscaOS, buscandoOS)
    }

    constructor ()
      ensures Valid() && textos == TEXTOS
      ensures Estado() == EstadoOS13(None, None, None, false)
    {
      textos := TEXTOS;
      osInfo, referencia, erroBuscaOS, buscandoOS := None, None, None, false;
    }

    /** `limparBuscaOS()`. */
    method LimparBuscaOS()
      modifies this
      ensures Estado() == EstadoOS13(None, None, None, old(buscandoOS))
    {
      osInfo := None;
      referencia := None;
      erroBuscaOS := None;
    }

    /** `setReferencia(r)`. */
    method SetReferencia(r: Option<string>)
      requires Valid()
      modifies this
      ensures Valid()
      ensures Estado() == old(Estado()).(referencia := r)
    {
      referencia := r;
    }

    /** `consultarOS(numeroOS)`, with the server's reply to the request it makes. */
    method ConsultarOS(numeroOS: string, resposta: Resposta<Option<OSEvento13>>)
      returns (retorno: Option<OSEvento13>, pedido: Option<string>, aviso: Option<string>)
      requires Valid()
      modifies this
      ensures Valid()
      ensures SaidaOS13(Estado(), retorno, pedido, aviso) == ConsultaOS13(textos, old(Estado()), numeroOS, resposta)
    {
      var numero := Trim(numeroOS);
      if numero == "" {
        erroBuscaOS := Some(textos.obrigatorio);
        LimparBuscaOS();
        return None, None, None;
      }

      erroBuscaOS := None;
      buscandoOS := true;
      pedido, aviso := Some(numero), None;

      match resposta {
        case Recebida(Some(o)) =>
          if o.saldo_divisoes == 0 {
            erroBuscaOS := Some(textos.semSaldo);
            aviso := Some(textos.semSaldo);
            LimparBuscaOS();
            retorno := None;
          } else {
            osInfo := Some(o);
            referencia := Some("OS " + IntToString(o.numero_os));
            retorno := Some(o);
          }
        case Recebida(None) =>
          osInfo := None;
          referencia := None;
          erroBuscaOS := Some(textos.semInformacao);
          retorno := None;
        case Falhou(erro) =>
          var mensagem := MensagemErroApi(erro, textos.falha);
          erroBuscaOS := Some(mensagem);
          aviso := Some(mensagem);
          LimparBuscaOS();
          retorno := None;
      }

      buscandoOS := false;
    }
  }
}
