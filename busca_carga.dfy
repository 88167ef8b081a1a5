/**
 * Model of app/components/hooks/useBuscaCarga.ts: the lookup of a furnace
 * load and the orders in it.
 */
module BuscaCarga {
  import opened Common
  import opened ApiErrors
  import opened Lookup

  /** A load as the server returns it. */
  datatype CargaResposta = CargaResposta(numero_carga: int, oss: Option<seq<Linha>>)

  /** What `consultarCarga` hands back: the load's rows and its reference label. */
  datatype ResultadoCarga = ResultadoCarga(linhas: seq<Linha>, referencia: Option<string>)

  /** The texts of this hook: required number, no orders, failure fallback. */
  datatype TextosCarga = TextosCarga(obrigatorio: string, semOS: string, falha: string)

  const TEXTOS := TextosCarga(
    "Informe o número da carga para pesquisar.",
    "Nenhuma OS encontrada para a carga informada.",
    "Não foi possível consultar a carga.")

  predicate TextosCargaValidos(t: TextosCarga) {
    t.obrigatorio != "" && t.semOS != "" && t.falha != ""
  }

  /** The hook's state: the inline error and the pending flag. */
  datatype EstadoCarga = EstadoCarga(erro: Option<string>, buscando: bool)

  /** The state after `consultarCarga`, its result, the number sent (`None`: no request) and the toast raised. */
  datatype SaidaCarga = SaidaCarga(estado: EstadoCarga, resultado: ResultadoCarga, pedido: Option<string>, aviso: Option<string>)

  /**
   * One call of `consultarCarga` from state `e`. The reply is the decoded
   * body, `None` for an empty one: reading `oss` from it then throws inside
   * the hook's `try`.
   */
  function ConsultaCarga(t: TextosCarga, e: EstadoCarga, numeroCarga: string, resposta: Resposta<Option<CargaResposta>>): (s: SaidaCarga)
    ensures IsBlank(numeroCarga) ==>
              s == SaidaCarga(EstadoCarga(Some(t.obrigatorio), e.buscando), ResultadoCarga([], None), None, None)
    ensures !IsBlank(numeroCarga) ==> s.pedido == Some(Trim(numeroCarga)) && !s.estado.buscando
    // a load: its rows exactly as received, its reference `Carga <numero_carga>`, an inline error when it has no orders
    ensures !IsBlank(numeroCarga) && resposta.Recebida? && resposta.corpo.Some? ==>
              var c := resposta.corpo.value;
              var dados := if c.oss.Some? then c.oss.value else [];
              && s.resultado == ResultadoCarga(dados, Some("Carga " + IntToString(c.numero_carga)))
              && s.estado.erro == (if dados == [] then Some(t.semOS) else None) && s.aviso == None
    // an empty body fails like a thrown TypeError
    ensures !IsBlank(numeroCarga) && resposta.Recebida? && resposta.corpo.None? ==>
              s.estado.erro == ErroLeituraDeIndefinido("oss").mensagem && s.aviso == s.estado.erro
              && s.resultado == ResultadoCarga([], None)
    ensures !IsBlank(numeroCarga) && resposta.Falhou? ==>
              && s.estado.erro == Some(MensagemErroApi(resposta.erro, t.falha)) && s.aviso == s.estado.erro
              && s.resultado == ResultadoCarga([], None)
    // a reference is returned exactly when a load was received
    ensures s.resultado.referencia.Some? <==> !IsBlank(numeroCarga) && resposta.Recebida? && resposta.corpo.Some?
    // rows are returned only with a reference
    ensures s.resultado.linhas != [] ==> s.resultado.referencia.Some?
  {
    var numero := Trim(numeroCarga);
    if numero == "" then
      SaidaCarga(EstadoCarga(Some(t.obrigatorio), e.buscando), ResultadoCarga([], None), None, None)
    else
      match resposta
      case Recebida(Some(c)) =>
        var dados := if c.oss.Some? then c.oss.value else [];
        var erro := if |dados| == 0 then Some(t.semOS) else None;
        SaidaCarga(EstadoCarga(erro, false), ResultadoCarga(dados, Some("Carga " + IntToString(c.numero_carga))), Some(numero), None)
      case Recebida(None) =>
        var mensagem := MensagemErroApi(ErroLeituraDeIndefinido("oss"), t.falha);
        SaidaCarga(EstadoCarga(Some(mensagem), false), ResultadoCarga([], None), Some(numero), Some(mensagem))
      case Falhou(erro) =>
        var mensagem := MensagemErroApi(erro, t.falha);
        SaidaCarga(EstadoCarga(Some(mensagem), false), ResultadoCarga([], None), Some(numero), Some(mensagem))
  }

  class UseBuscaCarga {
    const textos: TextosCarga
    var erroBuscaCarga: Option<string>
    var buscandoCarga: bool

    predicate Valid()
      reads this
    {
      TextosCargaValidos(textos) && !buscandoCarga
    }

    constructor ()
      ensures Valid() && textos == TEXTOS
      ensures erroBuscaCarga == None
    {
      textos := TEXTOS;
      erroBuscaCarga, buscandoCarga := None, false;
    }

    /** `consultarCarga(numeroCarga)`, with the server's reply to the request it makes. */
    method ConsultarCarga(numeroCarga: string, resposta: Resposta<Option<CargaResposta>>)
      returns (resultado: ResultadoCarga, pedido: Option<string>, aviso: Option<string>)
      requires Valid()
      modifies this
      ensures Valid()
      ensures SaidaCarga(EstadoCarga(erroBuscaCarga, buscandoCarga), resultado, pedido, aviso)
              == ConsultaCarga(textos, old(EstadoCarga(erroBuscaCarga, buscandoCarga)), numeroCarga, resposta)
    {
      var numero := Trim(numeroCarga);
      if numero == "" {
        erroBuscaCarga := Some(textos.obrigatorio);
        return ResultadoCarga([], None), None, None;
      }

      erroBuscaCarga := None;
      buscandoCarga := true;
      pedido, aviso := Some(numero), None;

      var falha: Option<ApiError> := None;
      match resposta {
        case Recebida(None) =>
          falha := Some(ErroLeituraDeIndefinido("oss"));
        case Recebida(Some(c)) =>
          var dados := if c.oss.Some? then c.oss.value else [];
          var referencia := "Carga " + IntToString(c.numero_carga);
          if |dados| == 0 {
            erroBuscaCarga := Some(textos.semOS);
          }
          resultado := ResultadoCarga(dados, Some(referencia));
        case Falhou(erro) =>
          falha := Some(erro);
      }

      if falha.Some? {
        var mensagem := MensagemErroApi(falha.value, textos.falha);
        erroBuscaCarga := Some(mensagem);
        aviso := Some(mensagem);
        resultado := ResultadoCarga([], None);
      }

      buscandoCarga := false;
    }
  }
}
