/**
 * Model of app/components/hooks/useBuscaServicosInspecao.ts: the list of
 * inspection services of an OS, and the one the operator picks from it.
 */
module BuscaServicosInspecao {
  import opened Common
  import opened ApiErrors
  import opened Lookup

  datatype ServicoInspecao = ServicoInspecao(
    sequencial_servico: int, tipo_servico: string, descricao_servico: string,
    codigo_processo: int, descricao_processo: string, unidade_medida: string, programar: string)

  /** The texts of this hook: required number, nothing found, failure fallback, prefix of the failure toast. */
  datatype TextosServicos = TextosServicos(obrigatorio: string, nenhum: string, falha: string, prefixoAviso: string)

  const TEXTOS := TextosServicos(
    "Número da OS é obrigatório",
    "Nenhum serviço de inspeção encontrado para esta OS",
    "Erro ao buscar serviços de inspeção",
    "Erro ao buscar:\n")

  predicate TextosServicosValidos(t: TextosServicos) {
    t.obrigatorio != "" && t.nenhum != "" && t.falha != ""
  }

  /** `OS ${numeroOS} - ${n} serviço(s) encontrado(s)`, with the number as it was typed. */
  function ReferenciaServicos(numeroOS: string, n: nat): string {
    "OS " + numeroOS + " - " + NatToString(n) + " serviço(s) encontrado(s)"
  }

  /** A list is only ever kept when it has at least one service. */
  predicate ListaNaoVazia(servicos: Option<seq<ServicoInspecao>>) {
    servicos.Some? ==> servicos.value != []
  }

  /** The hook's state: the services found, the one selected, the reference label, the inline error and the pending flag. */
  datatype EstadoServicos = EstadoServicos(
    servicos: Option<seq<ServicoInspecao>>, selecionado: Option<ServicoInspecao>,
    referencia: Option<string>, erro: Option<string>, buscando: bool)

  /** The state after `consultarServicos`, its boolean result, the number sent (`None`: no request) and the toast raised. */
  datatype SaidaServicos = SaidaServicos(estado: EstadoServicos, achou: bool, pedido: Option<string>, aviso: Option<string>)

  /** One call of `consultarServicos` from state `e`, for the number typed and the server's reply. */
  function ConsultaServicos(t: TextosServicos, e: EstadoServicos, numeroOS: string, resposta: Resposta<Corpo<ServicoInspecao>>): (s: SaidaServicos)
    // blank: only the "required" error changes; the list and the selection are kept
    ensures IsBlank(numeroOS) ==> s == SaidaServicos(e.(erro := Some(t.obrigatorio)), false, None, None)
    // otherwise the number goes into the query as typed, and the selection is dropped
    ensures !IsBlank(numeroOS) ==> s.pedido == Some(numeroOS) && !s.estado.buscando && s.estado.selecionado == None
    // a non-empty array is kept, labelled with its length, and the call answers true
    ensures !IsBlank(numeroOS) && resposta.Recebida? && resposta.corpo.Lista? && resposta.corpo.itens != [] ==>
              var xs := resposta.corpo.itens;
              && s.estado.servicos == Some(xs) && s.estado.referencia == Some(ReferenciaServicos(numeroOS, |xs|))
              && s.estado.erro == None && s.achou && s.aviso == None
    // any other reply (no body, one object, an empty array) is "nothing found"
    ensures !IsBlank(numeroOS) && resposta.Recebida? && !(resposta.corpo.Lista? && resposta.corpo.itens != []) ==>
              && s.estado.servicos == None && s.estado.referencia == None
              && s.estado.erro == Some(t.nenhum) && !s.achou && s.aviso == None
    // a failure shows the normalised message and raises it after a fixed prefix
    ensures !IsBlank(numeroOS) && resposta.Falhou? ==>
              var mensagem := MensagemErroApi(resposta.erro, t.falha);
              && s.estado.servicos == None && s.estado.referencia == None
              && s.estado.erro == Some(mensagem) && !s.achou && s.aviso == Some(t.prefixoAviso + mensagem)
    // the answer is true exactly when a (non-empty) list ends up kept, and then it is labelled
    ensures !IsBlank(numeroOS) ==> (s.achou <==> s.estado.servicos.Some?) && (s.achou <==> s.estado.referencia.Some?)
    ensures s.achou ==> s.estado.servicos.Some? && s.estado.erro == None
    ensures ListaNaoVazia(e.servicos) ==> ListaNaoVazia(s.estado.servicos)
  {
    if Trim(numeroOS) == "" then
      SaidaServicos(e.(erro := Some(t.obrigatorio)), false, None, None)
    else
      match resposta
      case Recebida(Lista(xs)) =>
        if |xs| > 0 then
          SaidaServicos(EstadoServicos(Some(xs), None, Some(ReferenciaServicos(numeroOS, |xs|)), None, false), true, Some(numeroOS), None)
        else
          SaidaServicos(EstadoServicos(None, None, None, Some(t.nenhum), false), false, Some(numeroOS), None)
      case Recebida(_) =>
        SaidaServicos(EstadoServicos(None, None, None, Some(t.nenhum), false), false, Some(numeroOS), None)
      case Falhou(erro) =>
        var mensagem := MensagemErroApi(erro, t.falha);
        SaidaServicos(EstadoServicos(None, None, None, Some(mensagem), false), false, Some(numeroOS), Some(t.prefixoAviso + mensagem))
  }

  /** The reference label starts with the number as typed and tells how many services were found. */
  lemma {:induction false} ReferenciaContaServicos(numeroOS: string, n: nat)
    ensures var r := ReferenciaServicos(numeroOS, n);
            r[..3 + |numeroOS|] == "OS " + numeroOS
            && r[3 + |numeroOS|..6 + |numeroOS|] == " - "
            && r[6 + |numeroOS|..6 + |numeroOS| + |NatToString(n)|] == NatToString(n)
  {
    var r := ReferenciaServicos(numeroOS, n);
    var d := NatToString(n);
    var fim := " serviço(s) encontrado(s)";
    assert r == "OS " + numeroOS + " - " + d + fim;
    assert r[..3 + |numeroOS|] == "OS " + numeroOS;
    assert r[3 + |numeroOS|..6 + |numeroOS|] == " - ";
    assert r[6 + |numeroOS|..6 + |numeroOS| + |d|] == d;
  }

  class UseBuscaServicosInspecao {
    const textos: TextosServicos
    var servicosInfo: Option<seq<ServicoInspecao>>
    var servicoSelecionado: Option<ServicoInspecao>
    var referencia: Option<string>
    var erroBuscaServicos: Option<string>
    var buscandoServicos: bool

    /** A kept list is never empty, and no request is in flight between handlers. */
    predicate Valid()
      reads this
    {
      TextosServicosValidos(textos) && ListaNaoVazia(servicosInfo) && !buscandoServicos
    }

    function Estado(): EstadoServicos
      reads this
    {
      EstadoServicos(servicosInfo, servicoSelecionado, referencia, erroBuscaServicos, buscandoServicos)
    }

    constructor ()
      ensures Valid() && textos == TEXTOS
      ensures Estado() == EstadoServicos(None, None, None, None, false)
    {
      textos := TEXTOS;
      servicosInfo, servicoSelecionado, referencia, erroBuscaServicos, buscandoServicos := None, None, None, None, false;
    }

    /** `consultarServicos(numeroOS)`, with the server's reply to the request it makes. */
    method ConsultarServicos(numeroOS: string, resposta: Resposta<Corpo<ServicoInspecao>>)
      returns (achou: bool, pedido: Option<string>, aviso: Option<string>)
      requires Valid()
      modifies this
      ensures Valid()
      ensures SaidaServicos(Estado(), achou, pedido, aviso) == ConsultaServicos(textos, old(Estado()), numeroOS, resposta)
    {
      if Trim(numeroOS) == "" {
        erroBuscaServicos := Some(textos.obrigatorio);
        return false, None, None;
      }

      buscandoServicos := true;
      erroBuscaServicos := None;
      servicosInfo := None;
      servicoSelecionado := None;
      pedido, aviso := Some(numeroOS), None;

      match resposta {
        case Recebida(corpo) =>
          if corpo.Lista? && |corpo.itens| > 0 {
            servicosInfo := Some(corpo.itens);
            referencia := Some(ReferenciaServicos(numeroOS, |corpo.itens|));
            achou := true;
          } else {
            erroBuscaServicos := Some(textos.nenhum);
            referencia := None;
            achou := false;
          }
        case Falhou(erro) =>
          var mensagemErro := MensagemErroApi(erro, textos.falha);
          erroBuscaServicos := Some(mensagemErro);
          referencia := None;
          aviso := Some(textos.prefixoAviso + mensagemErro);
          achou := false;
      }

      buscandoServicos := false;
    }

    /** `selecionarServico(servico)`: changes the selection and nothing else. */
    method SelecionarServico(servico: Option<ServicoInspecao>)
      requires Valid()
      modifies this
      ensures Valid()
      ensures Estado() == old(Estado()).(selecionado := servico)
    {
      servicoSelecionado := servico;
    }

    /** `setReferencia(r)`. */
    method SetReferencia(r: Option<string>)
      requires Valid()
      modifies this
      ensures Valid()
      ensures Estado() == old(Estado()).(referencia := r)
    {
      referencia := r;
    }

    /** `limparDados()`: forgets the list, the selection, the reference and the error. */
    method LimparDados()
      requires Valid()
      modifies this
      ensures Valid()
      ensures Estado() == EstadoServicos(None, None, None, None, old(buscandoServicos))
    {
      servicosInfo := None;
      servicoSelecionado := None;
      referencia := None;
      erroBuscaServicos := None;
    }
  }
}
