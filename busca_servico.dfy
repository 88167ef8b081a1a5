/** Model of app/components/hooks/useBuscaServico.ts. */
module BuscaServico {
  import opened Common
  import opened ApiErrors
  import opened Lookup

  const TEXTOS := Textos(
    "Informe o código do serviço.",
    "Serviço não encontrado.",
    "Serviço encontrado",
    "Não foi possível consultar o serviço.")

  /** The hook's state: the service description, the inline error and the pending flag. */
  class UseBuscaServico {
    const textos: Textos
    var descricaoServico: string
    var erroServico: Option<string>
    var buscandoServico: bool

    /** Never both a description and an error, and no request in flight between handlers. */
    predicate Valid()
      reads this
    {
      TextosValidos(textos) && !(descricaoServico != "" && erroServico.Some?) && !buscandoServico
    }

    constructor ()
      ensures Valid() && textos == TEXTOS
      ensures descricaoServico == "" && erroServico == None && !buscandoServico
    {
      textos := TEXTOS;
      descricaoServico := "";
      erroServico := None;
      buscandoServico := false;
    }

    /**
     * `consultarServico(codigo)`, with the server's reply to the request it
     * makes. Returns the service found, the code sent (`None`: no request)
     * and the error toast raised.
     */
    method ConsultarServico(codigo: string, resposta: Resposta<Corpo<Cadastro>>)
      returns (servico: Option<Cadastro>, pedido: Option<string>, aviso: Option<string>)
      requires Valid()
      modifies this
      ensures Valid()
      ensures Consulta(descricaoServico, erroServico, buscandoServico, servico, pedido, aviso)
              == ConsultaCadastro(textos, old(buscandoServico), codigo, resposta)
      ensures descricaoServico != "" <==> erroServico == None
    {
      var codigoLimpo := Trim(codigo);
      if codigoLimpo == "" {
        erroServico := Some(textos.obrigatorio);
        descricaoServico := "";
        return None, None, None;
      }

      erroServico := None;
      buscandoServico := true;
      pedido, aviso := Some(codigoLimpo), None;

      match resposta {
        case Recebida(corpo) =>
          var achado := PrimeiroOuUnico(corpo);
          if achado.Some? && Encontrado(achado.value) {
            descricaoServico := if achado.value.descricao != "" then achado.value.descricao else textos.encontrado;
            servico := achado;
          } else {
            descricaoServico := "";
            erroServico := Some(textos.naoEncontrado);
            servico := None;
          }
        case Falhou(e) =>
          var mensagem := MensagemErroApi(e, textos.falha);
          erroServico := Some(mensagem);
          aviso := Some(mensagem);
          descricaoServico := "";
          servico := None;
      }

      buscandoServico := false;
    }

    /** `limparServico()`: clears the description and the error. */
    method LimparServico()
      requires Valid()
      modifies this
      ensures Valid()
      ensures descricaoServico == "" && erroServico == None && buscandoServico == old(buscandoServico)
    {
      descricaoServico := "";
      erroServico := None;
    }
  }
}
