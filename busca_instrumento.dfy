/** Model of app/components/hooks/useBuscaInstrumento.ts. */
module BuscaInstrumento {
  import opened Common
  import opened ApiErrors
  import opened Lookup

  const TEXTOS := Textos(
    "Informe o código do instrumento.",
    "Instrumento não encontrado.",
    "Instrumento encontrado",
    "Não foi possível consultar o instrumento.")

  /** The hook's state: the instrument description, the inline error and the pending flag. */
  class UseBuscaInstrumento {
    const textos: Textos
    var descricaoInstrumento: string
    var erroInstrumento: Option<string>
    var buscandoInstrumento: bool

    /** Never both a description and an error, and no request in flight between handlers. */
    predicate Valid()
      reads this
    {
      TextosValidos(textos) && !(descricaoInstrumento != "" && erroInstrumento.Some?) && !buscandoInstrumento
    }

    constructor ()
      ensures Valid() && textos == TEXTOS
      ensures descricaoInstrumento == "" && erroInstrumento == None && !buscandoInstrumento
    {
      textos := TEXTOS;
      descricaoInstrumento := "";
      erroInstrumento := None;
      buscandoInstrumento := false;
    }

    /**
     * `consultarInstrumento(codigo)`, with the server's reply to the request it
     * makes. Returns the instrument found, the code sent (`None`: no request)
     * and the error toast raised.
     */
    method ConsultarInstrumento(codigo: string, resposta: Resposta<Corpo<Cadastro>>)
      returns (instrumento: Option<Cadastro>, pedido: Option<string>, aviso: Option<string>)
      requires Valid()
      modifies this
      ensures Valid()
      ensures Consulta(descricaoInstrumento, erroInstrumento, buscandoInstrumento, instrumento, pedido, aviso)
              == ConsultaCadastro(textos, old(buscandoInstrumento), codigo, resposta)
      ensures descricaoInstrumento != "" <==> erroInstrumento == None
    {
      var codigoLimpo := Trim(codigo);
      if codigoLimpo == "" {
        erroInstrumento := Some(textos.obrigatorio);
        descricaoInstrumento := "";
        return None, None, None;
      }

      erroInstrumento := None;
      buscandoInstrumento := true;
      pedido, aviso := Some(codigoLimpo), None;

      match resposta {
        case Recebida(corpo) =>
          var achado := PrimeiroOuUnico(corpo);
          if achado.Some? && Encontrado(achado.value) {
            descricaoInstrumento := if achado.value.descricao != "" then achado.value.descricao else textos.encontrado;
            instrumento := achado;
          } else {
            descricaoInstrumento := "";
            erroInstrumento := Some(textos.naoEncontrado);
            instrumento := None;
          }
        case Falhou(e) =>
          var mensagem := MensagemErroApi(e, textos.falha);
          erroInstrumento := Some(mensagem);
          aviso := Some(mensagem);
          descricaoInstrumento := "";
          instrumento := None;
      }

      buscandoInstrumento := false;
    }

    /** `limparInstrumento()`: clears the description and the error. */
    method LimparInstrumento()
      requires Valid()
      modifies this
      ensures Valid()
      ensures descricaoInstrumento == "" && erroInstrumento == None && buscandoInstrumento == old(buscandoInstrumento)
    {
      descricaoInstrumento := "";
      erroInstrumento := None;
    }
  }
}
