/** Model of app/components/hooks/useBuscaOperador.ts. */
module BuscaOperador {
  import opened Common
  import opened ApiErrors
  import opened Lookup

  const TEXTOS := Textos(
    "Informe o código do operador.",
    "Operador não encontrado.",
    "Operador encontrado",
    "Não foi possível consultar o operador.")

  /** The hook's state: the operator's name, the inline error and the pending flag. */
  class UseBuscaOperador {
    const textos: Textos
    var nomeOperador: string
    var erroOperador: Option<string>
    var buscandoOperador: bool

    /** Never both a name and an error, and no request in flight between handlers. */
    predicate Valid()
      reads this
    {
      TextosValidos(textos) && !(nomeOperador != "" && erroOperador.Some?) && !buscandoOperador
    }

    constructor ()
      ensures Valid() && textos == TEXTOS
      ensures nomeOperador == "" && erroOperador == None && !buscandoOperador
    {
      textos := TEXTOS;
      nomeOperador := "";
      erroOperador := None;
      buscandoOperador := false;
    }

    /**
     * `consultarOperador(codigo)`, with the server's reply to the request it
     * makes. Returns the operator found, the code sent (`None`: no request)
     * and the error toast raised.
     */
    method ConsultarOperador(codigo: string, resposta: Resposta<Corpo<Cadastro>>)
      returns (operador: Option<Cadastro>, pedido: Option<string>, aviso: Option<string>)
      requires Valid()
      modifies this
      ensures Valid()
      ensures Consulta(nomeOperador, erroOperador, buscandoOperador, operador, pedido, aviso)
              == ConsultaCadastro(textos, old(buscandoOperador), codigo, resposta)
      ensures nomeOperador != "" <==> erroOperador == None
    {
      var codigoLimpo := Trim(codigo);
      if codigoLimpo == "" {
        erroOperador := Some(textos.obrigatorio);
        nomeOperador := "";
        return None, None, None;
      }

      erroOperador := None;
      buscandoOperador := true;
      pedido, aviso := Some(codigoLimpo), None;

      match resposta {
        case Recebida(corpo) =>
          var achado := PrimeiroOuUnico(corpo);
          if achado.Some? && Encontrado(achado.value) {
            nomeOperador := if achado.value.descricao != "" then achado.value.descricao else textos.encontrado;
            operador := achado;
          } else {
            nomeOperador := "";
            erroOperador := Some(textos.naoEncontrado);
            operador := None;
          }
        case Falhou(e) =>
          var mensagem := MensagemErroApi(e, textos.falha);
          erroOperador := Some(mensagem);
          aviso := Some(mensagem);
          nomeOperador := "";
          operador := None;
      }

      buscandoOperador := false;
    }

    /** `limparOperador()`: clears the name and the error. */
    method LimparOperador()
      requires Valid()
      modifies this
      ensures Valid()
      ensures nomeOperador == "" && erroOperador == None && buscandoOperador == old(buscandoOperador)
    {
      nomeOperador := "";
      erroOperador := None;
    }
  }
}
