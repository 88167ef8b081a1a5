/**
 * Model of app/components/hooks/useBuscaPosto.ts. Unlike the other registry
 * lookups it reads the reply only as an array and copies the description as
 * it comes, with no default text.
 */
module BuscaPosto {
  import opened Common
  import opened ApiErrors
  import opened Lookup

  /** The texts of this hook: required-code error, not-found error, failure fallback. */
  datatype TextosPosto = TextosPosto(obrigatorio: string, naoEncontrado: string, falha: string)

  const TEXTOS := TextosPosto(
    "Informe o código do posto.",
    "Posto não encontrado.",
    "Não foi possível consultar o posto.")

  predicate TextosPostoValidos(t: TextosPosto) {
    t.obrigatorio != "" && t.naoEncontrado != "" && t.falha != ""
  }

  /** `resposta?.[0]`: element 0 of an array; an object (which has no property `0`) or no body gives nothing. */
  function PrimeiroDaLista<T>(c: Corpo<T>): Option<T> {
    match c
    case Lista(xs) => if xs == [] then None else Some(xs[0])
    case _ => None
  }

  /** One call of `consultarPosto` from the pending flag `buscando`, for the code typed and the server's reply. */
  function ConsultaPosto(t: TextosPosto, buscando: bool, codigo: string, resposta: Resposta<Corpo<Cadastro>>): (c: Consulta)
    ensures IsBlank(codigo) ==> c == Consulta("", Some(t.obrigatorio), buscando, None, None, None)
    ensures !IsBlank(codigo) ==> c.pedido == Some(Trim(codigo)) && !c.buscando
    // only an array is read: element 0 if there is one
    ensures !IsBlank(codigo) && resposta.Recebida? ==> c.retorno == PrimeiroDaLista(resposta.corpo) && c.aviso == None
    // found: the description is copied as it is, even when empty, and there is no error
    ensures c.retorno.Some? ==> c.descricao == c.retorno.value.descricao && c.erro == None
    ensures !IsBlank(codigo) && resposta.Recebida? && c.retorno == None ==>
              c.descricao == "" && c.erro == Some(t.naoEncontrado)
    ensures !IsBlank(codigo) && resposta.Falhou? ==>
              && c.erro == Some(MensagemErroApi(resposta.erro, t.falha)) && c.aviso == c.erro
              && c.descricao == "" && c.retorno == None
    // never both a description and an error
    ensures !(c.descricao != "" && c.erro.Some?)
  {
    var codigoLimpo := Trim(codigo);
    if codigoLimpo == "" then
      Consulta("", Some(t.obrigatorio), buscando, None, None, None)
    else
      match resposta
      case Recebida(corpo) =>
        var x := PrimeiroDaLista(corpo);
        if x.Some? then Consulta(x.value.descricao, None, false, x, Some(codigoLimpo), None)
        else Consulta("", Some(t.naoEncontrado), false, None, Some(codigoLimpo), None)
      case Falhou(e) =>
        var mensagem := MensagemErroApi(e, t.falha);
        Consulta("", Some(mensagem), false, None, Some(codigoLimpo), Some(mensagem))
  }

  /**
   * A workstation the server returns with an empty description is found and
   * yet leaves both the description and the error empty; a single object
   * instead of an array is "not found".
   */
  lemma PostoSemDescricaoNemErro(t: TextosPosto, codigo: string, p: Cadastro, q: Cadastro)
    requires !IsBlank(codigo) && p.descricao == ""
    ensures var c := ConsultaPosto(t, false, codigo, Recebida(Lista([p])));
            c.retorno == Some(p) && c.descricao == "" && c.erro == None
    ensures ConsultaPosto(t, false, codigo, Recebida(Unico(q))).erro == Some(t.naoEncontrado)
  {
  }

  /** The hook's state: the workstation's description, the inline error and the pending flag. */
  class UseBuscaPosto {
    const textos: TextosPosto
    var descricaoPosto: string
    var erroPosto: Option<string>
    var buscandoPosto: bool

    /** Never both a description and an error, and no request in flight between handlers. */
    predicate Valid()
      reads this
    {
      TextosPostoValidos(textos) && !(descricaoPosto != "" && erroPosto.Some?) && !buscandoPosto
    }

    constructor ()
      ensures Valid() && textos == TEXTOS
      ensures descricaoPosto == "" && erroPosto == None && !buscandoPosto
    {
      textos := TEXTOS;
      descricaoPosto := "";
      erroPosto := None;
      buscandoPosto := false;
    }

    /** `consultarPosto(codigo)`, with the server's reply to the request it makes. */
    method ConsultarPosto(codigo: string, resposta: Resposta<Corpo<Cadastro>>)
      returns (posto: Option<Cadastro>, pedido: Option<string>, aviso: Option<string>)
      requires Valid()
      modifies this
      ensures Valid()
      ensures Consulta(descricaoPosto, erroPosto, buscandoPosto, posto, pedido, aviso)
              == ConsultaPosto(textos, old(buscandoPosto), codigo, resposta)
    {
      var codigoLimpo := Trim(codigo);
      if codigoLimpo == "" {
        erroPosto := Some(textos.obrigatorio);
        descricaoPosto := "";
        return None, None, None;
      }

      erroPosto := None;
      buscandoPosto := true;
      pedido, aviso := Some(codigoLimpo), None;

      match resposta {
        case Recebida(corpo) =>
          var postoEncontrado := PrimeiroDaLista(corpo);
          if postoEncontrado.Some? {
            descricaoPosto := postoEncontrado.value.descricao;
            posto := postoEncontrado;
          } else {
            descricaoPosto := "";
            erroPosto := Some(textos.naoEncontrado);
            posto := None;
          }
        case Falhou(e) =>
          var mensagem := MensagemErroApi(e, textos.falha);
          erroPosto := Some(mensagem);
          aviso := Some(mensagem);
          descricaoPosto := "";
          posto := None;
      }

      buscandoPosto := false;
    }

    /** `limparPosto()`: clears the description and the error. */
    method LimparPosto()
      requires Valid()
      modifies this
      ensures Valid()
      ensures descricaoPosto == "" && erroPosto == None && buscandoPosto == old(buscandoPosto)
    {
      descricaoPosto := "";
      erroPosto := None;
    }
  }
}
