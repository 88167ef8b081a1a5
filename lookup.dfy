/**
 * What the lookup hooks have in common: the shape of a reply from the HTTP
 * client, and the outcome of the "search by code" hooks for operators,
 * services and instruments (app/components/hooks/useBuscaOperador.ts,
 * useBuscaServico.ts, useBuscaInstrumento.ts), which differ only in their texts.
 */
module Lookup {
  import opened Common
  import opened ApiErrors

  /** A decoded response body: nothing (empty body or JSON null), one object, or an array. */
  datatype Corpo<+T> = Vazio | Unico(item: T) | Lista(itens: seq<T>)

  /** The outcome of one request: the body it resolved to, or the value it threw. */
  datatype Resposta<+T> = Recebida(corpo: T) | Falhou(erro: ApiError)

  /** A division row of an OS or load listing: `{numero_os?, divisao, quantidade}`. */
  datatype Linha = Linha(numero_os: Option<int>, divisao: int, quantidade: int)

  /** `Array.isArray(r) ? r[0] : r`: element 0 of an array, or the object itself. */
  function PrimeiroOuUnico<T>(c: Corpo<T>): Option<T> {
    match c
    case Vazio => None
    case Unico(x) => Some(x)
    case Lista(xs) => if xs == [] then None else Some(xs[0])
  }

  /**
   * A registry entry as these hooks read it: its code (`codigo_pessoa`,
   * `codigo_servico`, `codigo_instrumento`, `codigo_posto`) and its
   * description (`nome` for an operator, `descricao` otherwise). An absent
   * property is the empty string; the fields the hooks never read are left out.
   */
  datatype Cadastro = Cadastro(codigo: string, descricao: string)

  /** The texts one hook uses: required-code error, not-found error, default description, failure fallback. */
  datatype Textos = Textos(obrigatorio: string, naoEncontrado: string, encontrado: string, falha: string)

  predicate TextosValidos(t: Textos) {
    t.obrigatorio != "" && t.naoEncontrado != "" && t.encontrado != "" && t.falha != ""
  }

  /**
   * The state a lookup hook ends in (description, error, pending flag) and
   * what the call gives back: the entity returned, the code sent to the
   * server (`None` when no request is made) and the error toast raised.
   */
  datatype Consulta = Consulta(
    descricao: string, erro: Option<string>, buscando: bool,
    retorno: Option<Cadastro>, pedido: Option<string>, aviso: Option<string>)

  /** `entidade && (entidade.descricao || entidade.codigo)`. */
  predicate Encontrado(x: Cadastro) {
    x.descricao != "" || x.codigo != ""
  }

  /**
   * One call of `consultarOperador` / `consultarServico` /
   * `consultarInstrumento` with the given texts, starting from the pending
   * flag `buscando`, for the code typed and the server's reply.
   */
  function ConsultaCadastro(t: Textos, buscando: bool, codigo: string, resposta: Resposta<Corpo<Cadastro>>): (c: Consulta)
    // a blank code: "required" error, description cleared, no request, pending flag untouched
    ensures IsBlank(codigo) ==> c == Consulta("", Some(t.obrigatorio), buscando, None, None, None)
    // otherwise the trimmed code is sent and the pending flag ends false
    ensures !IsBlank(codigo) ==> c.pedido == Some(Trim(codigo)) && !c.buscando
    // found: the description (or the default text) is shown and there is no error
    ensures c.retorno.Some? ==>
              && Encontrado(c.retorno.value) && c.erro == None && c.aviso == None
              && c.descricao == (if c.retorno.value.descricao != "" then c.retorno.value.descricao else t.encontrado)
    // a reply is found exactly when its first entity has a code or a description
    ensures !IsBlank(codigo) && resposta.Recebida? ==>
              c.retorno == (var x := PrimeiroOuUnico(resposta.corpo); if x.Some? && Encontrado(x.value) then x else None)
    ensures !IsBlank(codigo) && resposta.Recebida? && c.retorno == None ==>
              c.descricao == "" && c.erro == Some(t.naoEncontrado) && c.aviso == None
    // a failure shows and raises the normalised message once and clears the description
    ensures !IsBlank(codigo) && resposta.Falhou? ==>
              && c.erro == Some(MensagemErroApi(resposta.erro, t.falha)) && c.aviso == c.erro
              && c.descricao == "" && c.retorno == None
    // after every call exactly one of description and error is shown
    ensures TextosValidos(t) ==> (c.descricao != "" <==> c.erro == None)
  {
    var codigoLimpo := Trim(codigo);
    if codigoLimpo == "" then
      Consulta("", Some(t.obrigatorio), buscando, None, None, None)
    else
      match resposta
      case Recebida(corpo) =>
        var x := PrimeiroOuUnico(corpo);
        if x.Some? && Encontrado(x.value) then
          var descricao := if x.value.descricao != "" then x.value.descricao else t.encontrado;
          Consulta(descricao, None, false, x, Some(codigoLimpo), None)
        else
          Consulta("", Some(t.naoEncontrado), false, None, Some(codigoLimpo), None)
      case Falhou(e) =>
        var mensagem := MensagemErroApi(e, t.falha);
        Consulta("", Some(mensagem), false, None, Some(codigoLimpo), Some(mensagem))
  }

  /** Only element 0 of an array counts, and an empty array is the same as an empty body. */
  lemma ListaComoPrimeiro(t: Textos, buscando: bool, codigo: string, xs: seq<Cadastro>)
    ensures xs == [] ==>
              ConsultaCadastro(t, buscando, codigo, Recebida(Lista(xs))) == ConsultaCadastro(t, buscando, codigo, Recebida(Vazio))
    ensures xs != [] ==>
              ConsultaCadastro(t, buscando, codigo, Recebida(Lista(xs))) == ConsultaCadastro(t, buscando, codigo, Recebida(Unico(xs[0])))
  {
  }
}
