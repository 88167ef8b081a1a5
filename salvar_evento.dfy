/**
 * Model of app/components/hooks/useSalvarEvento.ts: posting an event, with
 * the optional custom time merged into the payload, and choosing the text
 * of the single toast that reports the outcome.
 */
module SalvarEvento {
  import opened Common
  import opened ApiErrors
  import opened Lookup

  /** An event payload: property name to value; every form in this model sends text values. */
  type Payload = map<string, string>

  /** The body the server answers a successful POST with, when it has one. */
  datatype RetornoSalvar = RetornoSalvar(sucesso: Option<bool>, mensagem: Option<string>)

  /** The texts of this hook: the default error and the suffix of the default success text. */
  datatype TextosSalvar = TextosSalvar(padrao: string, salvo: string)

  const TEXTOS := TextosSalvar("Não foi possível salvar o evento.", " salvo!")

  predicate TextosSalvarValidos(t: TextosSalvar) {
    t.padrao != "" && t.salvo != ""
  }

  const DATA_HORA := "data_hora"

  /** `{...payload, ...(dataHoraCustomizada && {data_hora: dataHoraCustomizada})}`. */
  function Mesclar(payload: Payload, dataHoraCustomizada: Option<string>): (r: Payload)
    // every other property is sent unchanged
    ensures forall k :: k in payload && k != DATA_HORA ==> k in r && r[k] == payload[k]
    ensures forall k :: k in r && k != DATA_HORA ==> k in payload
    // data_hora is added or overwritten exactly when a non-empty custom time is given
    ensures Preenchido(dataHoraCustomizada) ==> DATA_HORA in r && r[DATA_HORA] == dataHoraCustomizada.value
    ensures !Preenchido(dataHoraCustomizada) ==> r == payload
  {
    if Preenchido(dataHoraCustomizada) then payload[DATA_HORA := dataHoraCustomizada.value] else payload
  }

  /** Merging the same custom time twice is merging it once. */
  lemma MesclarIdempotente(payload: Payload, dataHoraCustomizada: Option<string>)
    ensures Mesclar(Mesclar(payload, dataHoraCustomizada), dataHoraCustomizada) == Mesclar(payload, dataHoraCustomizada)
  {
  }

  /**
   * The `errorMessage` the catch block builds before normalising it: the
   * server's `erro`, then its `mensagem` when the error has a `response`;
   * otherwise the error's own `message`, even when empty; otherwise the default.
   */
  function MensagemPadraoErro(t: TextosSalvar, e: ApiError): string {
    match e
    case NaoObjeto => t.padrao
    case Objeto(_, mensagem, resposta) =>
      if resposta.Some? then
        if Preenchido(resposta.value.erro) then resposta.value.erro.value
        else if Preenchido(resposta.value.mensagem) then resposta.value.mensagem.value
        else t.padrao
      else if mensagem.Some? then mensagem.value
      else t.padrao
  }

  /** The text of the error toast: `getApiErrorMessage(error, errorMessage)`. */
  function MensagemErroSalvar(t: TextosSalvar, e: ApiError): (r: string)
    // an error with a non-empty `message` and no allowed status shows that message, whatever the response says
    ensures e.Objeto? && Preenchido(e.mensagem) && !StatusPermitido(e.status) ==> r == e.mensagem.value
    // otherwise, with no usable message: the server's `erro`, then its `mensagem`, then the default
    ensures e.Objeto? && !Preenchido(e.mensagem) && e.resposta.Some? ==>
              r == (if Preenchido(e.resposta.value.erro) then e.resposta.value.erro.value
                    else if Preenchido(e.resposta.value.mensagem) then e.resposta.value.mensagem.value
                    else t.padrao)
    ensures e.NaoObjeto? || (e.Objeto? && e.mensagem.None? && e.resposta.None?) ==> r == t.padrao
    // an allowed status shows the cleaned message, or the server text or default when nothing is left
    ensures e.Objeto? && Preenchido(e.mensagem) && StatusPermitido(e.status) ==>
              var limpa := Trim(RemoverPrefixoHttp(e.mensagem.value));
              limpa != "" ==> r == limpa
    // the toast is empty only for an error object with an empty `message` and no `response`, such as `new Error()`
    ensures TextosSalvarValidos(t) ==>
              (r == "" <==> e.Objeto? && e.resposta.None? && e.mensagem == Some(""))
  {
    MensagemErroApi(e, MensagemPadraoErro(t, e))
  }

  /** What one call of `salvarEvento` does: the payload posted, the answer, and the one toast raised. */
  datatype Salvamento = Salvamento(enviado: Payload, ok: bool, avisoSucesso: Option<string>, avisoErro: Option<string>)

  /**
   * One call of `salvarEvento(payload, titulo, dataHoraCustomizada)`. The
   * reply is the decoded body of a POST that did not throw (`None`: empty
   * body), or the value it threw.
   */
  function Salvar(t: TextosSalvar, payload: Payload, titulo: string, dataHoraCustomizada: Option<string>,
                  resposta: Resposta<Option<RetornoSalvar>>): (s: Salvamento)
    ensures s.enviado == Mesclar(payload, dataHoraCustomizada)
    // any reply that did not throw is a success, whatever `sucesso` says and even with no body
    ensures s.ok <==> resposta.Recebida?
    // exactly one toast: a success toast on success, an error toast otherwise
    ensures s.avisoSucesso.Some? <==> s.ok
    ensures s.avisoErro.Some? <==> !s.ok
    // the success text is the server's message when it has one, else "<titulo> salvo!"
    ensures resposta.Recebida? && resposta.corpo.Some? && Preenchido(resposta.corpo.value.mensagem) ==>
              s.avisoSucesso == resposta.corpo.value.mensagem
    ensures resposta.Recebida? && !(resposta.corpo.Some? && Preenchido(resposta.corpo.value.mensagem)) ==>
              s.avisoSucesso == Some(titulo + t.salvo)
    ensures resposta.Falhou? ==> s.avisoErro == Some(MensagemErroSalvar(t, resposta.erro))
  {
    var enviado := Mesclar(payload, dataHoraCustomizada);
    match resposta
    case Recebida(corpo) =>
      var texto := if corpo.Some? && Preenchido(corpo.value.mensagem) then corpo.value.mensagem.value else titulo + t.salvo;
      Salvamento(enviado, true, Some(texto), None)
    case Falhou(e) =>
      Salvamento(enviado, false, None, Some(MensagemErroSalvar(t, e)))
  }

  /** `new Error()` (an empty `message`, no `response`) raises an empty error toast. */
  lemma ErroSemMensagemAvisoVazio(t: TextosSalvar, payload: Payload, titulo: string, dataHoraCustomizada: Option<string>)
    requires TextosSalvarValidos(t)
    ensures Salvar(t, payload, titulo, dataHoraCustomizada, Falhou(Objeto(None, Some(""), None))).avisoErro == Some("")
  {
  }

  class UseSalvarEvento {
    const textos: TextosSalvar
    var salvando: bool

    /** No save in flight between handlers. */
    predicate Valid()
      reads this
    {
      TextosSalvarValidos(textos) && !salvando
    }

    constructor ()
      ensures Valid() && textos == TEXTOS
    {
      textos := TEXTOS;
      salvando := false;
    }

    /**
     * `salvarEvento(payload, titulo, dataHoraCustomizada)`, with the outcome
     * of the POST it makes. Returns the answer, the payload posted and the
     * success or error toast.
     */
    method SalvarEvento(payload: Payload, titulo: string, dataHoraCustomizada: Option<string>,
                        resposta: Resposta<Option<RetornoSalvar>>)
      returns (ok: bool, enviado: Payload, avisoSucesso: Option<string>, avisoErro: Option<string>)
      requires Valid()
      modifies this
      ensures Valid()
      ensures Salvamento(enviado, ok, avisoSucesso, avisoErro) == Salvar(textos, payload, titulo, dataHoraCustomizada, resposta)
    {
      salvando := true;
      enviado := Mesclar(payload, dataHoraCustomizada);
      avisoSucesso, avisoErro := None, None;

      match resposta {
        case Recebida(corpo) =>
          if corpo.Some? && (corpo.value.sucesso == Some(true) || Preenchido(corpo.value.mensagem)) {
            avisoSucesso := Some(if Preenchido(corpo.value.mensagem) then corpo.value.mensagem.value else titulo + textos.salvo);
          } else {
            avisoSucesso := Some(titulo + textos.salvo);
          }
          ok := true;
        case Falhou(e) =>
          var errorMessage := textos.padrao;
          if e.Objeto? && e.resposta.Some? {
            if Preenchido(e.resposta.value.erro) {
              errorMessage := e.resposta.value.erro.value;
            } else if Preenchido(e.resposta.value.mensagem) {
              errorMessage := e.resposta.value.mensagem.value;
            }
          } else if e.Objeto? && e.mensagem.Some? {
            errorMessage := e.mensagem.value;
          }
          errorMessage := MensagemErroApi(e, errorMessage);
          avisoErro := Some(errorMessage);
          ok := false;
      }

      salvando := false;
    }
  }
}
