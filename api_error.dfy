/**
 * Model of app/components/hooks/useApiError.ts: turning whatever a failed
 * request threw into the text shown to the operator.
 */
module ApiErrors {
  import opened Common

  /** The `data` of an HTTP-client error that carries a `response` (`response.data.erro` / `.mensagem`). */
  datatype DadosResposta = DadosResposta(erro: Option<string>, mensagem: Option<string>)

  /**
   * A thrown value. `NaoObjeto` is anything that is not an object (null,
   * undefined, a string, a number). An object may carry a numeric `status`, a
   * `message`, and a `response` property; `resposta` is `Some` exactly when the
   * property `response` exists (a present `response` without `data` is
   * `Some(DadosResposta(None, None))`). A `message` property that exists but
   * is empty, as on `new Error()`, is `Some("")`.
   */
  datatype ApiError =
    | NaoObjeto
    | Objeto(status: Option<int>, mensagem: Option<string>, resposta: Option<DadosResposta>)

  /**
   * The `TypeError` a hook throws inside its own `try` when it reads the
   * property `prop` of a reply that is `undefined` (the HTTP client resolves
   * an empty body to `undefined`), with the message text of the V8 engine.
   */
  function ErroLeituraDeIndefinido(prop: string): (e: ApiError)
    ensures e.Objeto? && e.status == None && e.resposta == None && Preenchido(e.mensagem)
  {
    Objeto(None, Some("Cannot read properties of undefined (reading '" + prop + "')"), None)
  }

  /** The statuses whose server message is shown to the operator. */
  predicate StatusPermitido(status: Option<int>) {
    status.Some? && status.value in {400, 402, 404}
  }

  /** Case-insensitive match of the four letters `HTTP` (the `i` flag of the regular expression). */
  predicate PalavraHttp(w: string) {
    |w| == 4 && (w[0] == 'H' || w[0] == 'h') && (w[1] == 'T' || w[1] == 't') && (w[2] == 'T' || w[2] == 't') && (w[3] == 'P' || w[3] == 'p')
  }

  /**
   * What `\s*\d+:\s*` leaves of the text after `HTTP`: the rest after the
   * blanks, the digits, the colon and the blanks that follow, or `None` when
   * the text does not match.
   */
  function AposStatus(a: string): Option<string> {
    var b := TrimStart(a);
    var d := |LeadingDigits(b)|;
    if 0 < d < |b| && b[d] == ':' then Some(TrimStart(b[d + 1..])) else None
  }

  /** The text starts with the four letters `HTTP`, in any case. */
  predicate ComecaComHttp(m: string) {
    |m| >= 4 && PalavraHttp(m[..4])
  }

  /** `message.replace` with the case-insensitive pattern `^HTTP\s*\d+:\s*`: removes a leading `HTTP <digits>:` and the blanks after it. */
  function RemoverPrefixoHttp(m: string): string {
    if ComecaComHttp(m) then
      var resto := AposStatus(m[4..]);
      if resto.Some? then resto.value else m
    else m
  }

  /** A text that does not start with `HTTP` is shown as it is. */
  lemma SemHttpNadaMuda(m: string)
    requires !ComecaComHttp(m)
    ensures RemoverPrefixoHttp(m) == m
  {
  }

  /** A text that starts with `HTTP` but not with `HTTP <digits>:` is shown as it is too. */
  lemma HttpSemStatusNadaMuda(m: string)
    requires ComecaComHttp(m) && AposStatus(m[4..]).None?
    ensures RemoverPrefixoHttp(m) == m
  {
  }

  /**
   * The error the HTTP client throws for a non-2xx reply, `HTTP error! status: <n>`
   * (app/services/api.ts:31), does not match the pattern: the strip leaves it
   * whole, and it is shown as it is whatever the status attached to it.
   */
  lemma {:induction false} ErroDoClienteIntacto(n: nat, status: Option<int>, resposta: Option<DadosResposta>, fallback: string)
    ensures RemoverPrefixoHttp("HTTP error! status: " + NatToString(n)) == "HTTP error! status: " + NatToString(n)
    ensures MensagemErroApi(Objeto(status, Some("HTTP error! status: " + NatToString(n)), resposta), fallback)
            == "HTTP error! status: " + NatToString(n)
  {
    var ds := NatToString(n);
    var m := "HTTP error! status: " + ds;
    assert m[..4] == "HTTP";
    assert m[4..] == [' '] + ("error! status: " + ds);
    assert TrimStart(m[4..]) == "error! status: " + ds;
    assert LeadingDigits("error! status: " + ds) == "";
    HttpSemStatusNadaMuda(m);
    assert !IsWhitespace(m[0]);
    TrimStartSemBranco(m);
    assert m[|m| - 1] == ds[|ds| - 1];
    assert !IsWhitespace(m[|m| - 1]);
  }

  /** A text that starts with a digit string and a colon: the digits lead it, and it has no blank to trim. */
  lemma NumeroComDoisPontos(ds: string, depois: string)
    requires ds != [] && AllDigits(ds)
    ensures var a := ds + [':'] + depois;
            TrimStart(a) == a && LeadingDigits(a) == ds && a[|ds|] == ':' && a[|ds| + 1..] == depois
  {
    var a := ds + [':'] + depois;
    assert a[0] == ds[0] && IsDigit(ds[0]);
    LeadingDigitsOfDigitsThen(ds, ':', depois);
    assert a[|ds| + 1..] == depois;
  }

  /** After `HTTP`: the blanks, the status and the colon are consumed, and then the blanks after them. */
  lemma {:induction false} AposStatusConsome(ws1: string, ds: string, depois: string)
    requires AllWhitespace(ws1) && ds != [] && AllDigits(ds)
    ensures AposStatus(ws1 + (ds + [':'] + depois)) == Some(TrimStart(depois))
  {
    var numero := ds + [':'] + depois;
    TrimStartOfBlankPrefix(ws1, numero);
    NumeroComDoisPontos(ds, depois);
  }

  /** How `w + ws1 + ds + ":" + ws2 + corpo` splits after its first four characters. */
  lemma PartesDoTexto(w: string, ws1: string, ds: string, ws2: string, corpo: string)
    requires |w| == 4
    ensures var m := w + ws1 + ds + ":" + ws2 + corpo;
            m[..4] == w && m[4..] == ws1 + (ds + [':'] + (ws2 + corpo))
  {
    var m := w + ws1 + ds + ":" + ws2 + corpo;
    assert m == w + (ws1 + (ds + [':'] + (ws2 + corpo)));
  }

  /** The prefix is removed whatever the case of `HTTP`, the blanks around the status and the number of digits. */
  lemma {:induction false} PrefixoHttpRemovido(w: string, ws1: string, ds: string, ws2: string, corpo: string)
    requires PalavraHttp(w) && AllWhitespace(ws1) && AllWhitespace(ws2)
    requires ds != [] && AllDigits(ds)
    requires corpo == [] || !IsWhitespace(corpo[0])
    ensures RemoverPrefixoHttp(w + ws1 + ds + ":" + ws2 + corpo) == corpo
  {
    var m := w + ws1 + ds + ":" + ws2 + corpo;
    PartesDoTexto(w, ws1, ds, ws2, corpo);
    assert ComecaComHttp(m);
    AposStatusConsome(ws1, ds, ws2 + corpo);
    assert AposStatus(m[4..]) == Some(TrimStart(ws2 + corpo));
    TrimStartOfBlankPrefix(ws2, corpo);
    TrimStartSemBranco(corpo);
    assert AposStatus(m[4..]) == Some(corpo);
  }

  /**
   * `getApiErrorMessage(error, fallback)`: for an allowed status with a
   * message, the message without its `HTTP nnn:` prefix, trimmed, or the
   * fallback if nothing is left; otherwise any non-empty message verbatim;
   * otherwise the fallback.
   */
  function MensagemErroApi(e: ApiError, fallback: string): (r: string)
    ensures e.NaoObjeto? ==> r == fallback
    ensures e.Objeto? && !Preenchido(e.mensagem) ==> r == fallback
    ensures e.Objeto? && Preenchido(e.mensagem) && !StatusPermitido(e.status) ==> r == e.mensagem.value
    ensures e.Objeto? && Preenchido(e.mensagem) && StatusPermitido(e.status) ==>
              var limpa := Trim(RemoverPrefixoHttp(e.mensagem.value));
              r == if limpa != "" then limpa else fallback
    ensures fallback != "" ==> r != ""
  {
    match e
    case NaoObjeto => fallback
    case Objeto(status, mensagem, _) =>
      if StatusPermitido(status) && Preenchido(mensagem) then
        var limpa := Trim(RemoverPrefixoHttp(mensagem.value));
        if limpa != "" then limpa else fallback
      else if Preenchido(mensagem) then mensagem.value
      else fallback
  }

  lemma LimpezaDoPrefixo(ds: string, texto: string)
    requires ds != [] && AllDigits(ds)
    requires texto != [] && !IsWhitespace(texto[0]) && !IsWhitespace(texto[|texto| - 1])
    ensures Trim(RemoverPrefixoHttp("HTTP " + ds + ": " + texto)) == texto
  {
    assert "HTTP " + ds + ": " + texto == "HTTP" + " " + ds + ":" + " " + texto;
    PrefixoHttpRemovido("HTTP", " ", ds, " ", texto);
    assert TrimStart(texto) == texto;
  }

  /** A 404 whose message is `HTTP 404: <texto>` shows `<texto>`, not the fallback. */
  lemma MensagemServidorSemPrefixo(status: int, ds: string, texto: string, resposta: Option<DadosResposta>, fallback: string)
    requires status in {400, 402, 404}
    requires ds != [] && AllDigits(ds)
    requires texto != [] && !IsWhitespace(texto[0]) && !IsWhitespace(texto[|texto| - 1])
    ensures MensagemErroApi(Objeto(Some(status), Some("HTTP " + ds + ": " + texto), resposta), fallback) == texto
  {
    var m := "HTTP " + ds + ": " + texto;
    LimpezaDoPrefixo(ds, texto);
    assert Preenchido(Some(m)) by { assert m[0] == 'H'; }
    assert StatusPermitido(Some(status));
  }
}
