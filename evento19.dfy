/**
 * Model of app/eventos/Evento19.tsx, the "stage result" form: the OS, the
 * service, the operator and the instrument are each looked up by code, the
 * result is typed, and the event is saved with every field trimmed.
 */
module Evento19 {
  import opened Common
  import opened Lookup
  import BO = BuscaOS
  import SV = BuscaServico
  import O = BuscaOperador
  import I = BuscaInstrumento
  import S = SalvarEvento

  /** The texts of the form; `cabecalho` and `separador` frame the validation toast. */
  datatype TextosEvento19 = TextosEvento19(
    osObrigatoria: string, osPesquisar: string,
    servicoObrigatorio: string, servicoPesquisar: string,
    operadorObrigatorio: string, operadorPesquisar: string,
    instrumentoObrigatorio: string, instrumentoPesquisar: string,
    resultadoObrigatorio: string,
    cabecalho: string, separador: string, titulo: string)

  /** The start of the validation toast's header. */
  const INICIO_CABECALHO := "Erro(s) de validação:"

  /** The header and the separator as written: each line break is the two characters `\` and `n`. */
  const SEPARADOR_ESCRITO := "\\n"
  const CABECALHO_ESCRITO := INICIO_CABECALHO + (SEPARADOR_ESCRITO + SEPARADOR_ESCRITO)

  /** The header and the separator with real line breaks. */
  const SEPARADOR_CORRIGIDO := "\n"
  const CABECALHO_CORRIGIDO := INICIO_CABECALHO + (SEPARADOR_CORRIGIDO + SEPARADOR_CORRIGIDO)

  /** The texts as the source writes them: the toast's line breaks are the two characters `\` and `n`. */
  const TEXTOS := TextosEvento19(
    "O número da OS é obrigatório.",
    "É necessário pesquisar e encontrar dados válidos para a OS.",
    "O código do serviço é obrigatório.",
    "É necessário pesquisar e encontrar um serviço válido.",
    "O código do operador é obrigatório.",
    "É necessário pesquisar e encontrar um operador válido.",
    "O código do instrumento é obrigatório.",
    "É necessário pesquisar e encontrar um instrumento válido.",
    "Informe o resultado do serviço.",
    CABECALHO_ESCRITO, SEPARADOR_ESCRITO,
    "Resultado de Etapa")

  /** The same texts with real line breaks in the toast, as the other forms have them. */
  const TEXTOS_CORRIGIDOS := TEXTOS.(cabecalho := CABECALHO_CORRIGIDO, separador := SEPARADOR_CORRIGIDO)

  /** The five fields of the form. */
  datatype Campos19 = Campos19(num_os: string, servico: string, operador: string, instrumento: string, resultado: string)

  const CAMPOS_VAZIOS := Campos19("", "", "", "", "")

  /** What a code lookup shows: the description found and the inline error. */
  datatype Achado = Achado(descricao: string, erro: Option<string>)

  /** What the four lookups hold when the form is saved. */
  datatype Buscas19 = Buscas19(osInfo: Option<BO.OrdemBusca>, servico: Achado, operador: Achado, instrumento: Achado)

  // ---------------------------------------------------------------- validation

  /** The OS group: required, then an order found by a lookup. */
  function ErroOS(t: TextosEvento19, num_os: string, osInfo: Option<BO.OrdemBusca>): (r: Option<string>)
    ensures r == None <==> !IsBlank(num_os) && osInfo.Some?
    ensures IsBlank(num_os) ==> r == Some(t.osObrigatoria)
    ensures !IsBlank(num_os) && osInfo.None? ==> r == Some(t.osPesquisar)
  {
    if Trim(num_os) == "" then Some(t.osObrigatoria)
    else if osInfo.None? then Some(t.osPesquisar)
    else None
  }

  /** The service, operator and instrument groups: required, then a description found and no error shown. */
  function ErroCadastro(obrigatorio: string, pesquisar: string, codigo: string, a: Achado): (r: Option<string>)
    ensures r == None <==> !IsBlank(codigo) && a.descricao != "" && a.erro.None?
    ensures IsBlank(codigo) ==> r == Some(obrigatorio)
    ensures !IsBlank(codigo) && (a.descricao == "" || a.erro.Some?) ==> r == Some(pesquisar)
  {
    if Trim(codigo) == "" then Some(obrigatorio)
    else if a.descricao == "" || a.erro.Some? then Some(pesquisar)
    else None
  }

  /** The result group: required. */
  function ErroResultado(t: TextosEvento19, resultado: string): (r: Option<string>)
    ensures r == None <==> !IsBlank(resultado)
    ensures r.Some? ==> r.value == t.resultadoObrigatorio
  {
    if Trim(resultado) == "" then Some(t.resultadoObrigatorio) else None
  }

  function ComoLista(o: Option<string>): seq<string> {
    if o.Some? then [o.value] else []
  }

  /** Every error `handleSalvar` reports: the five groups are checked independently, in the order of the fields. */
  function Erros19(t: TextosEvento19, c: Campos19, b: Buscas19): (erros: seq<string>)
    ensures |erros| <= 5
    // nothing is reported exactly when every field is filled and each lookup found something without an error
    ensures erros == [] <==>
              && !IsBlank(c.num_os) && b.osInfo.Some?
              && !IsBlank(c.servico) && b.servico.descricao != "" && b.servico.erro.None?
              && !IsBlank(c.operador) && b.operador.descricao != "" && b.operador.erro.None?
              && !IsBlank(c.instrumento) && b.instrumento.descricao != "" && b.instrumento.erro.None?
              && !IsBlank(c.resultado)
    // a blank result is always reported, last
    ensures IsBlank(c.resultado) ==> erros != [] && erros[|erros| - 1] == t.resultadoObrigatorio
  {
    ComoLista(ErroOS(t, c.num_os, b.osInfo))
    + ComoLista(ErroCadastro(t.servicoObrigatorio, t.servicoPesquisar, c.servico, b.servico))
    + ComoLista(ErroCadastro(t.operadorObrigatorio, t.operadorPesquisar, c.operador, b.operador))
    + ComoLista(ErroCadastro(t.instrumentoObrigatorio, t.instrumentoPesquisar, c.instrumento, b.instrumento))
    + ComoLista(ErroResultado(t, c.resultado))
  }

  /** The validation toast: the header, then the errors joined by the separator. */
  function Aviso(cabecalho: string, separador: string, erros: seq<string>): string {
    cabecalho + Join(erros, separador)
  }

  /** Where the toast's line breaks come from: the header, the messages, and each separator. */
  lemma OcorrenciasAviso(cabecalho: string, separador: string, erros: seq<string>, c: char)
    requires erros != []
    ensures Ocorrencias(Aviso(cabecalho, separador, erros), c)
            == Ocorrencias(cabecalho, c) + OcorrenciasNosElementos(erros, c) + (|erros| - 1) * Ocorrencias(separador, c)
  {
    OcorrenciasJoin(erros, separador, c);
    OcorrenciasConcat(cabecalho, Join(erros, separador), c);
  }

  /** The header and the separator as written hold no line break. */
  lemma EscritoSemQuebra()
    ensures Ocorrencias(CABECALHO_ESCRITO, '\n') == 0 && Ocorrencias(SEPARADOR_ESCRITO, '\n') == 0
  {
    OcorrenciasAusente(CABECALHO_ESCRITO, '\n');
    OcorrenciasAusente(SEPARADOR_ESCRITO, '\n');
  }

  /** The corrected header ends in two line breaks; the corrected separator is one. */
  lemma CorrigidoComQuebras()
    ensures Ocorrencias(CABECALHO_CORRIGIDO, '\n') == 2 && Ocorrencias(SEPARADOR_CORRIGIDO, '\n') == 1
  {
    assert Ocorrencias(SEPARADOR_CORRIGIDO, '\n') == 1 by {
      assert SEPARADOR_CORRIGIDO[1..] == [];
    }
    OcorrenciasConcat(SEPARADOR_CORRIGIDO, SEPARADOR_CORRIGIDO, '\n');
    OcorrenciasAusente(INICIO_CABECALHO, '\n');
    OcorrenciasConcat(INICIO_CABECALHO, SEPARADOR_CORRIGIDO + SEPARADOR_CORRIGIDO, '\n');
  }

  /**
   * As written, the toast gains no line break from its header or its
   * separators: the only line breaks in it are those inside the messages,
   * so the header and every error share one line, with the characters `\`
   * and `n` between them.
   */
  lemma {:induction false} AvisoNumaSoLinha(erros: seq<string>)
    requires erros != []
    ensures Ocorrencias(Aviso(CABECALHO_ESCRITO, SEPARADOR_ESCRITO, erros), '\n') == OcorrenciasNosElementos(erros, '\n')
  {
    EscritoSemQuebra();
    OcorrenciasAviso(CABECALHO_ESCRITO, SEPARADOR_ESCRITO, erros, '\n');
  }

  /**
   * With real line breaks, a blank line follows the header and each error
   * starts a line of its own: the toast holds one more line break than there
   * are errors, besides those inside the messages.
   */
  lemma {:induction false} AvisoUmaLinhaPorErro(erros: seq<string>)
    requires erros != []
    ensures Ocorrencias(Aviso(TEXTOS_CORRIGIDOS.cabecalho, TEXTOS_CORRIGIDOS.separador, erros), '\n')
            == OcorrenciasNosElementos(erros, '\n') + |erros| + 1
  {
    CorrigidoComQuebras();
    OcorrenciasAviso(CABECALHO_CORRIGIDO, SEPARADOR_CORRIGIDO, erros, '\n');
  }

  // ---------------------------------------------------------------- saving

  /** The payload: every field trimmed, and `tipo_lcto` 19. */
  function Payload19(c: Campos19): S.Payload {
    map["numero_os" := Trim(c.num_os), "codigo_servico" := Trim(c.servico), "codigo_pessoa" := Trim(c.operador),
        "codigo_instrumento" := Trim(c.instrumento), "resultado" := Trim(c.resultado), "tipo_lcto" := "19"]
  }

  /** What is posted: exactly the six properties, the five fields trimmed, `tipo_lcto` 19, and never a custom time. */
  lemma PayloadEvento19(c: Campos19)
    ensures var p := Payload19(c);
            && p.Keys == {"numero_os", "codigo_servico", "codigo_pessoa", "codigo_instrumento", "resultado", "tipo_lcto"}
            && p["numero_os"] == Trim(c.num_os) && p["codigo_servico"] == Trim(c.servico)
            && p["codigo_pessoa"] == Trim(c.operador) && p["codigo_instrumento"] == Trim(c.instrumento)
            && p["resultado"] == Trim(c.resultado) && p["tipo_lcto"] == "19"
            && S.Mesclar(p, None) == p
  {
  }

  /**
   * No field is sent with blanks at either end, and once validation has
   * passed no property is sent empty.
   */
  lemma {:induction false} CamposEnviadosLimpos(t: TextosEvento19, c: Campos19, b: Buscas19)
    ensures var p := Payload19(c);
            forall k :: k in p && k != "tipo_lcto" ==> Trim(p[k]) == p[k]
    ensures var p := Payload19(c);
            Erros19(t, c, b) == [] ==> forall k :: k in p ==> p[k] != ""
  {
    TrimIdempotent(c.num_os);
    TrimIdempotent(c.servico);
    TrimIdempotent(c.operador);
    TrimIdempotent(c.instrumento);
    TrimIdempotent(c.resultado);
  }

  // ---------------------------------------------------------------- the reference label

  /** The render-time initialisation: with an OS handed over and no reference yet, the reference becomes `OS <numero>`. */
  function ReferenciaInicial(referencia: Option<string>, osSelecionada: Option<string>): (r: Option<string>)
    ensures osSelecionada.Some? && referencia.None? ==> r == Some("OS " + osSelecionada.value)
    ensures osSelecionada.None? || referencia.Some? ==> r == referencia
    // a reference once shown is never replaced
    ensures referencia.Some? ==> r == referencia
  {
    if osSelecionada.Some? && referencia.None? then Some("OS " + osSelecionada.value) else referencia
  }

  /** The form re-renders freely: initialising twice is initialising once. */
  lemma ReferenciaInicialIdempotente(referencia: Option<string>, osSelecionada: Option<string>)
    ensures ReferenciaInicial(ReferenciaInicial(referencia, osSelecionada), osSelecionada)
            == ReferenciaInicial(referencia, osSelecionada)
  {
  }

  // ---------------------------------------------------------------- the component

  /** The form: its five fields and the hooks it uses. */
  class Evento19 {
    const textos: TextosEvento19
    const buscaOS: BO.UseBuscaOS
    const buscaServico: SV.UseBuscaServico
    const buscaOperador: O.UseBuscaOperador
    const buscaInstrumento: I.UseBuscaInstrumento
    const salvar: S.UseSalvarEvento
    var num_os: string
    var servico: string
    var operador: string
    var instrumento: string
    var resultado: string

    function Campos(): Campos19
      reads this
    {
      Campos19(num_os, servico, operador, instrumento, resultado)
    }

    /** What the four lookups show. */
    function Buscas(): Buscas19
      reads buscaOS, buscaServico, buscaOperador, buscaInstrumento
    {
      Buscas19(buscaOS.osInfo, Achado(buscaServico.descricaoServico, buscaServico.erroServico),
               Achado(buscaOperador.nomeOperador, buscaOperador.erroOperador),
               Achado(buscaInstrumento.descricaoInstrumento, buscaInstrumento.erroInstrumento))
    }

    /** The form uses the texts as written, and every hook is in its resting state. */
    predicate Valid()
      reads this, buscaOS, buscaServico, buscaOperador, buscaInstrumento, salvar
    {
      textos == TEXTOS && buscaOS.Valid() && buscaServico.Valid() && buscaOperador.Valid() && buscaInstrumento.Valid() && salvar.Valid()
    }

    /** The form as it mounts: the OS number handed over by the page, if any, and its reference label. */
    constructor (osSelecionada: Option<string>)
      ensures Valid() && textos == TEXTOS
      ensures fresh(buscaOS) && fresh(buscaServico) && fresh(buscaOperador) && fresh(buscaInstrumento) && fresh(salvar)
      ensures Campos() == CAMPOS_VAZIOS.(num_os := if osSelecionada.Some? then osSelecionada.value else "")
      ensures buscaOS.Estado() == BO.EstadoOS(None, ReferenciaInicial(None, osSelecionada), None, false)
      ensures Buscas() == Buscas19(None, Achado("", None), Achado("", None), Achado("", None))
    {
      textos := TEXTOS;
      buscaOS := new BO.UseBuscaOS();
      buscaServico := new SV.UseBuscaServico();
      buscaOperador := new O.UseBuscaOperador();
      buscaInstrumento := new I.UseBuscaInstrumento();
      salvar := new S.UseSalvarEvento();
      num_os := if osSelecionada.Some? then osSelecionada.value else "";
      servico, operador, instrumento, resultado := "", "", "", "";
      new;
      InicializarReferencia(osSelecionada);
    }

    /** The check made on every render: set the reference `OS <numero>` once, when an OS was handed over. */
    method InicializarReferencia(osSelecionada: Option<string>)
      requires buscaOS.Valid()
      modifies buscaOS
      ensures buscaOS.Valid()
      ensures buscaOS.Estado() == old(buscaOS.Estado()).(referencia := ReferenciaInicial(old(buscaOS.referencia), osSelecionada))
    {
      if osSelecionada.Some? && buscaOS.referencia.None? {
        buscaOS.SetReferencia(Some("OS " + osSelecionada.value));
      }
    }

    /** The inputs' `onChange`: each replaces its own field with what was typed. */
    method AlterarCampos(novos: Campos19)
      modifies this
      ensures Campos() == novos
    {
      num_os, servico, operador, instrumento, resultado := novos.num_os, novos.servico, novos.operador, novos.instrumento, novos.resultado;
    }

    /** `handleConsultarOS()`: the OS lookup on the number as typed (the hook trims it). */
    method HandleConsultarOS(resposta: Resposta<Corpo<BO.OrdemBusca>>)
      returns (retorno: Option<BO.OrdemBusca>, pedido: Option<string>, aviso: Option<string>)
      requires Valid()
      modifies buscaOS
      ensures Valid()
      ensures BO.SaidaOS(buscaOS.Estado(), retorno, pedido, aviso) == BO.ConsultaOS(buscaOS.textos, old(buscaOS.Estado()), num_os, resposta)
    {
      retorno, pedido, aviso := buscaOS.ConsultarOS(num_os, resposta);
    }

    /** `handleConsultarServico()`: the service lookup on the code as typed. */
    method HandleConsultarServico(resposta: Resposta<Corpo<Cadastro>>)
      returns (achado: Option<Cadastro>, pedido: Option<string>, aviso: Option<string>)
      requires Valid()
      modifies buscaServico
      ensures Valid()
      ensures Consulta(buscaServico.descricaoServico, buscaServico.erroServico, buscaServico.buscandoServico, achado, pedido, aviso)
              == ConsultaCadastro(buscaServico.textos, old(buscaServico.buscandoServico), servico, resposta)
    {
      achado, pedido, aviso := buscaServico.ConsultarServico(servico, resposta);
    }

    /** `handleConsultarOperador()`: the operator lookup on the code as typed. */
    method HandleConsultarOperador(resposta: Resposta<Corpo<Cadastro>>)
      returns (achado: Option<Cadastro>, pedido: Option<string>, aviso: Option<string>)
      requires Valid()
      modifies buscaOperador
      ensures Valid()
      ensures Consulta(buscaOperador.nomeOperador, buscaOperador.erroOperador, buscaOperador.buscandoOperador, achado, pedido, aviso)
              == ConsultaCadastro(buscaOperador.textos, old(buscaOperador.buscandoOperador), operador, resposta)
    {
      achado, pedido, aviso := buscaOperador.ConsultarOperador(operador, resposta);
    }

    /** `handleConsultarInstrumento()`: the instrument lookup on the code as typed. */
    method HandleConsultarInstrumento(resposta: Resposta<Corpo<Cadastro>>)
      returns (achado: Option<Cadastro>, pedido: Option<string>, aviso: Option<string>)
      requires Valid()
      modifies buscaInstrumento
      ensures Valid()
      ensures Consulta(buscaInstrumento.descricaoInstrumento, buscaInstrumento.erroInstrumento, buscaInstrumento.buscandoInstrumento, achado, pedido, aviso)
              == ConsultaCadastro(buscaInstrumento.textos, old(buscaInstrumento.buscandoInstrumento), instrumento, resposta)
    {
      achado, pedido, aviso := buscaInstrumento.ConsultarInstrumento(instrumento, resposta);
    }

    /** The checks at the start of `handleSalvar()`: every error found, one per failing group. */
    method Validar() returns (erros: seq<string>)
      ensures erros == Erros19(textos, Campos(), Buscas())
    {
      erros := [];

      if Trim(num_os) == "" {
        erros := erros + [textos.osObrigatoria];
      } else if buscaOS.osInfo.None? {
        erros := erros + [textos.osPesquisar];
      }
      assert erros == ComoLista(ErroOS(textos, num_os, buscaOS.osInfo));

      erros := erros + ComoLista(ErroCadastro(textos.servicoObrigatorio, textos.servicoPesquisar, servico,
                                              Achado(buscaServico.descricaoServico, buscaServico.erroServico)));
      erros := erros + ComoLista(ErroCadastro(textos.operadorObrigatorio, textos.operadorPesquisar, operador,
                                              Achado(buscaOperador.nomeOperador, buscaOperador.erroOperador)));
      erros := erros + ComoLista(ErroCadastro(textos.instrumentoObrigatorio, textos.instrumentoPesquisar, instrumento,
                                              Achado(buscaInstrumento.descricaoInstrumento, buscaInstrumento.erroInstrumento)));
      ghost var ate := erros;

      if Trim(resultado) == "" {
        erros := erros + [textos.resultadoObrigatorio];
      }
      assert erros == ate + ComoLista(ErroResultado(textos, resultado));
    }

    /**
     * `handleSalvar()`, with the outcome of the POST it makes when the form
     * is valid. Returns the validation toast, or what the save did.
     */
    method HandleSalvar(resposta: Resposta<Option<S.RetornoSalvar>>)
      returns (avisoValidacao: Option<string>, salvamento: Option<S.Salvamento>)
      requires Valid()
      modifies salvar
      ensures Valid()
      ensures var erros := Erros19(textos, Campos(), Buscas());
              && (erros != [] ==> avisoValidacao == Some(Aviso(textos.cabecalho, textos.separador, erros)) && salvamento == None)
              // a valid form posts the trimmed fields, with no custom time
              && (erros == [] ==>
                    avisoValidacao == None && salvamento == Some(S.Salvar(salvar.textos, Payload19(Campos()), textos.titulo, None, resposta)))
      // the toast as written: no line break besides those inside the messages, so everything shows on one line
      ensures avisoValidacao.Some? ==>
                Ocorrencias(avisoValidacao.value, '\n') == OcorrenciasNosElementos(Erros19(textos, Campos(), Buscas()), '\n')
    {
      var erros := Validar();
      if |erros| > 0 {
        AvisoNumaSoLinha(erros);
        return Some(textos.cabecalho + Join(erros, textos.separador)), None;
      }

      var payload := Payload19(Campos());
      var ok, enviado, avisoSucesso, avisoErro := salvar.SalvarEvento(payload, textos.titulo, None, resposta);
      return None, Some(S.Salvamento(enviado, ok, avisoSucesso, avisoErro));
    }

    /** `handleCancelar()`: empties the five fields; what the lookups show is kept (the redirect home is not modelled). */
    method HandleCancelar()
      modifies this
      ensures Campos() == CAMPOS_VAZIOS
    {
      num_os, servico, operador, instrumento, resultado := "", "", "", "", "";
    }
  }
}
