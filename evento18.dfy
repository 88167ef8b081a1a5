/**
 * Model of app/eventos/Evento18.tsx, the "start of inspection" form: look up
 * the inspection services of an OS, pick one from the list, look up the
 * operator, and save the event.
 */
module Evento18 {
  import opened Common
  import opened Lookup
  import SI = BuscaServicosInspecao
  import O = BuscaOperador
  import S = SalvarEvento

  /** The texts of the form. */
  datatype TextosEvento18 = TextosEvento18(
    informeOS: string, informeOperador: string,
    osObrigatoria: string, osPesquisar: string,
    servicoObrigatorio: string, servicoValido: string,
    operadorObrigatorio: string, operadorPesquisar: string,
    cabecalho: string, titulo: string)

  const TEXTOS := TextosEvento18(
    "Informe o número da OS",
    "Informe o código do operador",
    "O número da OS é obrigatório.",
    "É necessário pesquisar e encontrar serviços válidos para a OS.",
    "O serviço é obrigatório.",
    "É necessário selecionar um serviço válido da lista.",
    "O operador é obrigatório.",
    "É necessário pesquisar e encontrar dados válidos para o operador.",
    "Erro(s) de validação:\n",
    "Início de Inspeção")

  // ---------------------------------------------------------------- the service list

  /** `${sequencial_servico} - ${descricao_servico}`: the option the dropdown shows and hands back. */
  function RotuloServico(x: SI.ServicoInspecao): string {
    IntToString(x.sequencial_servico) + " - " + x.descricao_servico
  }

  /** The position of the first blank of `s`, or `|s|` when there is none. */
  function PrimeiroEspaco(s: string): (k: nat)
    ensures k <= |s|
  {
    if s == [] || s[0] == ' ' then 0 else 1 + PrimeiroEspaco(s[1..])
  }

  lemma {:induction false} PrimeiroEspacoDepois(a: string, resto: string)
    requires ' ' !in a && resto != [] && resto[0] == ' '
    ensures PrimeiroEspaco(a + resto) == |a|
  {
    if a != [] {
      assert a[0] in a;
      assert (a + resto)[1..] == a[1..] + resto;
      assert forall c :: c in a[1..] ==> c in a;
      PrimeiroEspacoDepois(a[1..], resto);
    } else {
      assert a + resto == resto;
    }
  }

  /**
   * A label names one sequential number and one description: the number is
   * printed without blanks, so the first blank of the label ends it.
   */
  lemma {:induction false} RotuloIdentificaServico(x: SI.ServicoInspecao, y: SI.ServicoInspecao)
    requires RotuloServico(x) == RotuloServico(y)
    ensures x.sequencial_servico == y.sequencial_servico && x.descricao_servico == y.descricao_servico
  {
    var a, b := IntToString(x.sequencial_servico), IntToString(y.sequencial_servico);
    var r := RotuloServico(x);
    assert r == a + (" - " + x.descricao_servico) == b + (" - " + y.descricao_servico);
    PrimeiroEspacoDepois(a, " - " + x.descricao_servico);
    PrimeiroEspacoDepois(b, " - " + y.descricao_servico);
    assert a == r[..|a|] == b;
    IntToStringInjective(x.sequencial_servico, y.sequencial_servico);
    assert x.descricao_servico == r[|a| + 3..] == y.descricao_servico;
  }

  /** `servicosInfo.find(...)` as a position: the first service whose label is `value`. */
  function IndiceServico(servicos: seq<SI.ServicoInspecao>, value: string): (k: Option<nat>)
    ensures k.Some? ==> k.value < |servicos| && RotuloServico(servicos[k.value]) == value
    // it is the first one with that label
    ensures k.Some? ==> forall j :: 0 <= j < k.value ==> RotuloServico(servicos[j]) != value
    // nothing is found exactly when no service has that label
    ensures k.None? ==> forall j :: 0 <= j < |servicos| ==> RotuloServico(servicos[j]) != value
  {
    if servicos == [] then None
    else if RotuloServico(servicos[0]) == value then Some(0)
    else
      var k := IndiceServico(servicos[1..], value);
      if k.Some? then Some(k.value + 1) else None
  }

  /** `servicosInfo.find(s => rotulo(s) === value)`: the first service with that label, if any. */
  function EncontrarServico(servicos: seq<SI.ServicoInspecao>, value: string): (r: Option<SI.ServicoInspecao>)
    ensures r.Some? ==> r.value in servicos && RotuloServico(r.value) == value
    ensures r.None? <==> forall j :: 0 <= j < |servicos| ==> RotuloServico(servicos[j]) != value
  {
    var k := IndiceServico(servicos, value);
    if k.Some? then Some(servicos[k.value]) else None
  }

  /**
   * Any service of the list that carries the label chosen has the sequential
   * number of the service found: a repeated label cannot change the number sent.
   */
  lemma {:induction false} MesmoRotuloMesmoSequencial(servicos: seq<SI.ServicoInspecao>, value: string, i: nat)
    requires i < |servicos| && RotuloServico(servicos[i]) == value
    ensures EncontrarServico(servicos, value).Some?
    ensures EncontrarServico(servicos, value).value.sequencial_servico == servicos[i].sequencial_servico
  {
    RotuloIdentificaServico(EncontrarServico(servicos, value).value, servicos[i]);
  }

  // ---------------------------------------------------------------- the form's state

  /** The form's own state: the three fields, and whether the service and operator fields can be used. */
  datatype Campos18 = Campos18(num_os: string, servico: string, operador: string, servicoHabilitado: bool, operadorHabilitado: bool)

  /**
   * How the form's fields and the service lookup stay in step: the service
   * list can be used only while a list is kept (cancelling disables it and
   * keeps the list), the operator exactly while a service is selected; the
   * service selected is one of the list and its label is the text in the
   * field; no operator code sits in a disabled field.
   */
  predicate Coerente18(c: Campos18, e: SI.EstadoServicos) {
    && (c.servicoHabilitado ==> e.servicos.Some?)
    && (c.operadorHabilitado <==> e.selecionado.Some?)
    && (e.selecionado.Some? ==> e.servicos.Some? && e.selecionado.value in e.servicos.value && RotuloServico(e.selecionado.value) == c.servico)
    && (c.operador != "" ==> c.operadorHabilitado)
  }

  /** The form and the service lookup after `handleConsultarOS`, with the toast raised and the number sent. */
  datatype SaidaConsulta18 = SaidaConsulta18(campos: Campos18, servicos: SI.EstadoServicos, aviso: Option<string>, pedido: Option<string>)

  /**
   * One call of `handleConsultarOS` from the form `c` and the service lookup
   * `e`, for the server's reply (the operator lookup is cleared as well).
   */
  function ConsultaForm18(t: TextosEvento18, ts: SI.TextosServicos, c: Campos18, e: SI.EstadoServicos,
                          resposta: Resposta<Corpo<SI.ServicoInspecao>>): (s: SaidaConsulta18)
    // a blank number only raises a toast
    ensures IsBlank(c.num_os) ==> s == SaidaConsulta18(c, e, Some(t.informeOS), None)
    // otherwise the selection is dropped and the lookup runs on the trimmed number
    ensures !IsBlank(c.num_os) ==>
              var b := SI.ConsultaServicos(ts, e.(selecionado := None), Trim(c.num_os), resposta);
              s.servicos == b.estado && s.aviso == b.aviso && s.pedido == Some(Trim(c.num_os))
    // service and operator are cleared; the list can be used exactly when services were found
    ensures !IsBlank(c.num_os) ==>
              && s.campos.servico == "" && s.campos.operador == "" && !s.campos.operadorHabilitado
              && (s.campos.servicoHabilitado <==> s.servicos.servicos.Some?) && s.servicos.selecionado == None
    // a number that found nothing is erased; one that found services stays as typed
    ensures !IsBlank(c.num_os) ==> s.campos.num_os == (if s.servicos.servicos.Some? then c.num_os else "")
    ensures Coerente18(c, e) ==> Coerente18(s.campos, s.servicos)
  {
    if Trim(c.num_os) == "" then
      SaidaConsulta18(c, e, Some(t.informeOS), None)
    else
      TrimIdempotent(c.num_os);
      var b := SI.ConsultaServicos(ts, e.(selecionado := None), Trim(c.num_os), resposta);
      SaidaConsulta18(Campos18(if b.achou then c.num_os else "", "", "", b.achou, false), b.estado, b.aviso, b.pedido)
  }

  /** `handleServicoChange(value)` on the form `c` and the service lookup `e`: the new fields and lookup state. */
  function EscolhaServico(c: Campos18, e: SI.EstadoServicos, value: string): (r: (Campos18, SI.EstadoServicos))
    // with no list the change is ignored
    ensures e.servicos.None? ==> r == (c, e)
    // otherwise the text is kept, and the service with that label is selected, if there is one
    ensures e.servicos.Some? ==>
              var achado := EncontrarServico(e.servicos.value, value);
              && r.1 == e.(selecionado := achado) && r.0.servico == value
              && r.0.operadorHabilitado == achado.Some?
              && r.0.operador == (if achado.Some? then c.operador else "")
              && r.0.num_os == c.num_os && r.0.servicoHabilitado == c.servicoHabilitado
    ensures Coerente18(c, e) ==> Coerente18(r.0, r.1)
  {
    if e.servicos.None? then (c, e)
    else
      var achado := EncontrarServico(e.servicos.value, value);
      if achado.Some? then
        (c.(servico := value, operadorHabilitado := true), e.(selecionado := achado))
      else
        (c.(servico := value, operador := "", operadorHabilitado := false), e.(selecionado := None))
  }

  // ---------------------------------------------------------------- saving

  /** The OS group of `handleSalvar`: required, then a non-empty service list. */
  function ErroOS(t: TextosEvento18, num_os: string, servicos: Option<seq<SI.ServicoInspecao>>): (r: Option<string>)
    ensures r == None <==> !IsBlank(num_os) && servicos.Some? && servicos.value != []
    ensures IsBlank(num_os) ==> r == Some(t.osObrigatoria)
    ensures !IsBlank(num_os) && (servicos.None? || servicos.value == []) ==> r == Some(t.osPesquisar)
  {
    if Trim(num_os) == "" then Some(t.osObrigatoria)
    else if servicos.None? || |servicos.value| == 0 then Some(t.osPesquisar)
    else None
  }

  /** The service group: required, then selected from the list. */
  function ErroServico(t: TextosEvento18, servico: string, selecionado: Option<SI.ServicoInspecao>): (r: Option<string>)
    ensures r == None <==> !IsBlank(servico) && selecionado.Some?
    ensures IsBlank(servico) ==> r == Some(t.servicoObrigatorio)
    ensures !IsBlank(servico) && selecionado.None? ==> r == Some(t.servicoValido)
  {
    if Trim(servico) == "" then Some(t.servicoObrigatorio)
    else if selecionado.None? then Some(t.servicoValido)
    else None
  }

  /** The operator group: required, then a name found by a lookup. */
  function ErroOperador(t: TextosEvento18, operador: string, nomeOperador: string): (r: Option<string>)
    ensures r == None <==> !IsBlank(operador) && nomeOperador != ""
    ensures IsBlank(operador) ==> r == Some(t.operadorObrigatorio)
    ensures !IsBlank(operador) && nomeOperador == "" ==> r == Some(t.operadorPesquisar)
  {
    if Trim(operador) == "" then Some(t.operadorObrigatorio)
    else if nomeOperador == "" then Some(t.operadorPesquisar)
    else None
  }

  function ComoLista(o: Option<string>): seq<string> {
    if o.Some? then [o.value] else []
  }

  /** Every error `handleSalvar` reports, one per failing group, in the order of the fields. */
  function Erros18(t: TextosEvento18, c: Campos18, e: SI.EstadoServicos, nomeOperador: string): (erros: seq<string>)
    ensures |erros| <= 3
    // nothing is reported exactly when every field is filled and each lookup found something
    ensures erros == [] <==>
              && !IsBlank(c.num_os) && e.servicos.Some? && e.servicos.value != []
              && !IsBlank(c.servico) && e.selecionado.Some?
              && !IsBlank(c.operador) && nomeOperador != ""
  {
    ComoLista(ErroOS(t, c.num_os, e.servicos)) + ComoLista(ErroServico(t, c.servico, e.selecionado))
    + ComoLista(ErroOperador(t, c.operador, nomeOperador))
  }

  /** The payload: event 18, the OS and the operator code as typed, the selected service's sequential number. */
  function Payload18(num_os: string, sequencial: int, operador: string, dataHoraCustomizada: Option<string>): S.Payload {
    S.Mesclar(map["evento" := "18", "numero_os" := num_os, "sequencial_servico" := IntToString(sequencial),
                  "codigo_operador" := operador], dataHoraCustomizada)
  }

  /**
   * What is posted: exactly the event code, the OS as typed, the sequential
   * number of the service selected, the operator code as typed (untrimmed)
   * and, only when set, the custom time.
   */
  lemma PayloadEvento18(num_os: string, sequencial: int, operador: string, dataHoraCustomizada: Option<string>)
    ensures var p := Payload18(num_os, sequencial, operador, dataHoraCustomizada);
            && p.Keys == {"evento", "numero_os", "sequencial_servico", "codigo_operador"}
                         + (if Preenchido(dataHoraCustomizada) then {S.DATA_HORA} else {})
            && p["evento"] == "18" && p["numero_os"] == num_os
            && p["sequencial_servico"] == IntToString(sequencial) && p["codigo_operador"] == operador
            && (Preenchido(dataHoraCustomizada) ==> p[S.DATA_HORA] == dataHoraCustomizada.value)
  {
  }

  /**
   * In a coherent form that passes validation, the number sent is the one
   * printed in the label in the service field, whichever service of the list
   * carries that label.
   */
  lemma {:induction false} SequencialEnviadoEhODoRotulo(c: Campos18, e: SI.EstadoServicos, i: nat)
    requires Coerente18(c, e) && e.selecionado.Some?
    requires i < |e.servicos.value| && RotuloServico(e.servicos.value[i]) == c.servico
    ensures e.selecionado.value.sequencial_servico == e.servicos.value[i].sequencial_servico
  {
    RotuloIdentificaServico(e.selecionado.value, e.servicos.value[i]);
  }

  // ---------------------------------------------------------------- the component

  /** The form: its three fields, which of them can be used, and the hooks it uses. */
  class Evento18 {
    const textos: TextosEvento18
    const buscaServicos: SI.UseBuscaServicosInspecao
    const buscaOperador: O.UseBuscaOperador
    const salvar: S.UseSalvarEvento
    var num_os: string
    var servico: string
    var operador: string
    var servicoHabilitado: bool
    var operadorHabilitado: bool

    function Campos(): Campos18
      reads this
    {
      Campos18(num_os, servico, operador, servicoHabilitado, operadorHabilitado)
    }

    /** The hooks are in their resting states and the fields agree with the service lookup. */
    predicate Valid()
      reads this, buscaServicos, buscaOperador, salvar
    {
      && buscaServicos.Valid() && buscaOperador.Valid() && salvar.Valid()
      && Coerente18(Campos(), buscaServicos.Estado())
    }

    /** The form as it mounts: the OS number preselected on the page, if any. */
    constructor (osSelecionada: Option<string>)
      ensures Valid() && fresh(buscaServicos) && fresh(buscaOperador) && fresh(salvar) && textos == TEXTOS
      ensures Campos() == Campos18(if osSelecionada.Some? then osSelecionada.value else "", "", "", false, false)
      ensures buscaServicos.Estado() == SI.EstadoServicos(None, None, None, None, false)
    {
      textos := TEXTOS;
      buscaServicos := new SI.UseBuscaServicosInspecao();
      buscaOperador := new O.UseBuscaOperador();
      salvar := new S.UseSalvarEvento();
      num_os := if osSelecionada.Some? then osSelecionada.value else "";
      servico, operador := "", "";
      servicoHabilitado, operadorHabilitado := false, false;
    }

    /** The OS input's `onChange`. */
    method AlterarNumOS(value: string)
      requires Valid()
      modifies this
      ensures Valid() && Campos() == old(Campos()).(num_os := value)
    {
      num_os := value;
    }

    /** The operator input's `onChange`; the input is disabled until a service is selected. */
    method AlterarOperador(value: string)
      requires Valid() && operadorHabilitado
      modifies this
      ensures Valid() && Campos() == old(Campos()).(operador := value)
    {
      operador := value;
    }

    /**
     * `handleConsultarOS()`, with the server's reply to the service lookup.
     * Returns the toast raised (by the form or by the lookup) and the number sent.
     */
    method HandleConsultarOS(resposta: Resposta<Corpo<SI.ServicoInspecao>>) returns (aviso: Option<string>, pedido: Option<string>)
      requires Valid()
      modifies this, buscaServicos, buscaOperador
      ensures Valid()
      ensures SaidaConsulta18(Campos(), buscaServicos.Estado(), aviso, pedido)
              == ConsultaForm18(textos, buscaServicos.textos, old(Campos()), old(buscaServicos.Estado()), resposta)
      // a lookup clears the operator's name and error; a blank number leaves them
      ensures !IsBlank(old(num_os)) ==> buscaOperador.nomeOperador == "" && buscaOperador.erroOperador == None
      ensures IsBlank(old(num_os)) ==>
                buscaOperador.nomeOperador == old(buscaOperador.nomeOperador) && buscaOperador.erroOperador == old(buscaOperador.erroOperador)
    {
      var numeroOS := Trim(num_os);
      if numeroOS == "" {
        return Some(textos.informeOS), None;
      }

      ghost var c0, e0 := Campos(), buscaServicos.Estado();
      TrimIdempotent(num_os);
      servicoHabilitado, operadorHabilitado := false, false;
      servico, operador := "", "";
      buscaServicos.SelecionarServico(None);
      buscaOperador.LimparOperador();
      assert buscaServicos.Estado() == e0.(selecionado := None) && num_os == c0.num_os;

      var resultado;
      resultado, pedido, aviso := buscaServicos.ConsultarServicos(numeroOS, resposta);
      ghost var b := SI.ConsultaServicos(buscaServicos.textos, e0.(selecionado := None), numeroOS, resposta);
      assert buscaServicos.Estado() == b.estado && resultado == b.achou && aviso == b.aviso && pedido == b.pedido;

      if resultado {
        servicoHabilitado := true;
        assert Campos() == Campos18(c0.num_os, "", "", true, false);
      } else {
        num_os := "";
        assert Campos() == Campos18("", "", "", false, false);
      }
    }

    /**
     * The effect that runs when the page hands over a selected OS and no
     * reference is shown yet: the reference becomes `OS <numero>` and the
     * services of the OS in the field are looked up.
     */
    method InicializarOSSelecionada(osSelecionada: Option<string>, resposta: Resposta<Corpo<SI.ServicoInspecao>>)
      returns (aviso: Option<string>, pedido: Option<string>)
      requires Valid()
      modifies this, buscaServicos, buscaOperador
      ensures Valid()
      ensures osSelecionada.None? || old(buscaServicos.referencia).Some? ==>
                Campos() == old(Campos()) && buscaServicos.Estado() == old(buscaServicos.Estado()) && aviso == None && pedido == None
      ensures osSelecionada.Some? && old(buscaServicos.referencia).None? ==>
                SaidaConsulta18(Campos(), buscaServicos.Estado(), aviso, pedido)
                == ConsultaForm18(textos, buscaServicos.textos, old(Campos()),
                                  old(buscaServicos.Estado()).(referencia := Some("OS " + osSelecionada.value)), resposta)
    {
      if osSelecionada.Some? && buscaServicos.referencia.None? {
        buscaServicos.SetReferencia(Some("OS " + osSelecionada.value));
        aviso, pedido := HandleConsultarOS(resposta);
      } else {
        aviso, pedido := None, None;
      }
    }

    /** `handleServicoChange(value)`: the dropdown's `onChange`. */
    method HandleServicoChange(value: string)
      requires Valid()
      modifies this, buscaServicos
      ensures Valid()
      ensures (Campos(), buscaServicos.Estado()) == EscolhaServico(old(Campos()), old(buscaServicos.Estado()), value)
    {
      if buscaServicos.servicosInfo.None? {
        return;
      }

      var servicoEncontrado := EncontrarServico(buscaServicos.servicosInfo.value, value);
      if servicoEncontrado.Some? {
        buscaServicos.SelecionarServico(servicoEncontrado);
        operadorHabilitado := true;
      } else {
        buscaServicos.SelecionarServico(None);
        operadorHabilitado := false;
        operador := "";
      }

      servico := value;
    }

    /**
     * `handleConsultarOperador()`, with the server's reply to the operator
     * lookup. Returns the toast raised (by the form or by the lookup) and the code sent.
     */
    method HandleConsultarOperador(resposta: Resposta<Corpo<Cadastro>>) returns (aviso: Option<string>, pedido: Option<string>)
      requires Valid()
      modifies buscaOperador
      ensures Valid()
      // a blank code only raises the form's own toast
      ensures IsBlank(operador) ==>
                && aviso == Some(textos.informeOperador) && pedido == None
                && buscaOperador.nomeOperador == old(buscaOperador.nomeOperador)
                && buscaOperador.erroOperador == old(buscaOperador.erroOperador)
      // otherwise the operator lookup runs on the trimmed code
      ensures !IsBlank(operador) ==>
                var c := ConsultaCadastro(buscaOperador.textos, old(buscaOperador.buscandoOperador), Trim(operador), resposta);
                && buscaOperador.nomeOperador == c.descricao && buscaOperador.erroOperador == c.erro
                && aviso == c.aviso && pedido == c.pedido
    {
      var codigoOperador := Trim(operador);
      if codigoOperador == "" {
        return Some(textos.informeOperador), None;
      }
      var achado;
      achado, pedido, aviso := buscaOperador.ConsultarOperador(codigoOperador, resposta);
    }

    /** The checks at the start of `handleSalvar()`: every error found, one per group, in the order of the fields. */
    method Validar() returns (erros: seq<string>)
      ensures erros == Erros18(textos, Campos(), buscaServicos.Estado(), buscaOperador.nomeOperador)
    {
      erros := [];

      if Trim(num_os) == "" {
        erros := erros + [textos.osObrigatoria];
      } else if buscaServicos.servicosInfo.None? || |buscaServicos.servicosInfo.value| == 0 {
        erros := erros + [textos.osPesquisar];
      }
      assert erros == ComoLista(ErroOS(textos, num_os, buscaServicos.servicosInfo));
      ghost var grupoOS := erros;

      if Trim(servico) == "" {
        erros := erros + [textos.servicoObrigatorio];
      } else if buscaServicos.servicoSelecionado.None? {
        erros := erros + [textos.servicoValido];
      }
      assert erros == grupoOS + ComoLista(ErroServico(textos, servico, buscaServicos.servicoSelecionado));
      ghost var grupoServico := erros;

      if Trim(operador) == "" {
        erros := erros + [textos.operadorObrigatorio];
      } else if buscaOperador.nomeOperador == "" {
        erros := erros + [textos.operadorPesquisar];
      }
      assert erros == grupoServico + ComoLista(ErroOperador(textos, operador, buscaOperador.nomeOperador));
    }

    /**
     * `handleSalvar()`, with the outcome of the POST it makes when the form
     * is valid. Returns the validation toast, or what the save did.
     */
    method HandleSalvar(dataHoraCustomizada: Option<string>, resposta: Resposta<Option<S.RetornoSalvar>>)
      returns (avisoValidacao: Option<string>, salvamento: Option<S.Salvamento>)
      requires Valid()
      modifies salvar
      ensures Valid()
      ensures var erros := Erros18(textos, Campos(), buscaServicos.Estado(), buscaOperador.nomeOperador);
              && (erros != [] ==> avisoValidacao == Some(textos.cabecalho + Join(erros, "\n")) && salvamento == None)
              && (erros == [] ==>
                    && avisoValidacao == None && buscaServicos.servicoSelecionado.Some?
                    // the service sent is one of the list, the one whose label is in the field
                    && buscaServicos.servicoSelecionado.value in buscaServicos.servicosInfo.value
                    && RotuloServico(buscaServicos.servicoSelecionado.value) == servico
                    && salvamento == Some(S.Salvar(salvar.textos,
                                                   Payload18(num_os, buscaServicos.servicoSelecionado.value.sequencial_servico, operador, dataHoraCustomizada),
                                                   textos.titulo, dataHoraCustomizada, resposta)))
    {
      var erros := Validar();
      if |erros| > 0 {
        return Some(textos.cabecalho + Join(erros, "\n")), None;
      }

      var payload := Payload18(num_os, buscaServicos.servicoSelecionado.value.sequencial_servico, operador, dataHoraCustomizada);
      var ok, enviado, avisoSucesso, avisoErro := salvar.SalvarEvento(payload, textos.titulo, dataHoraCustomizada, resposta);
      return None, Some(S.Salvamento(enviado, ok, avisoSucesso, avisoErro));
    }

    /** `handleCancelar()`: clears every field and both lookups' selection and operator (the redirect home is not modelled). */
    method HandleCancelar()
      requires Valid()
      modifies this, buscaServicos, buscaOperador
      ensures Valid()
      ensures Campos() == Campos18("", "", "", false, false)
      ensures buscaServicos.Estado() == old(buscaServicos.Estado()).(selecionado := None)
      ensures buscaOperador.nomeOperador == "" && buscaOperador.erroOperador == None
    {
      num_os, servico, operador := "", "", "";
      servicoHabilitado, operadorHabilitado := false, false;
      buscaServicos.SelecionarServico(None);
      buscaOperador.LimparOperador();
    }
  }
}
