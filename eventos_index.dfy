/**
 * Model of app/eventos/index.ts: the table from event code to the form that
 * records it, and the two wrappers that render the shared load form
 * (app/eventos/Evento1015.tsx) as event 10 or event 15.
 */
module Eventos {
  import opened Common

  /** The props every form receives: the OS picked on the page and, optionally, a custom event time. */
  datatype EventoProps = EventoProps(osSelecionada: Option<string>, dataHoraCustomizada: Option<string>)

  /** The forms the table can render; the shared load form carries the event it records. */
  datatype Formulario = Evento1015(tipoEvento: int) | Evento13 | Evento18 | Evento19

  /** What a table entry renders: a form and the props it receives. */
  datatype Montagem = Montagem(formulario: Formulario, props: EventoProps)

  /** A table entry: a wrapper of the shared load form, or a form used directly. */
  datatype Componente = Envoltorio(tipoEvento: int) | Direto(formulario: Formulario)

  /** `EVENTO_COMPONENTS`. */
  const EVENTO_COMPONENTS: map<int, Componente> :=
    map[10 := Envoltorio(10), 13 := Direto(Evento13), 15 := Envoltorio(15), 18 := Direto(Evento18), 19 := Direto(Evento19)]

  /** Rendering an entry: a wrapper adds its `tipoEvento` and forwards every prop; a direct entry gets the props as they are. */
  function Renderizar(c: Componente, props: EventoProps): (m: Montagem)
    ensures m.props == props
    ensures c.Envoltorio? ==> m.formulario == Evento1015(c.tipoEvento)
    ensures c.Direto? ==> m.formulario == c.formulario
  {
    match c
    case Envoltorio(tipo) => Montagem(Evento1015(tipo), props)
    case Direto(f) => Montagem(f, props)
  }

  /** The title of the shared load form: "Início de Carga" for event 10, "Término de Carga" for anything else. */
  function TituloEvento1015(tipoEvento: int): (r: string)
    ensures tipoEvento == 10 ==> r == "Início de Carga"
    ensures tipoEvento != 10 ==> r == "Término de Carga"
  {
    if tipoEvento == 10 then "Início de Carga" else "Término de Carga"
  }

  /**
   * Exactly five codes are registered; 10 and 15 render the shared load form
   * for their own code, each with its own title, and 13, 18 and 19 render
   * their own forms; every entry forwards the props unchanged.
   */
  lemma RegistroDeEventos(props: EventoProps)
    ensures EVENTO_COMPONENTS.Keys == {10, 13, 15, 18, 19}
    ensures forall k :: k in EVENTO_COMPONENTS ==> Renderizar(EVENTO_COMPONENTS[k], props).props == props
    ensures Renderizar(EVENTO_COMPONENTS[10], props).formulario == Evento1015(10)
    ensures Renderizar(EVENTO_COMPONENTS[15], props).formulario == Evento1015(15)
    ensures Renderizar(EVENTO_COMPONENTS[13], props).formulario == Evento13
    ensures Renderizar(EVENTO_COMPONENTS[18], props).formulario == Evento18
    ensures Renderizar(EVENTO_COMPONENTS[19], props).formulario == Evento19
    ensures TituloEvento1015(10) != TituloEvento1015(15)
  {
  }

  /** Every shared-form entry records the event of its own code. */
  lemma EnvoltorioDoProprioCodigo(k: int)
    requires k in EVENTO_COMPONENTS && EVENTO_COMPONENTS[k].Envoltorio?
    ensures EVENTO_COMPONENTS[k].tipoEvento == k
    ensures k == 10 || k == 15
  {
  }
}
