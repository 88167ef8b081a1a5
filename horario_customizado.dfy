/**
 * Model of app/components/hooks/useHorarioCustomizado.ts: the event time the
 * operator may set by hand instead of the clock's.
 */
module HorarioCustomizado {

  /** `{dataHora, alterado}`: the time typed (an ISO text) and whether one was set. */
  datatype Horario = Horario(dataHora: string, alterado: bool)

  const INICIAL := Horario("", false)

  /** `obterDataHoraParaEnvio()`: the time to send, or "" when none was set. */
  function ParaEnvio(h: Horario): (r: string)
    ensures h.alterado ==> r == h.dataHora
    // the text held is never sent while no time was set
    ensures !h.alterado ==> r == ""
  {
    if h.alterado then h.dataHora else ""
  }

  class UseHorarioCustomizado {
    var horarioCustomizado: Horario

    constructor ()
      ensures horarioCustomizado == INICIAL && ParaEnvio(horarioCustomizado) == ""
    {
      horarioCustomizado := INICIAL;
    }

    /** `ajustarHorario(x)`: replaces whatever was set before; `x` is what will be sent. */
    method AjustarHorario(novaDataHora: string)
      modifies this
      ensures horarioCustomizado == Horario(novaDataHora, true)
      ensures ParaEnvio(horarioCustomizado) == novaDataHora
    {
      horarioCustomizado := Horario(novaDataHora, true);
    }

    /** `limparHorario()`: back to the initial state, so nothing is sent; doing it twice is doing it once. */
    method LimparHorario()
      modifies this
      ensures horarioCustomizado == INICIAL && ParaEnvio(horarioCustomizado) == ""
    {
      horarioCustomizado := INICIAL;
    }

    /** `obterDataHoraParaEnvio()`: reads the state and changes nothing. */
    method ObterDataHoraParaEnvio() returns (r: string)
      ensures r == ParaEnvio(horarioCustomizado)
      ensures r != "" ==> horarioCustomizado.alterado
    {
      r := if horarioCustomizado.alterado then horarioCustomizado.dataHora else "";
    }
  }
}
