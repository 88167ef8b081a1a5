/**
 * Model of app/components/hooks/useDateTime.ts: the clock's time as the
 * forms show it, `dd/mm/yyyy hh:mm:ss`. The readings of the `Date` object
 * (local day, month index, year, hours, minutes, seconds) are parameters.
 */
module DateTime {
  import opened Common

  /** `valor.toString().padStart(2, "0")`. */
  function Pad(valor: nat): (r: string)
    ensures valor < 10 ==> r == ['0', DigitChar(valor)]
    ensures valor >= 10 ==> r == NatToString(valor)
    ensures |r| >= 2 && AllDigits(r)
    // reading the text back gives the value
    ensures DigitsValue(r) == valor
  {
    var s := NatToString(valor);
    NatToStringRoundTrip(valor);
    if |s| < 2 then
      assert valor < 10 && s == [DigitChar(valor)];
      assert ['0', DigitChar(valor)][..1] == "0";
      ['0'] + s
    else
      assert valor >= 10;
      s
  }

  /** What a `Date` can read: a day of the month, a month index from 0, hours, minutes and seconds in range. */
  predicate Leitura(dia: int, mes: int, hora: int, minuto: int, segundo: int) {
    1 <= dia <= 31 && 0 <= mes <= 11 && 0 <= hora <= 23 && 0 <= minuto <= 59 && 0 <= segundo <= 59
  }

  /** Where the pieces of `a + sep + b + sep + c` lie when `a` and `b` have two characters. */
  lemma Campos(a: string, b: string, c: string, sep: char)
    requires |a| == 2 && |b| == 2
    ensures var r := a + [sep] + b + [sep] + c;
            |r| == 6 + |c| && r[..2] == a && r[2] == sep && r[3..5] == b && r[5] == sep && r[6..] == c
  {
    var r := a + [sep] + b + [sep] + c;
    assert r == a + ([sep] + b + [sep] + c);
    assert r[3..5] == b by {
      assert r[3] == b[0] && r[4] == b[1];
    }
  }

  /** `${dia}/${mes}/${ano}`, month shown from 1, year unpadded. */
  function Data(dia: nat, mes: nat, ano: int): (r: string)
    requires 1 <= dia <= 31 && 0 <= mes <= 11
    ensures |r| == 6 + |IntToString(ano)| && r[2] == '/' && r[5] == '/'
    ensures r[..2] == Pad(dia) && r[3..5] == Pad(mes + 1) && r[6..] == IntToString(ano)
  {
    NatToStringLength(dia);
    NatToStringLength(mes + 1);
    Campos(Pad(dia), Pad(mes + 1), IntToString(ano), '/');
    Pad(dia) + "/" + Pad(mes + 1) + "/" + IntToString(ano)
  }

  /** `${hora}:${minuto}:${segundo}`, all three on two digits. */
  function Hora(hora: nat, minuto: nat, segundo: nat): (r: string)
    requires 0 <= hora <= 23 && 0 <= minuto <= 59 && 0 <= segundo <= 59
    ensures |r| == 8 && r[2] == ':' && r[5] == ':'
    ensures r[..2] == Pad(hora) && r[3..5] == Pad(minuto) && r[6..] == Pad(segundo)
  {
    NatToStringLength(hora);
    NatToStringLength(minuto);
    NatToStringLength(segundo);
    Campos(Pad(hora), Pad(minuto), Pad(segundo), ':');
    Pad(hora) + ":" + Pad(minuto) + ":" + Pad(segundo)
  }

  /** `formatarDataHoraAtual()` for the clock readings given: the date, a blank, the time. */
  function FormatarDataHora(dia: nat, mes: nat, ano: int, hora: nat, minuto: nat, segundo: nat): (r: string)
    requires Leitura(dia, mes, hora, minuto, segundo)
    // the day and the month (shown from 1) lead, each on two digits, each followed by a slash
    ensures |r| >= 16
    ensures r[2] == '/' && r[5] == '/'
    ensures AllDigits(r[..2]) && DigitsValue(r[..2]) == dia
    ensures AllDigits(r[3..5]) && DigitsValue(r[3..5]) == mes + 1 && 1 <= mes + 1 <= 12
  {
    var d, h := Data(dia, mes, ano), Hora(hora, minuto, segundo);
    DataNoInicio(d, h);
    d + " " + h
  }

  /** Appending the time keeps the first six characters of the date where they were. */
  lemma DataNoInicio(d: string, h: string)
    requires |d| >= 6
    ensures var r := d + " " + h;
            |r| == |d| + 1 + |h| && r[..2] == d[..2] && r[2] == d[2] && r[3..5] == d[3..5] && r[5] == d[5]
  {
  }

  /**
   * With a four-digit year the text is exactly `dd/mm/yyyy hh:mm:ss`: 19
   * characters, the separators in place, and every field reads back as the
   * value it shows.
   */
  lemma {:induction false} FormatoCompleto(dia: nat, mes: nat, ano: nat, hora: nat, minuto: nat, segundo: nat)
    requires Leitura(dia, mes, hora, minuto, segundo) && 1000 <= ano <= 9999
    ensures var r := FormatarDataHora(dia, mes, ano, hora, minuto, segundo);
            && |r| == 19
            && r[2] == '/' && r[5] == '/' && r[10] == ' ' && r[13] == ':' && r[16] == ':'
            && AllDigits(r[..2]) && DigitsValue(r[..2]) == dia
            && AllDigits(r[3..5]) && DigitsValue(r[3..5]) == mes + 1
            && AllDigits(r[6..10]) && DigitsValue(r[6..10]) == ano
            && AllDigits(r[11..13]) && DigitsValue(r[11..13]) == hora
            && AllDigits(r[14..16]) && DigitsValue(r[14..16]) == minuto
            && AllDigits(r[17..]) && DigitsValue(r[17..]) == segundo
  {
    var d, h := Data(dia, mes, ano), Hora(hora, minuto, segundo);
    NatToStringLength(ano);
    NatToStringRoundTrip(ano);
    Juntar(d, h);
  }

  /** Where the pieces of `d + " " + h` lie for a ten-character date and an eight-character time. */
  lemma Juntar(d: string, h: string)
    requires |d| == 10 && |h| == 8
    ensures var r := d + " " + h;
            && |r| == 19 && r[..2] == d[..2] && r[2] == d[2] && r[3..5] == d[3..5] && r[5] == d[5] && r[6..10] == d[6..]
            && r[10] == ' ' && r[11..13] == h[..2] && r[13] == h[2] && r[14..16] == h[3..5] && r[16] == h[5] && r[17..] == h[6..]
  {
    var r := d + " " + h;
    assert r[..10] == d && r[11..] == h;
  }
}
