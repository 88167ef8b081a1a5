/**
 * Shared vocabulary of the model: an Option type, the whitespace set that
 * JavaScript's `String.prototype.trim` and the regular-expression class `\s`
 * both use, decimal rendering of numbers (`Number.prototype.toString` on
 * integers) and `Array.prototype.join`.
 */
module Common {

  datatype Option<+T> = None | Some(value: T)

  /** JavaScript truthiness of an optional string: present and non-empty. */
  predicate Preenchido(s: Option<string>) {
    s.Some? && s.value != ""
  }

  /** The characters matched by `\s` and removed by `trim()`: WhiteSpace and LineTerminator. */
  predicate IsWhitespace(c: char) {
    || c == '\t' || c == '\n' || c == '\U{000B}' || c == '\U{000C}' || c == '\r' || c == ' '
    || c == '\U{00A0}' || c == '\U{1680}' || ('\U{2000}' <= c <= '\U{200A}')
    || c == '\U{2028}' || c == '\U{2029}' || c == '\U{202F}' || c == '\U{205F}'
    || c == '\U{3000}' || c == '\U{FEFF}'
  }

  predicate AllWhitespace(s: string) {
    forall i :: 0 <= i < |s| ==> IsWhitespace(s[i])
  }

  /** Drops the longest all-whitespace prefix (`trimStart`, and the regex `^\s*`). */
  function TrimStart(s: string): (r: string)
    ensures |r| <= |s|
  {
    if s != [] && IsWhitespace(s[0]) then TrimStart(s[1..]) else s
  }

  /** `TrimStart` removes exactly a prefix of blanks, and what it leaves does not start with one. */
  lemma {:induction false} TrimStartSufixo(s: string)
    ensures var r := TrimStart(s);
            && r == s[|s| - |r|..] && AllWhitespace(s[..|s| - |r|])
            && (r == [] || !IsWhitespace(r[0]))
  {
    if s != [] && IsWhitespace(s[0]) {
      TrimStartSufixo(s[1..]);
      var r := TrimStart(s);
      assert s[|s| - |r|..] == s[1..][|s| - 1 - |r|..];
      assert s[..|s| - |r|] == [s[0]] + s[1..][..|s| - 1 - |r|];
    } else {
      assert s[0..] == s;
    }
  }

  /** Drops the longest all-whitespace suffix (`trimEnd`). */
  function TrimEnd(s: string): (r: string)
    ensures |r| <= |s|
  {
    if s != [] && IsWhitespace(s[|s| - 1]) then TrimEnd(s[..|s| - 1]) else s
  }

  /** `TrimEnd` removes exactly a suffix of blanks, and what it leaves does not end with one. */
  lemma {:induction false} TrimEndPrefixo(s: string)
    ensures var r := TrimEnd(s);
            && r == s[..|r|] && AllWhitespace(s[|r|..])
            && (r == [] || !IsWhitespace(r[|r| - 1]))
  {
    if s != [] && IsWhitespace(s[|s| - 1]) {
      TrimEndPrefixo(s[..|s| - 1]);
      var r := TrimEnd(s);
      assert s[..|r|] == s[..|s| - 1][..|r|];
      assert s[|r|..] == s[..|s| - 1][|r|..] + [s[|s| - 1]];
    } else {
      assert s[..|s|] == s;
    }
  }

  /** `String.prototype.trim`. */
  function Trim(s: string): string {
    TrimEnd(TrimStart(s))
  }

  /** `!s.trim()`: the text is empty or whitespace only. */
  predicate IsBlank(s: string) {
    Trim(s) == ""
  }

  lemma {:induction false} TrimStartOfBlankPrefix(ws: string, s: string)
    requires AllWhitespace(ws)
    ensures TrimStart(ws + s) == TrimStart(s)
  {
    if ws != [] {
      assert (ws + s)[1..] == ws[1..] + s;
      TrimStartOfBlankPrefix(ws[1..], s);
    } else {
      assert ws + s == s;
    }
  }

  /** A text that does not start with a blank has nothing to trim at the start. */
  lemma TrimStartSemBranco(s: string)
    requires s == [] || !IsWhitespace(s[0])
    ensures TrimStart(s) == s
  {
  }

  /** A text is blank exactly when every one of its characters is whitespace. */
  lemma {:induction false} BlankIffAllWhitespace(s: string)
    ensures IsBlank(s) <==> AllWhitespace(s)
  {
    var t := TrimStart(s);
    TrimStartSufixo(s);
    TrimEndPrefixo(t);
    if AllWhitespace(s) {
      assert s == s + "";
      TrimStartOfBlankPrefix(s, "");
    }
    if IsBlank(s) {
      assert t[0..] == t;
      assert t == "";
      assert s[..|s|] == s;
    }
  }

  /** Trimming twice is trimming once. */
  lemma TrimIdempotent(s: string)
    ensures Trim(Trim(s)) == Trim(s)
  {
    var u := TrimStart(s);
    var t := Trim(s);
    TrimStartSufixo(s);
    TrimEndPrefixo(u);
    assert t == [] || (!IsWhitespace(t[0]) && !IsWhitespace(t[|t| - 1])) by {
      if t != [] {
        assert t == u[..|t|];
        assert t[0] == u[0];
      }
    }
  }

  // ---------------------------------------------------------------- digits

  predicate IsDigit(c: char) {
    '0' <= c <= '9'
  }

  predicate AllDigits(s: string) {
    forall i :: 0 <= i < |s| ==> IsDigit(s[i])
  }

  function DigitChar(d: nat): (c: char)
    requires d < 10
    ensures IsDigit(c) && c as int - '0' as int == d
  {
    ('0' as int + d) as char
  }

  /** The value of a string of decimal digits, leading zeros allowed (`Number("010")` is 10). */
  function DigitsValue(s: string): nat
    requires AllDigits(s)
  {
    if s == [] then 0 else 10 * DigitsValue(s[..|s| - 1]) + (s[|s| - 1] as int - '0' as int)
  }

  /** The longest prefix of decimal digits (the regular expression `^\d+`, when non-empty). */
  function LeadingDigits(s: string): (r: string)
    ensures |r| <= |s| && r == s[..|r|] && AllDigits(r)
    ensures |r| < |s| ==> !IsDigit(s[|r|])
  {
    if s != [] && IsDigit(s[0]) then [s[0]] + LeadingDigits(s[1..]) else ""
  }

  lemma {:induction false} LeadingDigitsOfDigitsThen(ds: string, c: char, rest: string)
    requires AllDigits(ds) && !IsDigit(c)
    ensures LeadingDigits(ds + [c] + rest) == ds
  {
    if ds != [] {
      assert (ds + [c] + rest)[1..] == ds[1..] + [c] + rest;
      LeadingDigitsOfDigitsThen(ds[1..], c, rest);
    }
  }

  /** A text made only of digits is its own leading run of digits. */
  lemma {:induction false} LeadingDigitsOfAllDigits(ds: string)
    requires AllDigits(ds)
    ensures LeadingDigits(ds) == ds
  {
    if ds != [] {
      LeadingDigitsOfAllDigits(ds[1..]);
      assert [ds[0]] + ds[1..] == ds;
    }
  }

  /** Decimal rendering of a natural number, as `toString()` prints it. */
  function NatToString(n: nat): (s: string)
    ensures |s| >= 1 && AllDigits(s)
    ensures s[0] == '0' ==> n == 0
  {
    if n < 10 then [DigitChar(n)] else NatToString(n / 10) + [DigitChar(n % 10)]
  }

  /** Decimal rendering of an integer, with a leading `-` when negative. */
  function IntToString(i: int): (s: string)
    ensures |s| >= 1
    ensures i >= 0 ==> s == NatToString(i)
    ensures i < 0 ==> s == "-" + NatToString(-i)
    // the sign is the first character exactly for negative numbers, and no blank is ever printed
    ensures s[0] == '-' <==> i < 0
    ensures ' ' !in s
  {
    if i < 0 then
      var d := NatToString(-i);
      assert forall k :: 0 <= k < |d| ==> d[k] != ' ' && d[k] != '-';
      "-" + d
    else
      var d := NatToString(i);
      assert forall k :: 0 <= k < |d| ==> d[k] != ' ' && d[k] != '-';
      d
  }

  /** Rendering integers is injective too. */
  lemma IntToStringInjective(i: int, j: int)
    requires IntToString(i) == IntToString(j)
    ensures i == j
  {
    if i >= 0 {
      NatToStringInjective(i, j);
    } else {
      assert NatToString(-i) == IntToString(i)[1..] == NatToString(-j);
      NatToStringInjective(-i, -j);
    }
  }

  /** Reading back a rendered number gives the number. */
  lemma {:induction false} NatToStringRoundTrip(n: nat)
    ensures DigitsValue(NatToString(n)) == n
  {
    if n >= 10 {
      var s := NatToString(n);
      assert s[..|s| - 1] == NatToString(n / 10);
      NatToStringRoundTrip(n / 10);
    }
  }

  /** Rendering is injective: different numbers print differently. */
  lemma NatToStringInjective(m: nat, n: nat)
    requires NatToString(m) == NatToString(n)
    ensures m == n
  {
    NatToStringRoundTrip(m);
    NatToStringRoundTrip(n);
  }

  lemma NatToStringLength(n: nat)
    ensures n < 10 ==> |NatToString(n)| == 1
    ensures 10 <= n < 100 ==> |NatToString(n)| == 2
    ensures 1000 <= n < 10000 ==> |NatToString(n)| == 4
  {
    if 1000 <= n < 10000 {
      assert |NatToString(n / 10 / 10)| == 2;
    }
  }

  // ---------------------------------------------------------------- join

  /** `Array.prototype.join(sep)` on strings. */
  function Join(xs: seq<string>, sep: string): string
  {
    if xs == [] then "" else if |xs| == 1 then xs[0] else xs[0] + sep + Join(xs[1..], sep)
  }

  /** Joining a list extended by one element appends the separator and that element. */
  lemma {:induction false} JoinSnoc(xs: seq<string>, x: string, sep: string)
    requires xs != []
    ensures Join(xs + [x], sep) == Join(xs, sep) + sep + x
  {
    if |xs| == 1 {
      assert xs + [x] == [xs[0], x];
    } else {
      assert (xs + [x])[1..] == xs[1..] + [x];
      JoinSnoc(xs[1..], x, sep);
    }
  }

  // ---------------------------------------------------------------- counting a character

  /** How many times `c` occurs in `s`. */
  function Ocorrencias(s: string, c: char): nat {
    if s == [] then 0 else (if s[0] == c then 1 else 0) + Ocorrencias(s[1..], c)
  }

  lemma {:induction false} OcorrenciasConcat(a: string, b: string, c: char)
    ensures Ocorrencias(a + b, c) == Ocorrencias(a, c) + Ocorrencias(b, c)
  {
    if a != [] {
      assert (a + b)[1..] == a[1..] + b;
      OcorrenciasConcat(a[1..], b, c);
    } else {
      assert a + b == b;
    }
  }

  lemma {:induction false} OcorrenciasAusente(s: string, c: char)
    requires c !in s
    ensures Ocorrencias(s, c) == 0
  {
    if s != [] {
      assert s[0] in s;
      assert forall d :: d in s[1..] ==> d in s;
      OcorrenciasAusente(s[1..], c);
    }
  }

  /** How many times `c` occurs in the elements of `xs`, all together. */
  function OcorrenciasNosElementos(xs: seq<string>, c: char): nat {
    if xs == [] then 0 else Ocorrencias(xs[0], c) + OcorrenciasNosElementos(xs[1..], c)
  }

  /**
   * The occurrences of `c` in the joined text are those in the elements plus
   * the separator's, once for each of the `|xs| - 1` separators.
   */
  lemma {:induction false} OcorrenciasJoin(xs: seq<string>, sep: string, c: char)
    requires xs != []
    ensures Ocorrencias(Join(xs, sep), c) == OcorrenciasNosElementos(xs, c) + (|xs| - 1) * Ocorrencias(sep, c)
  {
    if |xs| == 1 {
      assert xs[1..] == [];
    } else {
      var resto := Join(xs[1..], sep);
      var k, n := Ocorrencias(sep, c), |xs| - 1;
      assert Join(xs, sep) == xs[0] + sep + resto;
      OcorrenciasJoin(xs[1..], sep, c);
      assert Ocorrencias(resto, c) == OcorrenciasNosElementos(xs[1..], c) + (n - 1) * k;
      OcorrenciasConcat(xs[0], sep, c);
      OcorrenciasConcat(xs[0] + sep, resto, c);
      assert n * k == (n - 1) * k + k;
    }
  }
}
