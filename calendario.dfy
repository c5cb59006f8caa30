/** The month calendar (src/components/Calendario.jsx): the length and the
    first weekday of the shown month, the grid of day cells, the highlighting
    test, and the month buttons. Days are counted in the proleptic Gregorian
    calendar of the ECMAScript `Date` object (section 21.4.1 of ECMA-262), in
    whole days from 1970-01-01; months are numbered 0 (January) to 11. Every
    `new Date(year, month, ...)` the component builds first reads a year from
    0 to 99 as 1900 plus that year (section 21.4.2.1 of ECMA-262), and the
    functions below that stand for such a call do the same. The limit of
    8.64e15 ms either side of 1970 on a time value is not modelled. */
module Calendario {
  import opened Base
  import opened Texto

  type Mes = m: nat | m < 12

  predicate Bisiesto(anio: int)
  {
    anio % 4 == 0 && (anio % 100 != 0 || anio % 400 == 0)
  }

  /** The year the `Date` constructor uses for the year argument `anio`: the
      years 0 to 99 stand for 1900 to 1999. The result is never such a
      two-digit year, so applying the rule twice changes nothing. */
  function AnioCompleto(anio: int): (r: int)
    ensures !(0 <= r <= 99)
    ensures 0 <= anio <= 99 ==> r == 1900 + anio
    ensures !(0 <= anio <= 99) ==> r == anio
  {
    if 0 <= anio <= 99 then 1900 + anio else anio
  }

  /** `new Date(anio, mes + 1, 0).getDate()`: the length of the month, in the
      year the constructor reads `anio` as. */
  function DiasEnMes(anio: int, mes: Mes): (r: nat)
    ensures 28 <= r <= 31
    ensures mes == 1 ==> (r == 29 <==> Bisiesto(AnioCompleto(anio))) && (r == 28 <==> !Bisiesto(AnioCompleto(anio)))
    ensures mes in {3, 5, 8, 10} ==> r == 30
    ensures mes in {0, 2, 4, 6, 7, 9, 11} ==> r == 31
  {
    if mes == 1 then (if Bisiesto(AnioCompleto(anio)) then 29 else 28)
    else if mes in {3, 5, 8, 10} then 30
    else 31
  }

  /** Days from 1970-01-01 to January 1st of `anio` (negative before 1970). */
  function DiaDelAnio(anio: int): int
  {
    365 * (anio - 1970) + (anio - 1969) / 4 - (anio - 1901) / 100 + (anio - 1601) / 400
  }

  /** Days of the year before the first of `mes`. */
  function DiasAntesDelMes(anio: int, mes: nat): nat
    requires mes <= 12
  {
    [0, 31, 59, 90, 120, 151, 181, 212, 243, 273, 304, 334, 365][mes]
    + (if mes >= 2 && Bisiesto(anio) then 1 else 0)
  }

  /** The day number of the first of a month of the full year `anio`. */
  function DiaNumero(anio: int, mes: Mes): int
  {
    DiaDelAnio(anio) + DiasAntesDelMes(anio, mes)
  }

  /** `new Date(anio, mes, 1).getDay()`: 0 for Sunday up to 6 for Saturday;
      1970-01-01 was a Thursday. */
  function PrimerDia(anio: int, mes: Mes): (r: nat)
    ensures r < 7
  {
    (DiaNumero(AnioCompleto(anio), mes) + 4) % 7
  }

  /** Whether `(x + 1) / d` steps up from `x / d`. */
  lemma PasoDePiso(x: int, d: int)
    requires d > 0
    ensures (x + 1) / d == x / d + (if (x + 1) % d == 0 then 1 else 0)
  {
    var q, r := x / d, x % d;
    if r + 1 < d {
      DivisionUnique(x + 1, d, q, r + 1);
    } else {
      assert x + 1 == (q + 1) * d + 0;
      DivisionUnique(x + 1, d, q + 1, 0);
    }
  }

  /** Shifting by a multiple of `d` keeps the remainder. */
  lemma RestoDesplazado(y: int, c: int, d: int)
    requires d > 0
    ensures (y - c * d) % d == y % d
  {
    var q, r := y / d, y % d;
    assert y - c * d == (q - c) * d + r;
    DivisionUnique(y - c * d, d, q - c, r);
  }

  /** A multiple of `k * d` is a multiple of `d`. */
  lemma MultiploDeMultiplo(y: int, k: int, d: int)
    requires d > 0 && k > 0 && y % (k * d) == 0
    ensures y % d == 0
  {
    var q := y / (k * d);
    assert y == q * (k * d);
    assert y == (q * k) * d + 0;
    DivisionUnique(y, d, q * k, 0);
  }

  /** Consecutive New Year's days are 365 days apart, 366 after a leap year. */
  lemma LargoDelAnio(anio: int)
    ensures DiaDelAnio(anio + 1) == DiaDelAnio(anio) + (if Bisiesto(anio) then 366 else 365)
  {
    PasoDePiso(anio - 1969, 4);
    PasoDePiso(anio - 1901, 100);
    PasoDePiso(anio - 1601, 400);
    RestoDesplazado(anio, 492, 4);
    RestoDesplazado(anio, 19, 100);
    RestoDesplazado(anio, 4, 400);
    assert anio - 1969 + 1 == anio - 492 * 4;
    assert anio - 1901 + 1 == anio - 19 * 100;
    assert anio - 1601 + 1 == anio - 4 * 400;
    if anio % 100 == 0 {
      MultiploDeMultiplo(anio, 25, 4);
    }
    if anio % 400 == 0 {
      MultiploDeMultiplo(anio, 4, 100);
    }
  }

  /** `irAlMesAnterior`: `new Date(anio, mes - 1)`, one month back from the
      year the constructor reads `anio` as, wrapping into December of the
      previous year. */
  function MesAnterior(anio: int, mes: Mes): (int, Mes)
  {
    var a := AnioCompleto(anio);
    if mes == 0 then (a - 1, 11) else (a, mes - 1)
  }

  /** `irAlProximoMes`: `new Date(anio, mes + 1)`, one month forward, wrapping
      into January of the next year. */
  function MesSiguiente(anio: int, mes: Mes): (int, Mes)
  {
    var a := AnioCompleto(anio);
    if mes == 11 then (a + 1, 0) else (a, mes + 1)
  }

  /** The two buttons undo each other as long as neither the starting year
      nor the one passed through is a two-digit year. */
  lemma MesesInversos(anio: int, mes: Mes)
    requires AnioCompleto(anio) == anio
    ensures var (a, m) := MesAnterior(anio, mes); AnioCompleto(a) == a ==> MesSiguiente(a, m) == (anio, mes)
    ensures var (a, m) := MesSiguiente(anio, mes); AnioCompleto(a) == a ==> MesAnterior(a, m) == (anio, mes)
  {
  }

  /** Where they do not: one month back from January of the year 100 lands on
      December of the year 99, whose grid is that of December 1999 (the
      heading, which prints the held year, still reads 99), and one month
      forward from December of 1 BC (year -1) lands on January of the year 0,
      whose grid is that of January 1900 (the heading reads 0), from which the
      '❮' button goes to December 1899. */
  lemma SaltoDeLosAniosDeDosCifras()
    ensures MesAnterior(100, 0) == (99, 11) && MesSiguiente(99, 11) == (2000, 0)
    ensures PrimerDia(99, 11) == PrimerDia(1999, 11) && DiasEnMes(99, 11) == DiasEnMes(1999, 11)
    ensures MesSiguiente(-1, 11) == (0, 0) && MesAnterior(0, 0) == (1899, 11)
  {
  }

  /** `(a + k) % d` only depends on `a % d`. */
  lemma RestoDeSuma(a: int, k: int, d: int)
    requires d > 0
    ensures (a + k) % d == (a % d + k) % d
  {
    var q, r := a / d, a % d;
    var q2, r2 := (r + k) / d, (r + k) % d;
    assert a + k == (q + q2) * d + r2;
    DivisionUnique(a + k, d, q + q2, r2);
  }

  /** The next month starts where this one ends, so its first weekday is this
      month's first weekday moved on by the length of this month (for a year
      and a following year that are not two-digit years). */
  lemma PrimerDiaDelMesSiguiente(anio: int, mes: Mes)
    requires AnioCompleto(anio) == anio && AnioCompleto(MesSiguiente(anio, mes).0) == MesSiguiente(anio, mes).0
    ensures var (a, m) := MesSiguiente(anio, mes);
            DiaNumero(a, m) == DiaNumero(anio, mes) + DiasEnMes(anio, mes)
            && PrimerDia(a, m) == (PrimerDia(anio, mes) + DiasEnMes(anio, mes)) % 7
  {
    if mes == 11 {
      LargoDelAnio(anio);
    }
    RestoDeSuma(DiaNumero(anio, mes) + 4, DiasEnMes(anio, mes), 7);
  }

  /** Two anchors: 1970-01-01 was a Thursday and 2024-11-01 a Friday. */
  lemma PrimerDiaEjemplos()
    ensures PrimerDia(1970, 0) == 4
    ensures DiaNumero(2024, 10) == 20028 && PrimerDia(2024, 10) == 5
  {
  }

  /** `diasArray`: `primerDia` empty cells, then the days 1 to `diasEnMes`. */
  method ConstruirDias(primerDia: nat, diasEnMes: nat) returns (dias: seq<Option<nat>>)
    ensures |dias| == primerDia + diasEnMes
    ensures forall i :: 0 <= i < primerDia ==> dias[i].None?
    ensures forall k :: 1 <= k <= diasEnMes ==> dias[primerDia + k - 1] == Some(k)
  {
    dias := [];
    var i := 0;
    while i < primerDia
      invariant 0 <= i <= primerDia && |dias| == i
      invariant forall j :: 0 <= j < i ==> dias[j].None?
    {
      dias := dias + [None];
      i := i + 1;
    }
    var dia := 1;
    while dia <= diasEnMes
      invariant 1 <= dia <= diasEnMes + 1 && |dias| == primerDia + dia - 1
      invariant forall j :: 0 <= j < primerDia ==> dias[j].None?
      invariant forall k :: 1 <= k < dia ==> dias[primerDia + k - 1] == Some(k)
    {
      dias := dias + [Some(dia)];
      dia := dia + 1;
    }
  }

  /** An entry of the `eventos` list the calendar receives. */
  datatype EventoCalendario = EventoCalendario(fecha: string, titulo: string)

  /** `eventos.some(e => e.fecha.includes(texto))`. */
  function AlgunaFechaContiene(eventos: seq<EventoCalendario>, texto: string): (r: bool)
    ensures r <==> exists i :: 0 <= i < |eventos| && Contains(eventos[i].fecha, texto)
  {
    if eventos == [] then false
    else Contains(eventos[0].fecha, texto) || AlgunaFechaContiene(eventos[1..], texto)
  }

  /** `tienEvento`: an empty cell (or a day 0) never has events; a day has
      events when some event's text contains it written with two digits. The
      shown month and year play no part. */
  predicate TieneEvento(dia: Option<nat>, eventos: seq<EventoCalendario>)
  {
    dia.Some? && dia.value != 0 && AlgunaFechaContiene(eventos, PadTwo(dia.value))
  }

  /** A text without the digit '0' never highlights the days 1 to 9: the test
      looks for "01" to "09". */
  lemma SinCeroNoMarcaDiasSimples(eventos: seq<EventoCalendario>, dia: nat)
    requires 1 <= dia <= 9
    requires forall i :: 0 <= i < |eventos| ==> '0' !in eventos[i].fecha
    ensures !TieneEvento(Some(dia), eventos)
  {
    var t := PadTwo(dia);
    forall i | 0 <= i < |eventos|
      ensures !Contains(eventos[i].fecha, t)
    {
      if Contains(eventos[i].fecha, t) {
        ContainsFirstChar(eventos[i].fecha, t);
      }
    }
  }

  /** In particular an event dated "5" does not mark the 5th. */
  lemma FechaCincoNoMarcaElCinco()
    ensures !TieneEvento(Some(5), [EventoCalendario("5", "Taller")])
  {
    SinCeroNoMarcaDiasSimples([EventoCalendario("5", "Taller")], 5);
  }

  /** The shown month. `dia` is the day of the month of the `Date` held in
      state: the clock's day at first, the 1st after any month button. */
  class Calendario {
    var anio: int
    var mes: Mes
    var dia: nat

    constructor (anioHoy: int, mesHoy: Mes, diaHoy: nat)
      ensures anio == anioHoy && mes == mesHoy && dia == diaHoy
    {
      anio := anioHoy;
      mes := mesHoy;
      dia := diaHoy;
    }

    /** The '❮' button: the new `Date` holds the month before the one the
        constructor reads the held year and month as. */
    method IrAlMesAnterior()
      modifies this
      ensures (anio, mes) == MesAnterior(old(anio), old(mes)) && dia == 1
    {
      anio, mes := MesAnterior(anio, mes).0, MesAnterior(anio, mes).1;
      dia := 1;
    }

    /** The '❯' button. */
    method IrAlProximoMes()
      modifies this
      ensures (anio, mes) == MesSiguiente(old(anio), old(mes)) && dia == 1
    {
      anio, mes := MesSiguiente(anio, mes).0, MesSiguiente(anio, mes).1;
      dia := 1;
    }

    /** The grid of the shown month, drawn for the year the constructor
        reads the held year as. */
    method Grilla() returns (dias: seq<Option<nat>>)
      ensures |dias| == PrimerDia(anio, mes) + DiasEnMes(anio, mes)
      ensures forall i :: 0 <= i < PrimerDia(anio, mes) ==> dias[i].None?
      ensures forall k :: 1 <= k <= DiasEnMes(anio, mes) ==> dias[PrimerDia(anio, mes) + k - 1] == Some(k)
    {
      dias := ConstruirDias(PrimerDia(anio, mes), DiasEnMes(anio, mes));
    }
  }
}
