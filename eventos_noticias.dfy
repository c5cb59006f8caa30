/** The events and news page (src/pages/EventosNoticias.jsx): the two category
    filters, the feed handed to the calendar, the next-event widget and the
    filter button labels. */
module EventosNoticias {
  import opened Base
  import opened Texto
  import Calendario

  datatype Evento = Evento(
    id: nat,
    fecha: string,
    hora: string,
    titulo: string,
    ubicacion: string,
    categoria: string)

  datatype Noticia = Noticia(id: nat, titulo: string, categoria: string)

  /** `eventosFiltrados`. */
  function EventosFiltrados(eventos: seq<Evento>, filtro: string): (r: seq<Evento>)
    ensures filtro == "todos" ==> r == eventos
    ensures filtro != "todos" ==> forall i :: 0 <= i < |r| ==> r[i] in eventos && r[i].categoria == filtro
    ensures filtro != "todos" ==> forall i :: 0 <= i < |eventos| && eventos[i].categoria == filtro ==> eventos[i] in r
  {
    PorCategoria(eventos, filtro, (e: Evento) => e.categoria)
  }

  /** `noticiasFiltradas`: the same rule over the news. */
  function NoticiasFiltradas(noticias: seq<Noticia>, filtro: string): (r: seq<Noticia>)
    ensures filtro == "todos" ==> r == noticias
    ensures filtro != "todos" ==> forall i :: 0 <= i < |r| ==> r[i] in noticias && r[i].categoria == filtro
    ensures filtro != "todos" ==> forall i :: 0 <= i < |noticias| && noticias[i].categoria == filtro ==> noticias[i] in r
  {
    PorCategoria(noticias, filtro, (n: Noticia) => n.categoria)
  }

  /** Both lists keep the page's order. */
  lemma FiltradosEnOrden(eventos: seq<Evento>, noticias: seq<Noticia>, filtroEventos: string, filtroNoticias: string)
    ensures IsSubsequence(EventosFiltrados(eventos, filtroEventos), eventos)
    ensures IsSubsequence(NoticiasFiltradas(noticias, filtroNoticias), noticias)
  {
    PorCategoriaIsSubsequence(eventos, filtroEventos, (e: Evento) => e.categoria);
    PorCategoriaIsSubsequence(noticias, filtroNoticias, (n: Noticia) => n.categoria);
  }

  /** `s.split(' ')[0]`: the text before the first space, or all of it. */
  function AntesDelPrimerEspacio(s: string): (r: string)
    ensures r <= s
    ensures ' ' !in r
    ensures |r| < |s| ==> s[|r|] == ' '
  {
    if s == [] || s[0] == ' ' then [] else [s[0]] + AntesDelPrimerEspacio(s[1..])
  }

  /** The calendar's `eventos` prop: one entry per event of the full list,
      whatever the filter, in order. */
  function FeedCalendario(eventos: seq<Evento>): (r: seq<Calendario.EventoCalendario>)
    ensures |r| == |eventos|
    ensures forall i :: 0 <= i < |r| ==>
              r[i].titulo == eventos[i].titulo && r[i].fecha == AntesDelPrimerEspacio(eventos[i].fecha)
  {
    seq(|eventos|, i requires 0 <= i < |eventos| =>
      Calendario.EventoCalendario(AntesDelPrimerEspacio(eventos[i].fecha), eventos[i].titulo))
  }

  /** The "Próximo Evento" widget: the first filtered event, shown only when
      there is one. */
  function ProximoEvento(eventos: seq<Evento>, filtro: string): (r: Option<Evento>)
    ensures r.None? <==> EventosFiltrados(eventos, filtro) == []
    ensures r.Some? ==> r.value == EventosFiltrados(eventos, filtro)[0]
  {
    var filtrados := EventosFiltrados(eventos, filtro);
    if |filtrados| > 0 then Some(filtrados[0]) else None
  }

  /** The widget shows the earliest event of the chosen category in the
      event list ('todos' counts every event). */
  lemma ProximoEventoEsElPrimero(eventos: seq<Evento>, filtro: string)
    requires ProximoEvento(eventos, filtro).Some?
    ensures exists i :: 0 <= i < |eventos| && eventos[i] == ProximoEvento(eventos, filtro).value
                        && (filtro == "todos" || eventos[i].categoria == filtro)
                        && forall j :: 0 <= j < i ==> filtro != "todos" && eventos[j].categoria != filtro
  {
    if filtro == "todos" {
      assert eventos[0] == ProximoEvento(eventos, filtro).value;
    } else {
      PorCategoriaFirst(eventos, filtro, (e: Evento) => e.categoria);
    }
  }

  /** `cat.charAt(0).toUpperCase() + cat.slice(1)`. */
  function Capitalizar(s: string): (r: string)
    ensures |r| == |s|
    ensures s != [] ==> r[0] == UpperChar(s[0]) && r[1..] == s[1..]
  {
    if s == [] then [] else [UpperChar(s[0])] + s[1..]
  }

  /** Capitalising a label twice changes nothing more. */
  lemma CapitalizarIdempotente(s: string)
    ensures Capitalizar(Capitalizar(s)) == Capitalizar(s)
  {
    if s != [] {
      UpperCharIdempotent(s[0]);
    }
  }

  /** The event filter buttons read 'Todos', 'Taller', 'Conferencia', 'Evento' and 'Reunion'. */
  lemma EtiquetasEventos()
    ensures Capitalizar("todos") == "Todos" && Capitalizar("taller") == "Taller"
    ensures Capitalizar("conferencia") == "Conferencia" && Capitalizar("evento") == "Evento"
    ensures Capitalizar("reunion") == "Reunion"
  {
  }

  /** The first event of the static list is dated "15 de Diciembre": the
      calendar receives "15" and marks the 15th of every month it shows, but
      not the 1st or the 5th. */
  lemma FeedMarcaElQuince()
    ensures var feed := FeedCalendario([Evento(1, "15 de Diciembre", "10:00 AM",
                                               "Taller de Química: Reacciones Fascinantes",
                                               "Escuela Primaria \"Semillitas\"", "taller")]);
            && feed[0].fecha == "15"
            && Calendario.TieneEvento(Some(15), feed)
            && !Calendario.TieneEvento(Some(5), feed)
            && !Calendario.TieneEvento(Some(1), feed)
  {
    var e := Evento(1, "15 de Diciembre", "10:00 AM", "Taller de Química: Reacciones Fascinantes",
                    "Escuela Primaria \"Semillitas\"", "taller");
    var feed := FeedCalendario([e]);
    assert AntesDelPrimerEspacio(e.fecha) == "15";
    assert PadTwo(15) == "15" by {
      assert Decimal(15) == Decimal(1) + [DigitChar(5)];
    }
    assert Contains("15", "15");
    Calendario.SinCeroNoMarcaDiasSimples(feed, 5);
    Calendario.SinCeroNoMarcaDiasSimples(feed, 1);
  }

  /** The page's two filter fields. */
  class PaginaEventos {
    const eventos: seq<Evento>
    const noticias: seq<Noticia>
    var filtroEventos: string
    var filtroNoticias: string

    constructor (es: seq<Evento>, ns: seq<Noticia>)
      ensures eventos == es && noticias == ns
      ensures filtroEventos == "todos" && filtroNoticias == "todos"
      ensures EventosVisibles() == es && NoticiasVisibles() == ns
    {
      eventos := es;
      noticias := ns;
      filtroEventos := "todos";
      filtroNoticias := "todos";
    }

    function EventosVisibles(): seq<Evento>
      reads this
    {
      EventosFiltrados(eventos, filtroEventos)
    }

    function NoticiasVisibles(): seq<Noticia>
      reads this
    {
      NoticiasFiltradas(noticias, filtroNoticias)
    }

    /** An event filter button (line 58): the news filter is untouched. */
    method ElegirFiltroEventos(cat: string)
      modifies this
      ensures filtroEventos == cat && filtroNoticias == old(filtroNoticias)
      ensures NoticiasVisibles() == old(NoticiasVisibles())
    {
      filtroEventos := cat;
    }

    /** A news filter button (line 90): the event filter is untouched. */
    method ElegirFiltroNoticias(cat: string)
      modifies this
      ensures filtroNoticias == cat && filtroEventos == old(filtroEventos)
      ensures EventosVisibles() == old(EventosVisibles())
    {
      filtroNoticias := cat;
    }
  }
}
