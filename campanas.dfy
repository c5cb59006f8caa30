/** The campaign listing page (src/pages/Campanas.jsx): three filters, the
    split of the filtered list into sections by state, and the header figures. */
module Campanas {
  import opened Base
  import opened Texto
  import opened CampanasData

  /** The search test: the lower-cased query occurs in the lower-cased title
      or description. */
  predicate CoincideBusqueda(c: Campana, busqueda: string)
  {
    Contains(Lower(c.titulo), Lower(busqueda)) || Contains(Lower(c.descripcion), Lower(busqueda))
  }

  /** The predicate of `campanasFiltradas`: category ('Todas' is a wildcard),
      state ('todas' is a wildcard) and search all hold. */
  predicate Coincide(c: Campana, categoria: string, estado: string, busqueda: string)
  {
    && (categoria == "Todas" || c.categoria == categoria)
    && (estado == "todas" || c.estado == estado)
    && CoincideBusqueda(c, busqueda)
  }

  /** `campanasFiltradas`. */
  function CampanasFiltradas(cs: seq<Campana>, categoria: string, estado: string, busqueda: string): (r: seq<Campana>)
    ensures |r| <= |cs|
    ensures forall i :: 0 <= i < |r| ==> r[i] in cs && Coincide(r[i], categoria, estado, busqueda)
    ensures forall i :: 0 <= i < |cs| && Coincide(cs[i], categoria, estado, busqueda) ==> cs[i] in r
  {
    Filter(cs, c => Coincide(c, categoria, estado, busqueda))
  }

  /** The filtered list keeps the page's order. */
  lemma FiltradasEnOrden(cs: seq<Campana>, categoria: string, estado: string, busqueda: string)
    ensures IsSubsequence(CampanasFiltradas(cs, categoria, estado, busqueda), cs)
  {
    FilterIsSubsequence(cs, c => Coincide(c, categoria, estado, busqueda));
  }

  /** With the initial filters and an empty search every campaign is shown. */
  lemma FiltrosPorDefecto(cs: seq<Campana>)
    ensures CampanasFiltradas(cs, "Todas", "todas", "") == cs
  {
    forall i | 0 <= i < |cs|
      ensures Coincide(cs[i], "Todas", "todas", "")
    {
      ContainsEmpty(Lower(cs[i].titulo));
    }
    FilterKeepsAll(cs, c => Coincide(c, "Todas", "todas", ""));
  }

  /** A campaign whose category has no button is only reachable through
      'Todas': choosing any button other than 'Todas' hides it. */
  lemma CategoriaSinBoton(cs: seq<Campana>, categoria: string, estado: string, busqueda: string, c: Campana)
    requires categoria in CategoriasCampanas && c.categoria !in CategoriasCampanas
    requires c in CampanasFiltradas(cs, categoria, estado, busqueda)
    ensures categoria == "Todas"
  {
    var r := CampanasFiltradas(cs, categoria, estado, busqueda);
    var i :| 0 <= i < |r| && r[i] == c;
  }

  /** One of the sections below the filters: the filtered campaigns in one state. */
  function Seccion(filtradas: seq<Campana>, estado: string): (r: seq<Campana>)
    ensures |r| <= |filtradas|
    ensures forall i :: 0 <= i < |r| ==> r[i] in filtradas && r[i].estado == estado
    ensures forall i :: 0 <= i < |filtradas| && filtradas[i].estado == estado ==> filtradas[i] in r
  {
    Filter(filtradas, (c: Campana) => c.estado == estado)
  }

  /** A section is the whole list filtered once by the page filters and the
      section's state together, so it keeps the order of the page. */
  lemma SeccionEsUnFiltro(cs: seq<Campana>, categoria: string, estado: string, busqueda: string, e: string)
    ensures Seccion(CampanasFiltradas(cs, categoria, estado, busqueda), e)
            == Filter(cs, c => Coincide(c, categoria, estado, busqueda) && c.estado == e)
    ensures IsSubsequence(Seccion(CampanasFiltradas(cs, categoria, estado, busqueda), e), cs)
  {
    var p := c => Coincide(c, categoria, estado, busqueda);
    var q := (c: Campana) => c.estado == e;
    var pq := c => Coincide(c, categoria, estado, busqueda) && c.estado == e;
    FilterFilter(cs, p, q, pq);
    FilterIsSubsequence(cs, pq);
  }

  /** Sections for different states share no campaign. */
  lemma SeccionesDisjuntas(filtradas: seq<Campana>, e1: string, e2: string)
    requires e1 != e2
    ensures forall i :: 0 <= i < |Seccion(filtradas, e1)| ==> Seccion(filtradas, e1)[i] !in Seccion(filtradas, e2)
  {
    var a := Seccion(filtradas, e1);
    var b := Seccion(filtradas, e2);
    forall i | 0 <= i < |a|
      ensures a[i] !in b
    {
      assert forall j :: 0 <= j < |b| ==> b[j].estado != a[i].estado;
    }
  }

  /** With the state filter on one state, only that state's section can be
      non-empty. */
  lemma EstadoElegidoUnaSeccion(cs: seq<Campana>, categoria: string, estado: string, busqueda: string, e: string)
    requires estado != "todas" && e != estado
    ensures Seccion(CampanasFiltradas(cs, categoria, estado, busqueda), e) == []
  {
    var f := CampanasFiltradas(cs, categoria, estado, busqueda);
    FilterKeepsNone(f, (c: Campana) => c.estado == e);
  }

  /** The `reduce` of the header: the sum of `recaudado` over a list. */
  function RecaudadoTotal(cs: seq<Campana>): int
  {
    if cs == [] then 0 else RecaudadoTotal(cs[..|cs| - 1]) + cs[|cs| - 1].recaudado
  }

  /** The sum splits over concatenation, so it does not depend on how the
      list is cut. */
  lemma {:induction false} RecaudadoTotalConcatenado(a: seq<Campana>, b: seq<Campana>)
    ensures RecaudadoTotal(a + b) == RecaudadoTotal(a) + RecaudadoTotal(b)
    decreases |b|
  {
    if b == [] {
      assert a + b == a;
    } else {
      assert (a + b)[..|a + b| - 1] == a + b[..|b| - 1];
      RecaudadoTotalConcatenado(a, b[..|b| - 1]);
    }
  }

  /** No campaign raised a negative amount, so neither did all of them. */
  lemma {:induction false} RecaudadoTotalNoNegativo(cs: seq<Campana>)
    requires forall i :: 0 <= i < |cs| ==> cs[i].recaudado >= 0
    ensures RecaudadoTotal(cs) >= 0
  {
    if cs != [] {
      RecaudadoTotalNoNegativo(cs[..|cs| - 1]);
    }
  }

  /** The three header figures. */
  datatype Cabecera = Cabecera(totales: nat, activas: nat, recaudado: int)

  function CabeceraDe(cs: seq<Campana>): (r: Cabecera)
    ensures r.activas <= r.totales == |cs|
    ensures r.activas == |Filter(cs, (c: Campana) => c.estado == "activa")|
    ensures r.recaudado == RecaudadoTotal(cs)
  {
    Cabecera(|cs|, |Filter(cs, (c: Campana) => c.estado == "activa")|, RecaudadoTotal(cs))
  }

  /** The page's filter state over a fixed list of campaigns. The header
      figures read only the list, never the filters. */
  class PaginaCampanas {
    const campanas: seq<Campana>
    var categoriaSeleccionada: string
    var estadoSeleccionado: string
    var busqueda: string

    constructor (cs: seq<Campana>)
      ensures campanas == cs
      ensures categoriaSeleccionada == "Todas" && estadoSeleccionado == "todas" && busqueda == ""
      ensures Filtradas() == cs
    {
      campanas := cs;
      categoriaSeleccionada := "Todas";
      estadoSeleccionado := "todas";
      busqueda := "";
      new;
      FiltrosPorDefecto(cs);
    }

    function Filtradas(): seq<Campana>
      reads this
    {
      CampanasFiltradas(campanas, categoriaSeleccionada, estadoSeleccionado, busqueda)
    }

    function Resumen(): Cabecera
    {
      CabeceraDe(campanas)
    }

    /** A category button (lines 120-123). */
    method ElegirCategoria(categoria: string)
      modifies this
      ensures categoriaSeleccionada == categoria
      ensures estadoSeleccionado == old(estadoSeleccionado) && busqueda == old(busqueda)
    {
      categoriaSeleccionada := categoria;
    }

    /** A state button (lines 103-106). */
    method ElegirEstado(estado: string)
      modifies this
      ensures estadoSeleccionado == estado
      ensures categoriaSeleccionada == old(categoriaSeleccionada) && busqueda == old(busqueda)
    {
      estadoSeleccionado := estado;
    }

    /** Typing in the search box. */
    method Buscar(texto: string)
      modifies this
      ensures busqueda == texto
      ensures categoriaSeleccionada == old(categoriaSeleccionada) && estadoSeleccionado == old(estadoSeleccionado)
    {
      busqueda := texto;
    }

    /** 'Limpiar Filtros' (lines 187-201): the button is drawn only in the
        empty state, when no campaign passes the filters; it goes back to the
        defaults, so every campaign is shown again. */
    method LimpiarFiltros()
      requires Filtradas() == []
      modifies this
      ensures categoriaSeleccionada == "Todas" && estadoSeleccionado == "todas" && busqueda == ""
      ensures Filtradas() == campanas
    {
      categoriaSeleccionada := "Todas";
      estadoSeleccionado := "todas";
      busqueda := "";
      FiltrosPorDefecto(campanas);
    }
  }
}
