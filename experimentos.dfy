/** The experiments page (src/pages/Experimentos.jsx): four filters, their
    reset, and the detail modal. */
module Experimentos {
  import opened Base
  import opened Texto

  /** The fields of an experiment the page filters and shows. */
  datatype Experimento = Experimento(
    titulo: string,
    descripcion: string,
    categoria: string,
    dificultad: string,
    edadRecomendada: string)

  /** The search test: an empty query matches everything, otherwise the
      lower-cased query occurs in the lower-cased title or description. */
  predicate CoincideBusqueda(e: Experimento, busqueda: string)
  {
    busqueda == ""
    || Contains(Lower(e.titulo), Lower(busqueda))
    || Contains(Lower(e.descripcion), Lower(busqueda))
  }

  /** The explicit empty-query case is a shortcut: the substring test alone
      already accepts the empty query. */
  lemma BusquedaVaciaEsAtajo(e: Experimento, busqueda: string)
    ensures CoincideBusqueda(e, busqueda)
            <==> Contains(Lower(e.titulo), Lower(busqueda)) || Contains(Lower(e.descripcion), Lower(busqueda))
  {
    if busqueda == "" {
      assert Lower(busqueda) == "";
      ContainsEmpty(Lower(e.titulo));
    }
  }

  /** The predicate of `experimentosFiltrados`: 'Todas' is the wildcard of the
      three selectors. */
  predicate Coincide(e: Experimento, categoria: string, dificultad: string, edad: string, busqueda: string)
  {
    && (categoria == "Todas" || e.categoria == categoria)
    && (dificultad == "Todas" || e.dificultad == dificultad)
    && (edad == "Todas" || e.edadRecomendada == edad)
    && CoincideBusqueda(e, busqueda)
  }

  /** `experimentosFiltrados`. */
  function ExperimentosFiltrados(es: seq<Experimento>, categoria: string, dificultad: string, edad: string, busqueda: string)
    : (r: seq<Experimento>)
    ensures |r| <= |es|
    ensures forall i :: 0 <= i < |r| ==> r[i] in es && Coincide(r[i], categoria, dificultad, edad, busqueda)
    ensures forall i :: 0 <= i < |es| && Coincide(es[i], categoria, dificultad, edad, busqueda) ==> es[i] in r
  {
    Filter(es, e => Coincide(e, categoria, dificultad, edad, busqueda))
  }

  /** The shown list keeps the page's order, so "Mostrando N" never exceeds the total. */
  lemma FiltradosEnOrden(es: seq<Experimento>, categoria: string, dificultad: string, edad: string, busqueda: string)
    ensures IsSubsequence(ExperimentosFiltrados(es, categoria, dificultad, edad, busqueda), es)
  {
    FilterIsSubsequence(es, e => Coincide(e, categoria, dificultad, edad, busqueda));
  }

  /** With every selector on 'Todas' the list is cut by the search alone. */
  lemma SoloBusqueda(es: seq<Experimento>, busqueda: string)
    ensures ExperimentosFiltrados(es, "Todas", "Todas", "Todas", busqueda)
            == Filter(es, e => CoincideBusqueda(e, busqueda))
  {
    FilterEquivalent(es, e => Coincide(e, "Todas", "Todas", "Todas", busqueda), e => CoincideBusqueda(e, busqueda));
  }

  /** With all filters at their defaults every experiment is shown. */
  lemma FiltrosPorDefecto(es: seq<Experimento>)
    ensures ExperimentosFiltrados(es, "Todas", "Todas", "Todas", "") == es
  {
    FilterKeepsAll(es, e => Coincide(e, "Todas", "Todas", "Todas", ""));
  }

  /** Where a click on the open modal lands. */
  datatype Zona = Fondo | Panel | BotonX | BotonCerrar

  /** The page's state. */
  class PaginaExperimentos {
    const experimentos: seq<Experimento>
    var categoriaSeleccionada: string
    var dificultadSeleccionada: string
    var edadSeleccionada: string
    var busqueda: string
    /** `experimentoSeleccionado`: the experiment whose modal is open. */
    var seleccionado: Option<Experimento>

    constructor (es: seq<Experimento>)
      ensures experimentos == es
      ensures categoriaSeleccionada == "Todas" && dificultadSeleccionada == "Todas" && edadSeleccionada == "Todas"
      ensures busqueda == "" && seleccionado.None?
      ensures Filtrados() == es
    {
      experimentos := es;
      categoriaSeleccionada := "Todas";
      dificultadSeleccionada := "Todas";
      edadSeleccionada := "Todas";
      busqueda := "";
      seleccionado := None;
      new;
      FiltrosPorDefecto(es);
    }

    function Filtrados(): seq<Experimento>
      reads this
    {
      ExperimentosFiltrados(experimentos, categoriaSeleccionada, dificultadSeleccionada, edadSeleccionada, busqueda)
    }

    /** A category button (line 115). */
    method ElegirCategoria(categoria: string)
      modifies this
      ensures categoriaSeleccionada == categoria
      ensures dificultadSeleccionada == old(dificultadSeleccionada) && edadSeleccionada == old(edadSeleccionada)
      ensures busqueda == old(busqueda) && seleccionado == old(seleccionado)
    {
      categoriaSeleccionada := categoria;
    }

    /** A difficulty button (line 135). */
    method ElegirDificultad(dificultad: string)
      modifies this
      ensures dificultadSeleccionada == dificultad
      ensures categoriaSeleccionada == old(categoriaSeleccionada) && edadSeleccionada == old(edadSeleccionada)
      ensures busqueda == old(busqueda) && seleccionado == old(seleccionado)
    {
      dificultadSeleccionada := dificultad;
    }

    /** The age selector (lines 152-153). */
    method ElegirEdad(edad: string)
      modifies this
      ensures edadSeleccionada == edad
      ensures categoriaSeleccionada == old(categoriaSeleccionada) && dificultadSeleccionada == old(dificultadSeleccionada)
      ensures busqueda == old(busqueda) && seleccionado == old(seleccionado)
    {
      edadSeleccionada := edad;
    }

    /** Typing in the search box (lines 85-86). */
    method Buscar(texto: string)
      modifies this
      ensures busqueda == texto
      ensures categoriaSeleccionada == old(categoriaSeleccionada) && dificultadSeleccionada == old(dificultadSeleccionada)
      ensures edadSeleccionada == old(edadSeleccionada) && seleccionado == old(seleccionado)
    {
      busqueda := texto;
    }

    /** `limpiarFiltros`: back to the defaults, so the whole list is shown;
        an open modal stays open. */
    method LimpiarFiltros()
      modifies this
      ensures categoriaSeleccionada == "Todas" && dificultadSeleccionada == "Todas" && edadSeleccionada == "Todas"
      ensures busqueda == "" && seleccionado == old(seleccionado)
      ensures Filtrados() == experimentos
    {
      categoriaSeleccionada := "Todas";
      dificultadSeleccionada := "Todas";
      edadSeleccionada := "Todas";
      busqueda := "";
      FiltrosPorDefecto(experimentos);
    }

    /** Clicking a card (line 178) opens its modal. */
    method AbrirExperimento(e: Experimento)
      modifies this
      ensures seleccionado == Some(e)
      ensures categoriaSeleccionada == old(categoriaSeleccionada) && dificultadSeleccionada == old(dificultadSeleccionada)
      ensures edadSeleccionada == old(edadSeleccionada) && busqueda == old(busqueda)
    {
      seleccionado := Some(e);
    }

    /** A click on the open modal: the backdrop, '✕' and 'Cerrar' close it;
        the panel stops the click, so it stays open. */
    method ClicEnModal(zona: Zona)
      requires seleccionado.Some?
      modifies this
      ensures zona == Panel ==> seleccionado == old(seleccionado)
      ensures zona != Panel ==> seleccionado.None?
      ensures categoriaSeleccionada == old(categoriaSeleccionada) && dificultadSeleccionada == old(dificultadSeleccionada)
      ensures edadSeleccionada == old(edadSeleccionada) && busqueda == old(busqueda)
    {
      if zona != Panel {
        seleccionado := None;
      }
    }
  }
}
