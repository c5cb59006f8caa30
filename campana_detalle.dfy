/** The campaign detail page (src/pages/CampanaDetalle.jsx): the slug lookup,
    the in-memory donation ledger seeded from the campaign's static donations,
    the brick allocation derived from the ledger, the count of placed bricks
    derived from the simulated raised amount, and the donation form. */
module CampanaDetalle {
  import opened Base
  import opened CampanasData

  /** Identity of a ledger entry: the id given in the static data, the
      `existing-<idx>` fallback, or the fresh `sim-...` token of a new
      donation (built from the clock and a random suffix, kept opaque). */
  datatype DonacionId = Dado(n: nat) | Existente(idx: nat) | Simulado(token: nat)

  /** A ledger entry: `{ id, campaña_id, cantidad, nombre, mensaje, fecha, estado }`. */
  datatype Donacion = Donacion(
    id: DonacionId,
    campanaId: string,
    cantidad: int,
    nombre: string,
    mensaje: string,
    fecha: string,
    estado: string)

  /** What a brick of the wall shows about its donor. */
  datatype InfoLadrillo = InfoLadrillo(nombre: string, mensaje: string, donacionId: DonacionId)

  const Anonimo: string := "Anónimo"

  // ---------------------------------------------------------------------------
  // Slug lookup

  /** `campanas.find(c => c.slug === slug)`: the first campaign with that slug. */
  function BuscarPorSlug(cs: seq<Campana>, slug: string): (r: Option<Campana>)
    ensures r.None? <==> forall i :: 0 <= i < |cs| ==> cs[i].slug != slug
    ensures r.Some? ==> exists i :: 0 <= i < |cs| && cs[i] == r.value && cs[i].slug == slug
                                    && forall j :: 0 <= j < i ==> cs[j].slug != slug
  {
    if cs == [] then None
    else if cs[0].slug == slug then Some(cs[0])
    else
      var r := BuscarPorSlug(cs[1..], slug);
      assert r.Some? ==> exists i :: 1 <= i < |cs| && cs[i] == r.value && cs[i].slug == slug
                                     && forall j :: 0 <= j < i ==> cs[j].slug != slug
        by {
          if r.Some? {
            var i :| 0 <= i < |cs[1..]| && cs[1..][i] == r.value && cs[1..][i].slug == slug
                     && forall j :: 0 <= j < i ==> cs[1..][j].slug != slug;
            assert cs[i + 1] == r.value;
            assert forall j :: 0 <= j < i + 1 ==> cs[j].slug != slug by {
              forall j | 0 <= j < i + 1 ensures cs[j].slug != slug {
                if j > 0 { assert cs[j] == cs[1..][j - 1]; }
              }
            }
          }
        }
      r
  }

  // ---------------------------------------------------------------------------
  // Seeding the ledger

  /** One static donation turned into a ledger entry: the id falls back to
      `existing-<idx>`, the name to 'Anónimo', the date to "now"; the entry is
      marked 'completada'. */
  function Normalizar(d: DonacionSemilla, idx: nat, campanaId: string, ahora: string): (r: Donacion)
    ensures r.cantidad == d.cantidad && r.mensaje == d.mensaje && r.campanaId == campanaId
    ensures r.estado == "completada"
    ensures r.nombre != ""
    ensures d.nombre != "" ==> r.nombre == d.nombre
    ensures d.nombre == "" ==> r.nombre == Anonimo
    ensures d.fecha != "" ==> r.fecha == d.fecha
    ensures d.fecha == "" ==> r.fecha == ahora
    ensures (d.id.None? || d.id.value == 0) <==> r.id == Existente(idx)
    ensures d.id.Some? && d.id.value != 0 ==> r.id == Dado(d.id.value)
  {
    Donacion(
      if d.id.Some? && d.id.value != 0 then Dado(d.id.value) else Existente(idx),
      campanaId,
      d.cantidad,
      if d.nombre == "" then Anonimo else d.nombre,
      d.mensaje,
      if d.fecha == "" then ahora else d.fecha,
      "completada")
  }

  /** The initial ledger: one entry per static donation, same order; empty
      when no campaign was found. */
  function Sembrar(c: Option<Campana>, ahora: string): (r: seq<Donacion>)
    ensures c.None? ==> r == []
    ensures c.Some? ==> |r| == |c.value.donaciones|
    ensures c.Some? ==> forall i :: 0 <= i < |r| ==> r[i] == Normalizar(c.value.donaciones[i], i, c.value.id, ahora)
  {
    match c
    case None => []
    case Some(campana) =>
      seq(|campana.donaciones|, i requires 0 <= i < |campana.donaciones| =>
        Normalizar(campana.donaciones[i], i, campana.id, ahora))
  }

  /** Sum of the amounts of ledger entries. */
  function Suma(ds: seq<Donacion>): int
  {
    if ds == [] then 0 else Suma(ds[..|ds| - 1]) + ds[|ds| - 1].cantidad
  }

  /** Appending an entry adds exactly its amount to the sum. */
  lemma SumaAgregar(ds: seq<Donacion>, d: Donacion)
    ensures Suma(ds + [d]) == Suma(ds) + d.cantidad
  {
    assert (ds + [d])[..|ds|] == ds;
  }

  /** Appending leaves a prefix alone and extends the suffix after it. */
  lemma AgregarConservaPrefijo(ds: seq<Donacion>, n: nat, d: Donacion)
    requires n <= |ds|
    ensures (ds + [d])[..n] == ds[..n]
    ensures (ds + [d])[n..] == ds[n..] + [d]
  {
  }

  // ---------------------------------------------------------------------------
  // Brick allocation (`donacionesPorLadrillo`)

  /** The bricks one donation pays for: the loop `for (i = 0; i < floor(cantidad / costo); i++)`
      runs this many times (none when the floor is negative). */
  function LadrillosDe(cantidad: int, costo: Positivo): (n: nat)
    ensures cantidad < costo ==> n == 0
    ensures cantidad >= 0 ==> n * costo <= cantidad < (n + 1) * costo
  {
    var q := cantidad / costo;
    if q > 0 then q else 0
  }

  function Info(d: Donacion): InfoLadrillo
  {
    InfoLadrillo(d.nombre, d.mensaje, d.id)
  }

  /** Bricks paid for by a whole ledger: the final value of `ladrilloIndex`. */
  function TotalLadrillos(ds: seq<Donacion>, costo: Positivo): nat
  {
    if ds == [] then 0
    else TotalLadrillos(ds[..|ds| - 1], costo) + LadrillosDe(ds[|ds| - 1].cantidad, costo)
  }

  /** The indices `inicio .. inicio + n - 1`. */
  function Rango(inicio: nat, n: nat): (r: set<nat>)
    ensures forall k: nat :: k in r <==> inicio <= k < inicio + n
  {
    if n == 0 then {} else Rango(inicio, n - 1) + {inicio + n - 1}
  }

  /** `n` consecutive brick indices from `inicio`, all showing `info`. */
  function Bloque(inicio: nat, n: nat, info: InfoLadrillo): (m: map<nat, InfoLadrillo>)
    ensures forall k: nat :: k in m <==> inicio <= k < inicio + n
    ensures forall k :: k in m ==> m[k] == info
  {
    map k | k in Rango(inicio, n) :: info
  }

  /** One more brick at the end of a block extends the block by one. */
  lemma BloqueCrece(previo: map<nat, InfoLadrillo>, inicio: nat, i: nat, info: InfoLadrillo)
    ensures (previo + Bloque(inicio, i, info))[inicio + i := info] == previo + Bloque(inicio, i + 1, info)
  {
    var a := (previo + Bloque(inicio, i, info))[inicio + i := info];
    var b := previo + Bloque(inicio, i + 1, info);
    assert a.Keys == b.Keys;
    assert forall k :: k in a ==> a[k] == b[k];
  }

  /** The allocation as a function of the ledger: each entry, in order, gets the
      next `LadrillosDe` indices. Its keys are exactly 0 .. total-1. */
  function Asignacion(ds: seq<Donacion>, costo: Positivo): (m: map<nat, InfoLadrillo>)
    ensures forall k: nat :: k in m <==> k < TotalLadrillos(ds, costo)
    decreases |ds|
  {
    if ds == [] then map[]
    else
      var previas := ds[..|ds| - 1];
      var ultima := ds[|ds| - 1];
      Asignacion(previas, costo)
        + Bloque(TotalLadrillos(previas, costo), LadrillosDe(ultima.cantidad, costo), Info(ultima))
  }

  /** The first brick index of entry `j`: the bricks paid for by the entries before it. */
  function Inicio(ds: seq<Donacion>, j: nat, costo: Positivo): nat
    requires j <= |ds|
  {
    TotalLadrillos(ds[..j], costo)
  }

  /** Blocks follow each other in ledger order, without gaps. */
  lemma InicioSiguiente(ds: seq<Donacion>, j: nat, costo: Positivo)
    requires j < |ds|
    ensures Inicio(ds, j + 1, costo) == Inicio(ds, j, costo) + LadrillosDe(ds[j].cantidad, costo)
  {
    assert ds[..j + 1][..j] == ds[..j];
  }

  /** Later entries start no earlier. */
  lemma {:induction false} InicioMonotono(ds: seq<Donacion>, i: nat, j: nat, costo: Positivo)
    requires i <= j <= |ds|
    ensures Inicio(ds, i, costo) <= Inicio(ds, j, costo)
    decreases j - i
  {
    if i < j {
      InicioSiguiente(ds, i, costo);
      InicioMonotono(ds, i + 1, j, costo);
    }
  }

  /** Every brick of entry `j`'s block carries that entry's name, message and id. */
  lemma {:induction false} AsignacionBloque(ds: seq<Donacion>, costo: Positivo, j: nat, k: nat)
    requires j < |ds|
    requires Inicio(ds, j, costo) <= k < Inicio(ds, j, costo) + LadrillosDe(ds[j].cantidad, costo)
    ensures k in Asignacion(ds, costo) && Asignacion(ds, costo)[k] == Info(ds[j])
    decreases |ds|
  {
    var previas := ds[..|ds| - 1];
    var n := |ds| - 1;
    if j == n {
      assert ds[..j] == previas;
    } else {
      assert previas[..j] == ds[..j];
      assert previas[j] == ds[j];
      AsignacionBloque(previas, costo, j, k);
      InicioSiguiente(ds, j, costo);
      InicioMonotono(ds, j + 1, n, costo);
      assert ds[..n] == previas;
    }
  }

  /** Appending an entry keeps every existing brick as it was and adds the new
      entry's block right after the last allocated brick. */
  lemma AsignacionAlAgregar(ds: seq<Donacion>, d: Donacion, costo: Positivo)
    ensures Asignacion(ds + [d], costo)
            == Asignacion(ds, costo) + Bloque(TotalLadrillos(ds, costo), LadrillosDe(d.cantidad, costo), Info(d))
    ensures TotalLadrillos(ds + [d], costo) == TotalLadrillos(ds, costo) + LadrillosDe(d.cantidad, costo)
    ensures forall k :: k in Asignacion(ds, costo) ==>
              k in Asignacion(ds + [d], costo) && Asignacion(ds + [d], costo)[k] == Asignacion(ds, costo)[k]
  {
    assert (ds + [d])[..|ds|] == ds;
  }

  /** `donacionesPorLadrillo`: walks the ledger in order, filling a dictionary
      and a running brick counter; empty unless the campaign draws a wall. */
  method DonacionesPorLadrillo(vis: Visualizacion, donaciones: seq<Donacion>)
    returns (m: map<nat, InfoLadrillo>)
    ensures !vis.MuroLadrillos? ==> m == map[]
    ensures vis.MuroLadrillos? ==> m == Asignacion(donaciones, vis.costoLadrillo)
  {
    m := map[];
    if !vis.MuroLadrillos? {
      return;
    }
    var costo := vis.costoLadrillo;
    var ladrilloIndex: nat := 0;
    var j := 0;
    while j < |donaciones|
      invariant 0 <= j <= |donaciones|
      invariant ladrilloIndex == TotalLadrillos(donaciones[..j], costo)
      invariant m == Asignacion(donaciones[..j], costo)
    {
      var donacion := donaciones[j];
      m, ladrilloIndex := ColocarLadrillos(m, ladrilloIndex, donacion.cantidad / costo, Info(donacion));
      assert donaciones[..j + 1] == donaciones[..j] + [donacion];
      AsignacionAlAgregar(donaciones[..j], donacion, costo);
      j := j + 1;
    }
    assert donaciones[..|donaciones|] == donaciones;
  }

  /** The inner loop of `donacionesPorLadrillo`: `cuantos` bricks from
      `inicio` get `info`; a count below one places nothing. */
  method ColocarLadrillos(m0: map<nat, InfoLadrillo>, inicio: nat, cuantos: int, info: InfoLadrillo)
    returns (m: map<nat, InfoLadrillo>, siguiente: nat)
    ensures var n := if cuantos > 0 then cuantos else 0;
            m == m0 + Bloque(inicio, n, info) && siguiente == inicio + n
  {
    m := m0;
    siguiente := inicio;
    var i := 0;
    while i < cuantos
      invariant 0 <= i <= (if cuantos > 0 then cuantos else 0)
      invariant siguiente == inicio + i
      invariant m == m0 + Bloque(inicio, i, info)
    {
      BloqueCrece(m0, inicio, i, info);
      m := m[siguiente := info];
      siguiente := siguiente + 1;
      i := i + 1;
    }
  }

  // ---------------------------------------------------------------------------
  // Placed bricks

  /** `ladrillosColocados`: the share of the wall the raised amount covers,
      rounded down and not capped; 0 for campaigns without a wall. */
  function LadrillosColocados(c: Campana, recaudado: int): (r: int)
    ensures !c.visualizacion.MuroLadrillos? ==> r == 0
    ensures c.visualizacion.MuroLadrillos? ==>
              r * c.metaTotal <= recaudado * c.visualizacion.totalLadrillos < (r + 1) * c.metaTotal
  {
    match c.visualizacion
    case MuroLadrillos(total, _) => (recaudado * total) / c.metaTotal
    case Barra(_) => 0
  }

  /** The "Pendientes" figure of the legend. */
  function Pendientes(total: nat, colocados: int): int
  {
    total - colocados
  }

  /** Once a wall campaign is funded past one extra brick's worth, the pending
      count shown in the legend is negative: nothing clamps it. */
  lemma PendientesNegativos(c: Campana, recaudado: int)
    requires c.visualizacion.MuroLadrillos?
    requires recaudado * c.visualizacion.totalLadrillos >= (c.visualizacion.totalLadrillos + 1) * c.metaTotal
    ensures Pendientes(c.visualizacion.totalLadrillos, LadrillosColocados(c, recaudado)) < 0
  {
    var total := c.visualizacion.totalLadrillos;
    var r := LadrillosColocados(c, recaudado);
    MultMonotone(c.metaTotal, total + 1, r + 1);
  }

  /** The allocation the page shows for a ledger: empty unless a wall is drawn. */
  function AsignacionDe(c: Option<Campana>, ds: seq<Donacion>): map<nat, InfoLadrillo>
  {
    if c.Some? && c.value.visualizacion.MuroLadrillos?
    then Asignacion(ds, c.value.visualizacion.costoLadrillo)
    else map[]
  }

  /** A new donation never moves a brick that was already allocated. */
  lemma AgregarConservaLadrillos(c: Option<Campana>, ds: seq<Donacion>, d: Donacion)
    ensures forall k :: k in AsignacionDe(c, ds) ==>
              k in AsignacionDe(c, ds + [d]) && AsignacionDe(c, ds + [d])[k] == AsignacionDe(c, ds)[k]
  {
    if c.Some? && c.value.visualizacion.MuroLadrillos? {
      AsignacionAlAgregar(ds, d, c.value.visualizacion.costoLadrillo);
    }
  }

  /** A brick of a wall of `total` bricks shows its tooltip only while
      hovered, placed, and carrying donor info. */
  predicate MuestraTooltip(hover: Option<nat>, indice: nat, total: nat, colocados: int, asignacion: map<nat, InfoLadrillo>)
  {
    indice < total && hover == Some(indice) && indice in asignacion && indice < colocados
  }

  // ---------------------------------------------------------------------------
  // Amount selection

  /** `xs.slice(0, k)`: the first `k` elements, or all of them when there are
      fewer. */
  function Primeras<T>(xs: seq<T>, k: nat): (r: seq<T>)
    ensures r <= xs
    ensures |r| == k || (|r| == |xs| < k)
  {
    if |xs| < k then xs else xs[..k]
  }

  /** `cantidadSeleccionada || parseFloat(cantidadPersonalizada)` followed by the
      check `!cantidad || cantidad <= 0`: the amount to donate, or None when
      the donation is refused. `personalizada` is the parsed custom text
      (None when it does not parse). */
  function CantidadADonar(seleccionada: Option<int>, personalizada: Option<int>): (r: Option<int>)
    ensures r.Some? ==> r.value > 0
    ensures seleccionada.Some? && seleccionada.value != 0 ==>
              (r.Some? <==> seleccionada.value > 0) && (r.Some? ==> r.value == seleccionada.value)
    ensures seleccionada.None? || seleccionada.value == 0 ==>
              (r.Some? <==> personalizada.Some? && personalizada.value > 0)
              && (r.Some? ==> r.value == personalizada.value)
  {
    var cantidad := if seleccionada.Some? && seleccionada.value != 0 then seleccionada else personalizada;
    if cantidad.Some? && cantidad.value > 0 then cantidad else None
  }

  // ---------------------------------------------------------------------------
  // Page state

  /** The page's state for one slug. The ledger and `recaudadoSimulado` are
      separate: the latter starts from the record's `recaudado`, not from the
      sum of the seed donations, and both move only when a donation is
      accepted. The modal can only be opened on an active campaign, and the
      form's inputs and buttons exist only while the modal is open and not
      showing the confirmation, so their methods require that. */
  class PaginaDetalle {
    const campana: Option<Campana>
    ghost const semilla: seq<Donacion>
    var donacionesCompletas: seq<Donacion>
    var recaudadoSimulado: int
    var modalDonacion: bool
    var cantidadSeleccionada: Option<int>
    var cantidadPersonalizada: Option<int>
    var nombreDonador: string
    var mensaje: string
    var mostrarConfirmacion: bool
    /** Confirmation timers scheduled and not yet fired. */
    var cierresPendientes: nat

      /** The ledger only grows; everything past the seed is an accepted
        donation with a positive amount, and the simulated raised amount is the
        record's figure plus exactly those amounts. The modal is only ever
        open on the page of an active campaign. */
    ghost predicate Valid()
      reads this
    {
      && |semilla| <= |donacionesCompletas|
      && donacionesCompletas[..|semilla|] == semilla
      && (forall i :: |semilla| <= i < |donacionesCompletas| ==> donacionesCompletas[i].cantidad > 0)
      && recaudadoSimulado == RecaudadoInicial(campana) + Suma(donacionesCompletas[|semilla|..])
      && (modalDonacion ==> campana.Some? && campana.value.estado == "activa")
    }

    static function RecaudadoInicial(c: Option<Campana>): int
    {
      if c.Some? then c.value.recaudado else 0
    }

    constructor (campanas: seq<Campana>, slug: string, ahora: string)
      ensures campana == BuscarPorSlug(campanas, slug)
      ensures semilla == Sembrar(campana, ahora) && donacionesCompletas == semilla
      ensures recaudadoSimulado == RecaudadoInicial(campana)
      ensures !modalDonacion && !mostrarConfirmacion && cierresPendientes == 0
      ensures cantidadSeleccionada.None? && cantidadPersonalizada.None?
      ensures nombreDonador == "" && mensaje == ""
      ensures Valid()
    {
      var c := BuscarPorSlug(campanas, slug);
      campana := c;
      semilla := Sembrar(c, ahora);
      donacionesCompletas := Sembrar(c, ahora);
      recaudadoSimulado := if c.Some? then c.value.recaudado else 0;
      modalDonacion := false;
      cantidadSeleccionada := None;
      cantidadPersonalizada := None;
      nombreDonador := "";
      mensaje := "";
      mostrarConfirmacion := false;
      cierresPendientes := 0;
      new;
      assert donacionesCompletas[|semilla|..] == [];
    }

    /** The brick allocation the wall shows for the current ledger. */
    function AsignacionActual(): map<nat, InfoLadrillo>
      reads this
    {
      AsignacionDe(campana, donacionesCompletas)
    }

    /** The placed-brick count for the current simulated raised amount. */
    function ColocadosActuales(): int
      reads this
    {
      if campana.Some? then LadrillosColocados(campana.value, recaudadoSimulado) else 0
    }

    /** "Donar Ahora" (lines 484-486), drawn only for an active campaign. */
    method AbrirModal()
      requires Valid() && campana.Some? && campana.value.estado == "activa"
      modifies this
      ensures Valid()
      ensures modalDonacion
      ensures donacionesCompletas == old(donacionesCompletas) && recaudadoSimulado == old(recaudadoSimulado)
      ensures cantidadSeleccionada == old(cantidadSeleccionada) && cantidadPersonalizada == old(cantidadPersonalizada)
      ensures nombreDonador == old(nombreDonador) && mensaje == old(mensaje)
      ensures mostrarConfirmacion == old(mostrarConfirmacion) && cierresPendientes == old(cierresPendientes)
    {
      modalDonacion := true;
    }

    /** "Cancelar" (line 669): closes the modal and keeps what was typed. */
    method CerrarModal()
      requires Valid() && modalDonacion && !mostrarConfirmacion
      modifies this
      ensures Valid()
      ensures !modalDonacion
      ensures donacionesCompletas == old(donacionesCompletas) && recaudadoSimulado == old(recaudadoSimulado)
      ensures cantidadSeleccionada == old(cantidadSeleccionada) && cantidadPersonalizada == old(cantidadPersonalizada)
      ensures nombreDonador == old(nombreDonador) && mensaje == old(mensaje)
      ensures mostrarConfirmacion == old(mostrarConfirmacion) && cierresPendientes == old(cierresPendientes)
    {
      modalDonacion := false;
    }

    /** A suggested amount in the sidebar (lines 517-529), drawn for each of
        an active campaign's options: selects it and opens the modal; the
        custom text is left as it was. */
    method ElegirSugerida(cantidad: int)
      requires Valid() && campana.Some? && campana.value.estado == "activa"
      requires cantidad in campana.value.opcionesDonacion
      modifies this
      ensures Valid()
      ensures cantidadSeleccionada == Some(cantidad) && modalDonacion
      ensures cantidadPersonalizada == old(cantidadPersonalizada)
      ensures donacionesCompletas == old(donacionesCompletas) && recaudadoSimulado == old(recaudadoSimulado)
      ensures nombreDonador == old(nombreDonador) && mensaje == old(mensaje)
      ensures mostrarConfirmacion == old(mostrarConfirmacion) && cierresPendientes == old(cierresPendientes)
    {
      cantidadSeleccionada := Some(cantidad);
      modalDonacion := true;
    }

    /** A preset in the modal (lines 589-595), drawn for the first four of the
        campaign's options only: selects it and clears the custom field. */
    method ElegirPreset(cantidad: int)
      requires Valid() && modalDonacion && !mostrarConfirmacion
      requires campana.Some? && cantidad in Primeras(campana.value.opcionesDonacion, 4)
      modifies this
      ensures Valid()
      ensures cantidadSeleccionada == Some(cantidad) && cantidadPersonalizada.None?
      ensures modalDonacion == old(modalDonacion)
      ensures donacionesCompletas == old(donacionesCompletas) && recaudadoSimulado == old(recaudadoSimulado)
      ensures nombreDonador == old(nombreDonador) && mensaje == old(mensaje)
      ensures mostrarConfirmacion == old(mostrarConfirmacion) && cierresPendientes == old(cierresPendientes)
    {
      cantidadSeleccionada := Some(cantidad);
      cantidadPersonalizada := None;
    }

    /** Typing a custom amount (lines 621-624): stores it and clears the preset. */
    method EscribirPersonalizada(valor: Option<int>)
      requires Valid() && modalDonacion && !mostrarConfirmacion
      modifies this
      ensures Valid()
      ensures cantidadPersonalizada == valor && cantidadSeleccionada.None?
      ensures modalDonacion == old(modalDonacion)
      ensures donacionesCompletas == old(donacionesCompletas) && recaudadoSimulado == old(recaudadoSimulado)
      ensures nombreDonador == old(nombreDonador) && mensaje == old(mensaje)
      ensures mostrarConfirmacion == old(mostrarConfirmacion) && cierresPendientes == old(cierresPendientes)
    {
      cantidadPersonalizada := valor;
      cantidadSeleccionada := None;
    }

    /** The name field (line 640). */
    method EscribirNombre(valor: string)
      requires Valid() && modalDonacion && !mostrarConfirmacion
      modifies this
      ensures Valid()
      ensures nombreDonador == valor && mensaje == old(mensaje)
      ensures cantidadSeleccionada == old(cantidadSeleccionada) && cantidadPersonalizada == old(cantidadPersonalizada)
      ensures modalDonacion == old(modalDonacion)
      ensures donacionesCompletas == old(donacionesCompletas) && recaudadoSimulado == old(recaudadoSimulado)
      ensures mostrarConfirmacion == old(mostrarConfirmacion) && cierresPendientes == old(cierresPendientes)
    {
      nombreDonador := valor;
    }

    /** The message field (line 652). */
    method EscribirMensaje(valor: string)
      requires Valid() && modalDonacion && !mostrarConfirmacion
      modifies this
      ensures Valid()
      ensures mensaje == valor && nombreDonador == old(nombreDonador)
      ensures cantidadSeleccionada == old(cantidadSeleccionada) && cantidadPersonalizada == old(cantidadPersonalizada)
      ensures modalDonacion == old(modalDonacion)
      ensures donacionesCompletas == old(donacionesCompletas) && recaudadoSimulado == old(recaudadoSimulado)
      ensures mostrarConfirmacion == old(mostrarConfirmacion) && cierresPendientes == old(cierresPendientes)
    {
      mensaje := valor;
    }

    /** `procesarDonacion`. A refused amount changes nothing. An accepted one
        appends exactly one entry at the end of the ledger, raises
        `recaudadoSimulado` by exactly the amount, keeps every brick already
        allocated, shows the confirmation and schedules its timer. */
    method ProcesarDonacion(token: nat, ahora: string) returns (aceptada: bool)
      requires Valid() && campana.Some?
      requires modalDonacion && !mostrarConfirmacion
      modifies this
      ensures Valid()
      ensures aceptada <==> CantidadADonar(old(cantidadSeleccionada), old(cantidadPersonalizada)).Some?
      ensures !aceptada ==> donacionesCompletas == old(donacionesCompletas) && recaudadoSimulado == old(recaudadoSimulado)
                            && mostrarConfirmacion == old(mostrarConfirmacion) && cierresPendientes == old(cierresPendientes)
      ensures aceptada ==>
        var cantidad := CantidadADonar(old(cantidadSeleccionada), old(cantidadPersonalizada)).value;
        && donacionesCompletas == old(donacionesCompletas) + [Donacion(
             Simulado(token), campana.value.id, cantidad,
             if old(nombreDonador) == "" then Anonimo else old(nombreDonador),
             old(mensaje), ahora, "completada")]
        && recaudadoSimulado == old(recaudadoSimulado) + cantidad
        && mostrarConfirmacion && cierresPendientes == old(cierresPendientes) + 1
      ensures forall k :: k in old(AsignacionActual()) ==>
                k in AsignacionActual() && AsignacionActual()[k] == old(AsignacionActual())[k]
      ensures modalDonacion == old(modalDonacion)
      ensures cantidadSeleccionada == old(cantidadSeleccionada) && cantidadPersonalizada == old(cantidadPersonalizada)
      ensures nombreDonador == old(nombreDonador) && mensaje == old(mensaje)
    {
      var cantidad := CantidadADonar(cantidadSeleccionada, cantidadPersonalizada);
      if cantidad.None? {
        return false;
      }
      var nueva := Donacion(
        Simulado(token), campana.value.id, cantidad.value,
        if nombreDonador == "" then Anonimo else nombreDonador,
        mensaje, ahora, "completada");
      ghost var previas := donacionesCompletas;
      donacionesCompletas := donacionesCompletas + [nueva];
      recaudadoSimulado := recaudadoSimulado + cantidad.value;
      mostrarConfirmacion := true;
      cierresPendientes := cierresPendientes + 1;
      aceptada := true;

      AgregarConservaPrefijo(previas, |semilla|, nueva);
      SumaAgregar(previas[|semilla|..], nueva);
      AgregarConservaLadrillos(campana, previas, nueva);
    }

    /** The confirmation timer fires (lines 263-270): the modal closes and the
        form is emptied; the ledger and the raised amount stay. */
    method ConfirmacionExpira()
      requires Valid() && cierresPendientes > 0
      modifies this
      ensures Valid()
      ensures !modalDonacion && !mostrarConfirmacion
      ensures cantidadSeleccionada.None? && cantidadPersonalizada.None?
      ensures nombreDonador == "" && mensaje == ""
      ensures cierresPendientes == old(cierresPendientes) - 1
      ensures donacionesCompletas == old(donacionesCompletas) && recaudadoSimulado == old(recaudadoSimulado)
    {
      modalDonacion := false;
      mostrarConfirmacion := false;
      cantidadSeleccionada := None;
      cantidadPersonalizada := None;
      nombreDonador := "";
      mensaje := "";
      cierresPendientes := cierresPendientes - 1;
    }
  }

  // ---------------------------------------------------------------------------
  // The brick-wall fixture

  /** On the `muro-ciencia-2024` page the six seed donations pay for 39 bricks
      (1 + 2 + 5 + 1 + 10 + 20) while 46 are drawn as placed, so bricks 39 to 45
      are placed but show no tooltip when hovered. */
  lemma MuroCienciaLadrillos(ahora: string)
    ensures TotalLadrillos(Sembrar(Some(MuroCiencia), ahora), 500) == 39
    ensures LadrillosColocados(MuroCiencia, MuroCiencia.recaudado) == 46
    ensures forall k: nat :: 39 <= k < 46 ==>
              !MuestraTooltip(Some(k), k, 100, 46, AsignacionDe(Some(MuroCiencia), Sembrar(Some(MuroCiencia), ahora)))
  {
    var ds := Sembrar(Some(MuroCiencia), ahora);
    assert ds[..1][..0] == [];
    assert TotalLadrillos(ds[..1], 500) == 1;
    assert ds[..2][..1] == ds[..1];
    assert TotalLadrillos(ds[..2], 500) == 3;
    assert ds[..3][..2] == ds[..2];
    assert TotalLadrillos(ds[..3], 500) == 8;
    assert ds[..4][..3] == ds[..3];
    assert TotalLadrillos(ds[..4], 500) == 9;
    assert ds[..5][..4] == ds[..4];
    assert TotalLadrillos(ds[..5], 500) == 19;
    assert ds[..6][..5] == ds[..5] && ds[..6] == ds;
  }

  /** A 5 000 donation on that page: the simulated raised amount becomes 28 450,
      the bar shows 57 %, and the new donor owns the ten bricks 39 to 48. */
  method DonarCincoMilEnMuroCiencia(ahora: string) returns (pagina: PaginaDetalle)
    ensures pagina.recaudadoSimulado == 28450
    ensures CalcularProgreso(pagina.recaudadoSimulado, MuroCiencia.metaTotal) == 57
    ensures |pagina.donacionesCompletas| == 7
    ensures forall k: nat :: 39 <= k < 49 ==>
              k in pagina.AsignacionActual() && pagina.AsignacionActual()[k].donacionId == Simulado(0)
  {
    pagina := new PaginaDetalle([MuroCiencia], "muro-ciencia-2024", ahora);
    MuroCienciaLadrillos(ahora);
    pagina.ElegirSugerida(5000);
    var aceptada := pagina.ProcesarDonacion(0, ahora);
    var previas := Sembrar(Some(MuroCiencia), ahora);
    var nueva := pagina.donacionesCompletas[6];
    assert pagina.donacionesCompletas == previas + [nueva];
    AsignacionAlAgregar(previas, nueva, 500);
    assert pagina.AsignacionActual() == Asignacion(previas, 500) + Bloque(39, 10, Info(nueva));
  }
}
