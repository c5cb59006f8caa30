/** The campaign card of the listing page (src/components/CampanaCard.jsx):
    the state badge with its fallback, the progress bar and its colour tier,
    the footer line, and the link to the detail page. */
module CampanaCard {
  import opened Base
  import opened Texto
  import opened CampanasData
  import NavBar

  /** One entry of `estadoConfig`: the badge text and its style class. */
  datatype ConfigEstado = ConfigEstado(badge: string, color: string, badgeColor: string)

  const ConfigActiva := ConfigEstado("Activa", "bg-emerald-100 text-emerald-700", "badge-success")
  const ConfigCompletada := ConfigEstado("Completada", "bg-blue-100 text-blue-700", "badge-info")
  const ConfigProxima := ConfigEstado("Próximamente", "bg-purple-100 text-purple-700", "badge-secondary")

  /** `estadoConfig[estado] || estadoConfig.activa`: the three known states
      have their own badge; any other text falls back to the active one. */
  function Configuracion(estado: string): (r: ConfigEstado)
    ensures estado == "completada" ==> r == ConfigCompletada
    ensures estado == "proxima" ==> r == ConfigProxima
    ensures estado !in {"completada", "proxima"} ==> r == ConfigActiva
  {
    if estado == "activa" then ConfigActiva
    else if estado == "completada" then ConfigCompletada
    else if estado == "proxima" then ConfigProxima
    else ConfigActiva
  }

  /** The colour tiers of the progress bar, from lowest to highest. */
  datatype Tono = Cian | Azul | Indigo | Esmeralda

  function Rango(t: Tono): nat
  {
    match t
    case Cian => 0
    case Azul => 1
    case Indigo => 2
    case Esmeralda => 3
  }

  /** The threshold chain at lines 98-104. */
  function TonoDe(progreso: int): (t: Tono)
    ensures t == Esmeralda <==> progreso >= 100
    ensures t == Indigo <==> 75 <= progreso < 100
    ensures t == Azul <==> 50 <= progreso < 75
    ensures t == Cian <==> progreso < 50
  {
    if progreso >= 100 then Esmeralda
    else if progreso >= 75 then Indigo
    else if progreso >= 50 then Azul
    else Cian
  }

  /** A higher percentage never shows a lower tier. */
  lemma TonoMonotono(p: int, q: int)
    requires p <= q
    ensures Rango(TonoDe(p)) <= Rango(TonoDe(q))
  {
  }

  /** Because the percentage is clamped, the emerald tier appears exactly when
      the card reads 100 %, that is when the raised amount rounds to the goal. */
  lemma EsmeraldaSiiCompleta(recaudado: int, meta: int)
    requires meta > 0
    ensures TonoDe(CalcularProgreso(recaudado, meta)) == Esmeralda <==> CalcularProgreso(recaudado, meta) == 100
    ensures TonoDe(CalcularProgreso(recaudado, meta)) == Esmeralda <==> 199 * meta <= 200 * recaudado
  {
  }

  /** The footer text of an active campaign (lines 134-136). */
  function EtiquetaDias(dias: nat): (r: string)
    ensures dias == 0 ==> r == "Último día"
    ensures dias == 1 ==> r == "1 día restante"
    ensures dias > 1 ==> r == Decimal(dias) + " días restantes"
  {
    if dias > 0 then
      Decimal(dias) + " día" + (if dias != 1 then "s" else "") + " restante" + (if dias != 1 then "s" else "")
    else "Último día"
  }

  /** The label starts with the number of days, which reads back as that
      number, and ends in 's' exactly when the number is not 1. */
  lemma EtiquetaDiasLegible(dias: nat)
    requires dias > 0
    ensures Decimal(dias) <= EtiquetaDias(dias)
    ensures ParseDecimal(EtiquetaDias(dias)[..|Decimal(dias)|]) == dias
    ensures EtiquetaDias(dias)[|EtiquetaDias(dias)| - 1] == 's' <==> dias != 1
  {
    var r := EtiquetaDias(dias);
    DecimalRoundTrip(dias);
    assert r[..|Decimal(dias)|] == Decimal(dias);
  }

  /** The footer of a card. */
  datatype Pie = Dias(texto: string) | MetaAlcanzada | SinPie

  /** What a card shows for a campaign at instant `ahora`. */
  datatype Vista = Vista(
    enlace: string,
    config: ConfigEstado,
    barra: Option<(int, Tono)>,
    pie: Pie)

  /** The card for one campaign. */
  function Tarjeta(c: Campana, ahora: int): (v: Vista)
    ensures v.config == Configuracion(c.estado)
    ensures v.barra.Some? <==> c.estado != "proxima"
    ensures v.barra.Some? ==> v.barra.value.0 == CalcularProgreso(c.recaudado, c.metaTotal)
    ensures v.barra.Some? ==> v.barra.value.1 == TonoDe(v.barra.value.0)
    ensures v.barra.Some? ==> (v.barra.value.1 == Esmeralda <==> v.barra.value.0 == 100)
    ensures c.estado == "activa" <==> v.pie.Dias?
    ensures c.estado == "completada" <==> v.pie.MetaAlcanzada?
    ensures v.pie.Dias? ==> v.pie.texto == EtiquetaDias(CalcularDiasRestantes(c.fechaFin, ahora))
    ensures v.pie.Dias? ==> (v.pie.texto == "Último día" <==> c.fechaFin <= ahora)
    ensures v.enlace == Enlace(c.slug) && NavBar.IsActive(v.enlace, "/campanas")
  {
    var progreso := CalcularProgreso(c.recaudado, c.metaTotal);
    var dias := CalcularDiasRestantes(c.fechaFin, ahora);
    EtiquetaDiasUltimo(dias);
    EnlaceActivaCampanas(c.slug);
    Vista(
      Enlace(c.slug),
      Configuracion(c.estado),
      if c.estado != "proxima" then Some((progreso, TonoDe(progreso))) else None,
      if c.estado == "activa" then Dias(EtiquetaDias(dias))
      else if c.estado == "completada" then MetaAlcanzada
      else SinPie)
  }

  /** "Último día" is only the label of zero days. */
  lemma EtiquetaDiasUltimo(dias: nat)
    ensures EtiquetaDias(dias) == "Último día" <==> dias == 0
  {
    if dias > 0 {
      assert EtiquetaDias(dias)[0] == Decimal(dias)[0];
      assert '0' <= Decimal(dias)[0] <= '9';
    }
  }

  /** The link target of a card: the detail route, then the slug. */
  function Enlace(slug: string): (r: string)
    ensures StartsWith(r, "/campanas/")
    ensures |r| == |"/campanas/"| + |slug| && r[|"/campanas/"|..] == slug
  {
    "/campanas/" + slug
  }

  /** Different slugs give different links, so each card opens its own campaign. */
  lemma EnlaceInyectivo(a: string, b: string)
    requires Enlace(a) == Enlace(b)
    ensures a == b
  {
    assert a == Enlace(a)[|"/campanas/"|..];
  }

  /** While a campaign's detail page is open, the 'Campañas' entry of the
      navigation bar is highlighted. */
  lemma EnlaceActivaCampanas(slug: string)
    ensures NavBar.IsActive(Enlace(slug), "/campanas")
  {
    assert "/campanas" <= Enlace(slug);
  }
}
