/** The campaign records of src/data/campanasData.js and its two arithmetic
    helpers: the funded percentage (`calcularProgreso`) and the days left before
    a campaign closes (`calcularDiasRestantes`). Instants are integer
    milliseconds since the epoch; amounts are whole pesos. */
module CampanasData {
  import opened Base

  type Positivo = x: int | x > 0 witness 1

  /** How the detail page draws progress: the brick wall carries its size and
      the price of one brick; every other kind is a plain bar named by `tipo`. */
  datatype Visualizacion =
    | MuroLadrillos(totalLadrillos: nat, costoLadrillo: Positivo)
    | Barra(tipo: string)

  /** A donation as written in the static data. An absent or empty text field
      is "", an absent id is None (an id of 0 is falsy in the source too). */
  datatype DonacionSemilla = DonacionSemilla(
    id: Option<nat>,
    nombre: string,
    cantidad: int,
    fecha: string,
    mensaje: string)

  datatype Campana = Campana(
    id: string,
    slug: string,
    titulo: string,
    descripcion: string,
    categoria: string,
    estado: string,
    metaTotal: Positivo,
    recaudado: int,
    fechaFin: int,
    visualizacion: Visualizacion,
    opcionesDonacion: seq<int>,
    donaciones: seq<DonacionSemilla>)

  /** The category buttons of the listing page, 'Todas' first. */
  const CategoriasCampanas: seq<string> :=
    ["Todas", "Infraestructura", "Educación", "Eventos", "Equipamiento"]

  /** The state buttons of the listing page, 'todas' first. */
  const EstadosCampanas: seq<string> := ["todas", "activa", "completada", "proxima"]

  const MsPorDia: int := 1000 * 60 * 60 * 24

  /** `Math.round(num / den)`: the nearest integer, halves rounded up. */
  function RedondeoMedioArriba(num: int, den: int): (r: int)
    requires den > 0
    ensures 2 * den * r <= 2 * num + den < 2 * den * (r + 1)
  {
    (2 * num + den) / (2 * den)
  }

  /** `Math.ceil(num / den)`. */
  function Techo(num: int, den: int): (r: int)
    requires den > 0
    ensures (r - 1) * den < num <= r * den
  {
    -((-num) / den)
  }

  /** `calcularProgreso`: the funded percentage, rounded, capped at 100. */
  function CalcularProgreso(recaudado: int, meta: int): (r: int)
    requires meta > 0
    ensures r <= 100
    ensures recaudado >= 0 ==> r >= 0
    ensures recaudado >= meta ==> r == 100
    ensures r < 100 ==> 2 * meta * r <= 200 * recaudado + meta < 2 * meta * (r + 1)
    ensures r == 100 <==> 199 * meta <= 200 * recaudado
  {
    var redondeado := RedondeoMedioArriba(100 * recaudado, meta);
    MultMonotone(2 * meta, redondeado, 99);
    MultMonotone(2 * meta, 100, redondeado);
    MultMonotone(2 * meta, redondeado + 1, 0);
    MultMonotone(2 * meta, redondeado + 1, 100);
    if redondeado < 100 then redondeado else 100
  }

  /** `k * a <= k * b` when `a <= b` and `k > 0`, stated by contraposition. */
  lemma MultMonotone(k: int, a: int, b: int)
    requires k > 0
    ensures a <= b <==> k * a <= k * b
  {
    if a > b {
      assert k * a - k * b == k * (a - b);
    } else {
      assert k * b - k * a == k * (b - a);
    }
  }

  /** More money raised never lowers the displayed percentage. */
  lemma ProgresoMonotono(r1: int, r2: int, meta: int)
    requires meta > 0 && r1 <= r2
    ensures CalcularProgreso(r1, meta) <= CalcularProgreso(r2, meta)
  {
    var a := RedondeoMedioArriba(100 * r1, meta);
    var b := RedondeoMedioArriba(100 * r2, meta);
    if a > b {
      // 2m*a <= 200*r1 + m <= 200*r2 + m < 2m*(b+1) <= 2m*a
      MultMonotone(2 * meta, b + 1, a);
    }
  }

  /** `calcularDiasRestantes`, with "now" and the closing instant as
      milliseconds: whole days left, rounded up, never negative. */
  function CalcularDiasRestantes(fin: int, ahora: int): (r: nat)
    ensures r == 0 <==> fin <= ahora
    ensures r > 0 ==> (r - 1) * MsPorDia < fin - ahora <= r * MsPorDia
  {
    var dias := Techo(fin - ahora, MsPorDia);
    MultMonotone(MsPorDia, dias, 0);
    MultMonotone(MsPorDia, 0, dias - 1);
    if dias > 0 then dias else 0
  }

  /** As time passes, the days left never grow. */
  lemma DiasRestantesNoCrecen(fin: int, ahora1: int, ahora2: int)
    requires ahora1 <= ahora2
    ensures CalcularDiasRestantes(fin, ahora2) <= CalcularDiasRestantes(fin, ahora1)
  {
    var a := Techo(fin - ahora1, MsPorDia);
    var b := Techo(fin - ahora2, MsPorDia);
    if b > a {
      // (b-1)*D < fin-ahora2 <= fin-ahora1 <= a*D, so b-1 < a
      MultMonotone(MsPorDia, b - 1, a);
    }
  }

  /** Total of the amounts of a list of static donations. */
  function SumaSemilla(ds: seq<DonacionSemilla>): int
  {
    if ds == [] then 0 else SumaSemilla(ds[..|ds| - 1]) + ds[|ds| - 1].cantidad
  }

  /** The `muro-ciencia-2024` record: the one active brick-wall campaign. */
  const MuroCiencia: Campana := Campana(
    "muro-ciencia-2024",
    "muro-ciencia-2024",
    "Reconstrucción del Muro de Ciencia",
    "Ayúdanos a reconstruir el muro del foro donde realizamos talleres de ciencia para más de 200 niños mensualmente.",
    "Infraestructura",
    "activa",
    50000,
    23450,
    1738281600000, // 2025-01-31T00:00:00Z
    MuroLadrillos(100, 500),
    [250, 500, 1000, 2500, 5000],
    [ DonacionSemilla(Some(1), "María González", 500, "2024-11-20", "¡Por la educación!"),
      DonacionSemilla(Some(2), "Anónimo", 1000, "2024-11-22", ""),
      DonacionSemilla(Some(3), "Carlos Pérez", 2500, "2024-11-25", "Excelente causa"),
      DonacionSemilla(Some(4), "Ana Martínez", 500, "2024-11-28", "Mis hijos aman sus talleres"),
      DonacionSemilla(Some(5), "Luis Torres", 5000, "2024-12-01", "Apoyo total"),
      DonacionSemilla(Some(6), "Empresa XYZ", 10000, "2024-12-05", "Responsabilidad social") ])

  /** The fixture's figures: its seed donations add up to 19 500 while the
      record claims 23 450 raised, which shows as 47 %. */
  lemma MuroCienciaCifras()
    ensures SumaSemilla(MuroCiencia.donaciones) == 19500
    ensures CalcularProgreso(MuroCiencia.recaudado, MuroCiencia.metaTotal) == 47
  {
    var ds := MuroCiencia.donaciones;
    assert ds[..1][..0] == [];
    assert SumaSemilla(ds[..1]) == 500;
    assert ds[..2][..1] == ds[..1];
    assert SumaSemilla(ds[..2]) == 1500;
    assert ds[..3][..2] == ds[..2];
    assert SumaSemilla(ds[..3]) == 4000;
    assert ds[..4][..3] == ds[..3];
    assert SumaSemilla(ds[..4]) == 4500;
    assert ds[..5][..4] == ds[..4];
    assert SumaSemilla(ds[..5]) == 9500;
    assert ds[..6][..5] == ds[..5] && ds[..6] == ds;
  }
}
