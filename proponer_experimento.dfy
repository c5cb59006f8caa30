/** The experiment proposal form (src/pages/ProponerExperimento.jsx): a record
    of eight text fields edited one at a time, the "sent" banner, and the reset
    that follows it. */
module ProponerExperimento {

  datatype Formulario = Formulario(
    nombre: string,
    email: string,
    titulo: string,
    descripcion: string,
    materiales: string,
    duracion: string,
    nivelEdad: string,
    tipo: string)

  /** The `name` attribute of each input. */
  datatype Campo = Nombre | Email | Titulo | Descripcion | Materiales | Duracion | NivelEdad | Tipo

  /** The blank form: empty texts, '15-30 minutos', 'primaria' and 'simple'. */
  const Inicial: Formulario :=
    Formulario("", "", "", "", "", "15-30 minutos", "primaria", "simple")

  /** `formData[name]`. */
  function Leer(f: Formulario, c: Campo): string
  {
    match c
    case Nombre => f.nombre
    case Email => f.email
    case Titulo => f.titulo
    case Descripcion => f.descripcion
    case Materiales => f.materiales
    case Duracion => f.duracion
    case NivelEdad => f.nivelEdad
    case Tipo => f.tipo
  }

  /** `{ ...prev, [name]: value }`: the named field takes the value, every
      other field keeps its own. */
  function Actualizar(f: Formulario, c: Campo, valor: string): (r: Formulario)
    ensures Leer(r, c) == valor
    ensures forall otro :: otro != c ==> Leer(r, otro) == Leer(f, otro)
  {
    match c
    case Nombre => f.(nombre := valor)
    case Email => f.(email := valor)
    case Titulo => f.(titulo := valor)
    case Descripcion => f.(descripcion := valor)
    case Materiales => f.(materiales := valor)
    case Duracion => f.(duracion := valor)
    case NivelEdad => f.(nivelEdad := valor)
    case Tipo => f.(tipo := valor)
  }

  /** Two forms that read the same in every field are the same form. */
  lemma IgualesCampoACampo(f: Formulario, g: Formulario)
    requires forall c :: Leer(f, c) == Leer(g, c)
    ensures f == g
  {
    assert Leer(f, Nombre) == Leer(g, Nombre) && Leer(f, Email) == Leer(g, Email);
    assert Leer(f, Titulo) == Leer(g, Titulo) && Leer(f, Descripcion) == Leer(g, Descripcion);
    assert Leer(f, Materiales) == Leer(g, Materiales) && Leer(f, Duracion) == Leer(g, Duracion);
    assert Leer(f, NivelEdad) == Leer(g, NivelEdad) && Leer(f, Tipo) == Leer(g, Tipo);
  }

  /** Writing back what a field holds changes nothing. */
  lemma ActualizarConLoMismo(f: Formulario, c: Campo)
    ensures Actualizar(f, c, Leer(f, c)) == f
  {
    IgualesCampoACampo(Actualizar(f, c, Leer(f, c)), f);
  }

  /** The last edit of a field wins. */
  lemma UltimaEdicionGana(f: Formulario, c: Campo, v1: string, v2: string)
    ensures Actualizar(Actualizar(f, c, v1), c, v2) == Actualizar(f, c, v2)
  {
    IgualesCampoACampo(Actualizar(Actualizar(f, c, v1), c, v2), Actualizar(f, c, v2));
  }

  /** Edits to different fields can be made in either order. */
  lemma EdicionesIndependientes(f: Formulario, c1: Campo, v1: string, c2: Campo, v2: string)
    requires c1 != c2
    ensures Actualizar(Actualizar(f, c1, v1), c2, v2) == Actualizar(Actualizar(f, c2, v2), c1, v1)
  {
    IgualesCampoACampo(Actualizar(Actualizar(f, c1, v1), c2, v2), Actualizar(Actualizar(f, c2, v2), c1, v1));
  }

  /** The inputs marked `required`: the browser refuses to submit the form
      while any of them is empty. */
  predicate Requerido(c: Campo)
  {
    c in {Nombre, Email, Titulo, Descripcion, Materiales}
  }

  /** Every required input holds some text. */
  predicate Completo(f: Formulario)
  {
    forall c :: Requerido(c) ==> Leer(f, c) != ""
  }

  /** The blank form cannot be submitted: its required texts are empty. */
  lemma InicialIncompleto()
    ensures !Completo(Inicial)
    ensures forall c :: Requerido(c) <==> Leer(Inicial, c) == ""
  {
    assert Leer(Inicial, Nombre) == "";
  }

  /** Editing keeps a complete form complete unless a required input is emptied,
      and filling a required input is what an incomplete form needs. */
  lemma EdicionYCompletitud(f: Formulario, c: Campo, valor: string)
    ensures Completo(f) && (Requerido(c) ==> valor != "") ==> Completo(Actualizar(f, c, valor))
    ensures Requerido(c) && valor == "" ==> !Completo(Actualizar(f, c, valor))
  {
    if Requerido(c) && valor == "" {
      assert Leer(Actualizar(f, c, valor), c) == "";
    }
  }

  /** The page's state. */
  class PaginaPropuesta {
    var formData: Formulario
    var enviado: bool
    /** Reset timers scheduled by submissions and not yet fired. */
    var reiniciosPendientes: nat

    constructor ()
      ensures formData == Inicial && !enviado && reiniciosPendientes == 0
    {
      formData := Inicial;
      enviado := false;
      reiniciosPendientes := 0;
    }

    /** `handleChange`. */
    method HandleChange(c: Campo, valor: string)
      modifies this
      ensures formData == Actualizar(old(formData), c, valor)
      ensures enviado == old(enviado) && reiniciosPendientes == old(reiniciosPendientes)
    {
      formData := Actualizar(formData, c, valor);
    }

    /** `handleSubmit`, reached only once the browser's `required` checks
        pass: shows the banner and schedules the reset; the form keeps what
        was typed until then. */
    method HandleSubmit()
      requires Completo(formData)
      modifies this
      ensures enviado && formData == old(formData)
      ensures reiniciosPendientes == old(reiniciosPendientes) + 1
    {
      enviado := true;
      reiniciosPendientes := reiniciosPendientes + 1;
    }

    /** The reset timer fires: the banner goes away and the form is blank
        again, so it must be filled in before another submission. */
    method TemporizadorVence()
      requires reiniciosPendientes > 0
      modifies this
      ensures !enviado && formData == Inicial && !Completo(formData)
      ensures reiniciosPendientes == old(reiniciosPendientes) - 1
    {
      enviado := false;
      formData := Inicial;
      reiniciosPendientes := reiniciosPendientes - 1;
      InicialIncompleto();
    }
  }

  /** Filling the five required inputs, sending, and letting the timer fire
      leaves the page as it was first shown. */
  method EnviarYEsperar(nombre: string, email: string, titulo: string, descripcion: string, materiales: string)
    returns (formulario: Formulario, banner: bool)
    requires nombre != "" && email != "" && titulo != "" && descripcion != "" && materiales != ""
    ensures formulario == Inicial && !banner
  {
    var p := new PaginaPropuesta();
    p.HandleChange(Nombre, nombre);
    p.HandleChange(Email, email);
    p.HandleChange(Titulo, titulo);
    p.HandleChange(Descripcion, descripcion);
    p.HandleChange(Materiales, materiales);
    assert Completo(p.formData) by {
      forall c | Requerido(c) ensures Leer(p.formData, c) != "" {
      }
    }
    p.HandleSubmit();
    p.TemporizadorVence();
    formulario, banner := p.formData, p.enviado;
  }
}
