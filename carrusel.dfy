/** The image carousel (src/components/Carrusel.jsx): an index on a ring of
    `n` images, the autoplay flag, and the index updates that wait on their
    animation timer. Every update is scheduled with the same delay, so pending
    updates fire in the order they were scheduled; they are kept as a queue. */
module Carrusel {
  import opened Base

  /** `(prev + 1) % images.length`. */
  function SiguienteIndice(i: nat, n: nat): (r: nat)
    requires n > 0
    ensures r < n
    ensures i < n - 1 ==> r == i + 1
    ensures i == n - 1 ==> r == 0
  {
    (i + 1) % n
  }

  /** `(prev - 1 + images.length) % images.length`. */
  function AnteriorIndice(i: nat, n: nat): (r: nat)
    requires n > 0
    ensures r < n
    ensures 0 < i < n ==> r == i - 1
    ensures i == 0 ==> r == n - 1
  {
    (i - 1 + n) % n
  }

  /** Going back undoes going forward, and the other way round. */
  lemma AnteriorDeshaceSiguiente(i: nat, n: nat)
    requires i < n
    ensures AnteriorIndice(SiguienteIndice(i, n), n) == i
    ensures SiguienteIndice(AnteriorIndice(i, n), n) == i
  {
  }

  /** `k` forward steps from `i`. */
  function Avanzar(i: nat, n: nat, k: nat): nat
    requires n > 0
  {
    if k == 0 then i else SiguienteIndice(Avanzar(i, n, k - 1), n)
  }

  /** The remainder of `x + 1` is the next remainder, wrapping to 0 after `n - 1`. */
  lemma RestoSiguiente(x: nat, n: nat)
    requires n > 0
    ensures (x + 1) % n == if x % n == n - 1 then 0 else x % n + 1
  {
    var q, r := x / n, x % n;
    if r == n - 1 {
      assert x + 1 == (q + 1) * n + 0;
      DivisionUnique(x + 1, n, q + 1, 0);
    } else {
      DivisionUnique(x + 1, n, q, r + 1);
    }
  }

  /** `k` forward steps land on `(i + k) % n`. */
  lemma {:induction false} AvanzarEsModulo(i: nat, n: nat, k: nat)
    requires n > 0 && i < n
    ensures Avanzar(i, n, k) == (i + k) % n
  {
    if k == 0 {
      DivisionUnique(i, n, 0, i);
    } else {
      AvanzarEsModulo(i, n, k - 1);
      RestoSiguiente(i + k - 1, n);
    }
  }

  /** `n` forward steps come back to the starting image. */
  lemma VueltaCompleta(i: nat, n: nat)
    requires i < n
    ensures Avanzar(i, n, n) == i
  {
    AvanzarEsModulo(i, n, n);
    DivisionUnique(i + n, n, 1, i);
  }

  /** A scheduled index update. */
  datatype Paso = Siguiente | Anterior | IrA(indice: nat)

  function AplicarPaso(i: nat, n: nat, p: Paso): nat
    requires n > 0
  {
    match p
    case Siguiente => SiguienteIndice(i, n)
    case Anterior => AnteriorIndice(i, n)
    case IrA(k) => k
  }

  /** The index reached once all the given updates have fired, in order. */
  function AplicarTodos(i: nat, n: nat, ps: seq<Paso>): nat
    requires n > 0
    decreases |ps|
  {
    if ps == [] then i else AplicarTodos(AplicarPaso(i, n, ps[0]), n, ps[1..])
  }

  /** Scheduling one more update moves the eventual index by exactly that update. */
  lemma {:induction false} AplicarTodosAlFinal(i: nat, n: nat, ps: seq<Paso>, p: Paso)
    requires n > 0
    ensures AplicarTodos(i, n, ps + [p]) == AplicarPaso(AplicarTodos(i, n, ps), n, p)
    decreases |ps|
  {
    if ps != [] {
      assert (ps + [p])[0] == ps[0] && (ps + [p])[1..] == ps[1..] + [p];
      AplicarTodosAlFinal(AplicarPaso(i, n, ps[0]), n, ps[1..], p);
    }
  }

  /** Valid slots for an index: below `n`. */
  predicate EnAnillo(ps: seq<Paso>, n: nat)
  {
    forall j :: 0 <= j < |ps| && ps[j].IrA? ==> ps[j].indice < n
  }

  /** The carousel over `n` images. */
  class Carrusel {
    const n: nat
    var currentIndex: nat
    var isAutoplay: bool
    /** Index updates scheduled and not yet applied, oldest first. */
    var pendientes: seq<Paso>

    /** The index stays on the ring; with no images nothing is ever scheduled. */
    ghost predicate Valid()
      reads this
    {
      && (n == 0 ==> currentIndex == 0 && pendientes == [])
      && (n > 0 ==> currentIndex < n && EnAnillo(pendientes, n))
    }

    constructor (imagenes: nat)
      ensures n == imagenes && currentIndex == 0 && isAutoplay && pendientes == []
      ensures Valid()
    {
      n := imagenes;
      currentIndex := 0;
      isAutoplay := true;
      pendientes := [];
    }

    /** Where the index ends up once every pending update has fired. */
    function Destino(): nat
      requires n > 0
      reads this
    {
      AplicarTodos(currentIndex, n, pendientes)
    }

    /** `nextSlide` (the '❯' button): schedules a forward step and stops autoplay. */
    method NextSlide()
      requires Valid() && n > 0
      modifies this
      ensures pendientes == old(pendientes) + [Siguiente] && !isAutoplay
      ensures currentIndex == old(currentIndex)
      ensures Destino() == SiguienteIndice(old(Destino()), n)
      ensures Valid()
    {
      AplicarTodosAlFinal(currentIndex, n, pendientes, Siguiente);
      pendientes := pendientes + [Siguiente];
      isAutoplay := false;
    }

    /** `prevSlide` (the '❮' button): schedules a backward step and stops autoplay. */
    method PrevSlide()
      requires Valid() && n > 0
      modifies this
      ensures pendientes == old(pendientes) + [Anterior] && !isAutoplay
      ensures currentIndex == old(currentIndex)
      ensures Destino() == AnteriorIndice(old(Destino()), n)
      ensures Valid()
    {
      AplicarTodosAlFinal(currentIndex, n, pendientes, Anterior);
      pendientes := pendientes + [Anterior];
      isAutoplay := false;
    }

    /** `goToSlide` (a dot): schedules a jump to that image and stops autoplay. */
    method GoToSlide(indice: nat)
      requires Valid() && indice < n
      modifies this
      ensures pendientes == old(pendientes) + [IrA(indice)] && !isAutoplay
      ensures currentIndex == old(currentIndex)
      ensures Destino() == indice
      ensures Valid()
    {
      AplicarTodosAlFinal(currentIndex, n, pendientes, IrA(indice));
      pendientes := pendientes + [IrA(indice)];
      isAutoplay := false;
    }

    /** The autoplay interval fires. It exists only while autoplay is on and
        there are images; it schedules a forward step and leaves the flag alone. */
    method Tick()
      requires Valid()
      modifies this
      ensures isAutoplay && n > 0 ==> pendientes == old(pendientes) + [Siguiente]
      ensures !(isAutoplay && n > 0) ==> pendientes == old(pendientes)
      ensures isAutoplay == old(isAutoplay) && currentIndex == old(currentIndex)
      ensures n > 0 && isAutoplay ==> Destino() == SiguienteIndice(old(Destino()), n)
      ensures Valid()
    {
      if isAutoplay && n > 0 {
        AplicarTodosAlFinal(currentIndex, n, pendientes, Siguiente);
        pendientes := pendientes + [Siguiente];
      }
    }

    /** The oldest pending animation timer fires and applies its update. The
        eventual index does not change. */
    method TemporizadorVence()
      requires Valid() && pendientes != []
      modifies this
      ensures n > 0
      ensures currentIndex == AplicarPaso(old(currentIndex), n, old(pendientes)[0])
      ensures pendientes == old(pendientes)[1..]
      ensures isAutoplay == old(isAutoplay)
      ensures Destino() == old(Destino())
      ensures Valid()
    {
      currentIndex := AplicarPaso(currentIndex, n, pendientes[0]);
      pendientes := pendientes[1..];
    }

    /** The pause/play button flips autoplay; like the rest of the carousel it
        is drawn only when there is at least one image (line 71). */
    method ToggleAutoplay()
      requires n > 0
      modifies this
      ensures isAutoplay == !old(isAutoplay)
      ensures currentIndex == old(currentIndex) && pendientes == old(pendientes)
    {
      isAutoplay := !isAutoplay;
    }

    /** The counter `currentIndex + 1 / images.length`; nothing is rendered
        for an empty list. */
    function Contador(): (r: Option<(nat, nat)>)
      requires Valid()
      reads this
      ensures r.None? <==> n == 0
      ensures r.Some? ==> r.value == (currentIndex + 1, n)
      ensures r.Some? ==> 1 <= r.value.0 <= r.value.1
    {
      if n == 0 then None else Some((currentIndex + 1, n))
    }
  }

  /** Prev right after next, once both timers fire, shows the same image again. */
  method SiguienteYAnterior(imagenes: nat) returns (antes: nat, despues: nat)
    requires imagenes > 0
    ensures antes == despues
  {
    var c := new Carrusel(imagenes);
    antes := c.currentIndex;
    c.NextSlide();
    c.PrevSlide();
    c.TemporizadorVence();
    c.TemporizadorVence();
    AnteriorDeshaceSiguiente(antes, imagenes);
    despues := c.currentIndex;
  }
}
