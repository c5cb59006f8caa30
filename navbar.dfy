/** The navigation bar (src/components/NavBar.jsx): the active-link predicate
    and the three open/closed flags of the two dropdowns and the mobile panel. */
module NavBar {
  import opened Texto

  /** `isActive(path)` for the current `pathname`: the root needs an exact
      match, any other path is tested with three disjuncts. */
  predicate IsActive(pathname: string, path: string)
  {
    if path == "/" then pathname == "/"
    else pathname == path || StartsWith(pathname, path + "/") || StartsWith(pathname, path)
  }

  /** The three disjuncts collapse into one prefix test, so a path is active
      on itself and on every route nested below it (and, as a consequence, on
      any pathname that merely begins with the same letters). */
  lemma IsActivePrefijo(pathname: string, path: string)
    ensures path == "/" ==> (IsActive(pathname, path) <==> pathname == "/")
    ensures path != "/" ==> (IsActive(pathname, path) <==> StartsWith(pathname, path))
  {
    if path != "/" && StartsWith(pathname, path + "/") {
      assert pathname[..|path|] == (path + "/")[..|path|] == path;
    }
  }

  /** '/campanas' is highlighted on '/campanasx' too: the test has no
      separator check. */
  lemma IsActiveSinSeparador()
    ensures IsActive("/campanasx", "/campanas")
  {
    assert "/campanas" <= "/campanasx";
  }

  /** The menu's state. */
  class Menu {
    /** `isDropdownOpen`: the 'Apóyanos' dropdown. */
    var apoyanosAbierto: bool
    /** `isActividadesDropdownOpen`. */
    var actividadesAbierto: bool
    /** `isMobileOpen`. */
    var movilAbierto: bool

    /** The two dropdowns are never open at the same time. */
    ghost predicate Valid()
      reads this
    {
      !(apoyanosAbierto && actividadesAbierto)
    }

    constructor ()
      ensures !apoyanosAbierto && !actividadesAbierto && !movilAbierto
      ensures Valid()
    {
      apoyanosAbierto := false;
      actividadesAbierto := false;
      movilAbierto := false;
    }

    /** `toggleDropdown`: flips 'Apóyanos' and closes 'Actividades'. */
    method ToggleDropdown()
      modifies this
      ensures apoyanosAbierto == !old(apoyanosAbierto) && !actividadesAbierto
      ensures movilAbierto == old(movilAbierto)
      ensures Valid()
    {
      apoyanosAbierto := !apoyanosAbierto;
      actividadesAbierto := false;
    }

    /** `toggleActividadesDropdown`: flips 'Actividades' and closes 'Apóyanos'. */
    method ToggleActividadesDropdown()
      modifies this
      ensures actividadesAbierto == !old(actividadesAbierto) && !apoyanosAbierto
      ensures movilAbierto == old(movilAbierto)
      ensures Valid()
    {
      actividadesAbierto := !actividadesAbierto;
      apoyanosAbierto := false;
    }

    /** `toggleMobile`: flips the panel; opening it closes both dropdowns,
        closing it leaves them as they were. */
    method ToggleMobile()
      requires Valid()
      modifies this
      ensures movilAbierto == !old(movilAbierto)
      ensures !old(movilAbierto) ==> !apoyanosAbierto && !actividadesAbierto
      ensures old(movilAbierto) ==> apoyanosAbierto == old(apoyanosAbierto)
                                    && actividadesAbierto == old(actividadesAbierto)
      ensures Valid()
    {
      var estabaAbierto := movilAbierto;
      movilAbierto := !movilAbierto;
      if !estabaAbierto {
        apoyanosAbierto := false;
        actividadesAbierto := false;
      }
    }

    /** A desktop sub-link of 'Actividades': closes only that dropdown. */
    method EnlaceActividadesEscritorio()
      requires Valid()
      modifies this
      ensures !actividadesAbierto
      ensures apoyanosAbierto == old(apoyanosAbierto) && movilAbierto == old(movilAbierto)
      ensures Valid()
    {
      actividadesAbierto := false;
    }

    /** A desktop sub-link of 'Apóyanos': closes only that dropdown. */
    method EnlaceApoyanosEscritorio()
      requires Valid()
      modifies this
      ensures !apoyanosAbierto
      ensures actividadesAbierto == old(actividadesAbierto) && movilAbierto == old(movilAbierto)
      ensures Valid()
    {
      apoyanosAbierto := false;
    }

    /** A mobile sub-link of 'Actividades': closes that dropdown and the panel. */
    method EnlaceActividadesMovil()
      requires Valid()
      modifies this
      ensures !actividadesAbierto && !movilAbierto
      ensures apoyanosAbierto == old(apoyanosAbierto)
      ensures Valid()
    {
      actividadesAbierto := false;
      movilAbierto := false;
    }

    /** A mobile sub-link of 'Apóyanos': closes that dropdown and the panel. */
    method EnlaceApoyanosMovil()
      requires Valid()
      modifies this
      ensures !apoyanosAbierto && !movilAbierto
      ensures actividadesAbierto == old(actividadesAbierto)
      ensures Valid()
    {
      apoyanosAbierto := false;
      movilAbierto := false;
    }

    /** The mobile 'Inicio' and 'Nosotros' links: close the panel only. */
    method EnlaceMovil()
      requires Valid()
      modifies this
      ensures !movilAbierto
      ensures apoyanosAbierto == old(apoyanosAbierto) && actividadesAbierto == old(actividadesAbierto)
      ensures Valid()
    {
      movilAbierto := false;
    }
  }
}
