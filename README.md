# ProyectoWebEscalable site core in Dafny

A model of the interactive core of a science-education nonprofit's website,
ProyectoWebEscalable (React). It covers the following parts:

- **Campaign records and their arithmetic helpers** (`src/data/campanasData.js`):
  - the funded percentage, rounded and capped at 100;
  - the whole days left before a campaign closes.
- **The campaign detail page** (`src/pages/CampanaDetalle.jsx`):
  - finding the campaign by its slug;
  - the in-memory ledger of donations, seeded from the static data;
  - the allocation of wall bricks to donors;
  - the count of placed bricks;
  - the donation form with its amount rules;
  - the simulated donation and the confirmation timer.
- **The campaign card** (`src/components/CampanaCard.jsx`): the state badge, the colour tier of the bar, the days-left footer and the link.
- **The campaign listing** (`src/pages/Campanas.jsx`): three filters, the sections by state, and the header figures.
- **The experiments page** (`src/pages/Experimentos.jsx`): four filters, their reset, and the detail modal.
- **The events and news page** (`src/pages/EventosNoticias.jsx`): two category filters, the feed handed to the calendar, the next-event widget and the button labels.
- **The photo gallery** (`src/pages/Galeria.jsx`): the category filter and the image viewer.
- **The navigation bar** (`src/components/NavBar.jsx`): the active-link test and the dropdown and mobile-panel flags.
- **The image carousel** (`src/components/Carrusel.jsx`): the index on a ring of images, autoplay, and index updates that wait on their animation timers.
- **The month calendar** (`src/components/Calendario.jsx`): month length, first weekday, the grid of day cells, event highlighting and the month buttons.
- **The experiment proposal form** (`src/pages/ProponerExperimento.jsx`): field edits, submit, and the timed reset.

Each module follows the form of the code it models:

- Pure helpers and derived values are functions, with lemmas about them.
- Each page's or component's React state is a class.
  - Its state hooks are fields.
  - Each event handler is a method that changes those fields and states the whole new state.
- The pending callbacks of `setTimeout` are explicit state:
  - on the detail page, a count of pending confirmation timers;
  - on the proposal form, a count of pending resets;
  - in the carousel, a queue of pending index updates.

  A timer firing is its own method.
- The clock, the random part of fresh ids and "now" are parameters.

Files:

- `base.dfy`: sequences, filtering and the arithmetic used everywhere.
- `texto.dfy`: substring search, ASCII case mapping and decimal rendering.
- One file per source file of the core.

## Model

| member | source | states |
|---|---|---|
| CampanasData.RedondeoMedioArriba | src/data/campanasData.js:523 | `Math.round` of a quotient: the integer nearest to it, a half rounded up |
| CampanasData.Techo | src/data/campanasData.js:533 | `Math.ceil` of a quotient: the least integer not below it |
| CampanasData.CalcularProgreso | src/data/campanasData.js:522-524 | The percentage is at most 100 and not negative for a non-negative amount. It is 100 once the goal is reached. Below 100 it is the nearest integer to 100·raised/goal. It reads 100 exactly when 199·goal ≤ 200·raised |
| CampanasData.ProgresoMonotono | src/data/campanasData.js:522-524 | Raising more never shows a lower percentage |
| CampanasData.CalcularDiasRestantes | src/data/campanasData.js:529-535 | Days left are 0 exactly when the closing instant has passed. Otherwise they are the number of started days up to it (a ceiling) |
| CampanasData.DiasRestantesNoCrecen | src/data/campanasData.js:529-535 | As "now" advances the days left never grow |
| CampanasData.MuroCienciaCifras | src/data/campanasData.js:94-157 | The brick-wall record's seed donations add up to 19 500 while it claims 23 450 raised, shown as 47 % |
| CampanaDetalle.BuscarPorSlug | src/pages/CampanaDetalle.jsx:141-144 | None exactly when no campaign has the slug. Otherwise the result is the first campaign carrying it |
| CampanaDetalle.Normalizar | src/pages/CampanaDetalle.jsx:160-168 | A seed donation becomes a 'completada' ledger entry with the same amount and message. A missing or zero id falls back to `existing-<idx>`, an empty name to 'Anónimo', and an empty date to now |
| CampanaDetalle.Sembrar | src/pages/CampanaDetalle.jsx:158-171 | The initial ledger has one normalised entry per seed donation, in order. It is empty when no campaign was found |
| CampanaDetalle.LadrillosDe | src/pages/CampanaDetalle.jsx:182 | The bricks one donation pays for: ⌊amount/cost⌋, and none for an amount below one brick |
| CampanaDetalle.Asignacion | src/pages/CampanaDetalle.jsx:176-195 | The allocation's keys are exactly the brick indices 0 .. (bricks paid by the ledger − 1) |
| CampanaDetalle.InicioSiguiente | src/pages/CampanaDetalle.jsx:179-191 | Each donation's block starts where the previous one ends |
| CampanaDetalle.InicioMonotono | src/pages/CampanaDetalle.jsx:179-191 | Later donations' blocks start no earlier |
| CampanaDetalle.AsignacionBloque | src/pages/CampanaDetalle.jsx:183-190 | Every brick in donation j's block shows that donation's name, message and id |
| CampanaDetalle.AsignacionAlAgregar | src/pages/CampanaDetalle.jsx:176-195 | Appending a donation keeps every allocated brick and adds its block right after the last one |
| CampanaDetalle.DonacionesPorLadrillo | src/pages/CampanaDetalle.jsx:176-195 | The two nested loops build exactly the allocation function for wall campaigns, and an empty map otherwise |
| CampanaDetalle.ColocarLadrillos | src/pages/CampanaDetalle.jsx:183-190 | The inner loop adds one block of consecutive indices showing the donor and advances the brick counter by the block's size. A count below one adds nothing |
| CampanaDetalle.LadrillosColocados | src/pages/CampanaDetalle.jsx:220-222 | Placed bricks are ⌊raised·total/goal⌋, not capped. They are 0 for a campaign without a wall |
| CampanaDetalle.PendientesNegativos | src/pages/CampanaDetalle.jsx:108 | Past one brick's worth over the goal, the "Pendientes" legend goes negative |
| CampanaDetalle.AgregarConservaLadrillos | src/pages/CampanaDetalle.jsx:176-195 | A new donation never moves or relabels an allocated brick |
| CampanaDetalle.CantidadADonar | src/pages/CampanaDetalle.jsx:234-239 | A non-zero selected preset takes precedence over the custom text. The donation goes ahead exactly when the chosen amount is positive |
| CampanaDetalle.PaginaDetalle.constructor | src/pages/CampanaDetalle.jsx:141-171 | Initial page state: the found campaign, the seeded ledger, the record's raised amount, the modal closed and an empty form |
| CampanaDetalle.PaginaDetalle.AbrirModal | src/pages/CampanaDetalle.jsx:484-486 | Offered only for an active campaign; opens the modal and nothing else changes |
| CampanaDetalle.PaginaDetalle.ElegirSugerida | src/pages/CampanaDetalle.jsx:517-529 | Offered only for an active campaign and one of its donation options; selects that amount and opens the modal |
| CampanaDetalle.Primeras | src/pages/CampanaDetalle.jsx:589 | `slice(0, k)`: a prefix of the list, of length k or the whole list when shorter |
| CampanaDetalle.PaginaDetalle.ElegirPreset | src/pages/CampanaDetalle.jsx:589-595 | Offered only while the form is shown, and only for the first four donation options; selects the preset and clears the custom amount |
| CampanaDetalle.PaginaDetalle.EscribirPersonalizada | src/pages/CampanaDetalle.jsx:621-624 | Stores the custom amount and clears the preset. Available only while the form is shown |
| CampanaDetalle.PaginaDetalle.EscribirNombre | src/pages/CampanaDetalle.jsx:640 | Stores the donor's name only. Available only while the form is shown |
| CampanaDetalle.PaginaDetalle.EscribirMensaje | src/pages/CampanaDetalle.jsx:652 | Stores the message only. Available only while the form is shown |
| CampanaDetalle.PaginaDetalle.CerrarModal | src/pages/CampanaDetalle.jsx:669 | Closes the modal and keeps the typed form. Available only while the form is shown |
| CampanaDetalle.PaginaDetalle.ProcesarDonacion | src/pages/CampanaDetalle.jsx:233-271 | A refused amount changes nothing. An accepted one appends exactly one completed entry (name defaulting to 'Anónimo'), raises the simulated amount by exactly that amount, keeps every allocated brick, shows the confirmation and schedules its timer. It is available only while the form is shown. The ledger invariant (seed prefix, positive additions, raised = record + additions) is kept |
| CampanaDetalle.PaginaDetalle.ConfirmacionExpira | src/pages/CampanaDetalle.jsx:263-270 | The timer closes the modal and the confirmation and empties the form. It keeps the ledger and the raised amount |
| CampanaDetalle.MuroCienciaLadrillos | src/pages/CampanaDetalle.jsx:176-222 | On the brick-wall page the seeds pay for 39 bricks but 46 are drawn as placed, so bricks 39–45 never show a tooltip |
| CampanaDetalle.DonarCincoMilEnMuroCiencia | src/pages/CampanaDetalle.jsx:233-271 | Choosing the suggested 5 000 there and donating it gives 28 450 raised, 57 % and 7 ledger entries, and the new donor owns bricks 39–48 |
| CampanaCard.Configuracion | src/components/CampanaCard.jsx:44-50 | The three known states get their own badge. Any other text falls back to the active one |
| CampanaCard.TonoDe | src/components/CampanaCard.jsx:97-105 | Each colour tier holds exactly on its percentage interval |
| CampanaCard.TonoMonotono | src/components/CampanaCard.jsx:97-105 | A higher percentage never shows a lower tier |
| CampanaCard.EsmeraldaSiiCompleta | src/components/CampanaCard.jsx:97-105 | The emerald tier appears exactly when the card reads 100 %, i.e. when 199·goal ≤ 200·raised |
| CampanaCard.EtiquetaDias | src/components/CampanaCard.jsx:134-136 | 'Último día' for 0 days, '1 día restante' for 1, and '<n> días restantes' otherwise |
| CampanaCard.EtiquetaDiasLegible | src/components/CampanaCard.jsx:134-136 | The label begins with the number, which reads back as the day count. It ends in 's' exactly when the count is not 1 |
| CampanaCard.EtiquetaDiasUltimo | src/components/CampanaCard.jsx:134-136 | 'Último día' is shown exactly for zero days |
| CampanaCard.Tarjeta | src/components/CampanaCard.jsx:41-150 | The card shows the state's badge, and a bar unless the campaign is upcoming. The bar carries the campaign's percentage and that percentage's tier (emerald exactly at 100). The footer gives the days-left label exactly for active campaigns and 'Meta alcanzada' exactly for completed ones. The card links to `/campanas/<slug>`, which highlights 'Campañas' in the navigation bar |
| CampanaCard.Enlace | src/components/CampanaCard.jsx:54 | The link starts with '/campanas/' and the rest of it is exactly the slug |
| CampanaCard.EnlaceInyectivo | src/components/CampanaCard.jsx:54 | Different slugs give different links |
| CampanaCard.EnlaceActivaCampanas | src/components/CampanaCard.jsx:54 | Any campaign link keeps the 'Campañas' entry of the navigation bar active |
| NavBar.IsActivePrefijo | src/components/NavBar.jsx:43-48 | The root is active only on itself. Any other path is active exactly on pathnames that start with it |
| NavBar.IsActiveSinSeparador | src/components/NavBar.jsx:43-48 | '/campanas' is active on '/campanasx': the test has no separator check |
| NavBar.Menu.constructor | src/components/NavBar.jsx:34-36 | All three flags start closed |
| NavBar.Menu.ToggleDropdown | src/components/NavBar.jsx:50-53 | Flips 'Apóyanos' and closes 'Actividades', so the two are never open together |
| NavBar.Menu.ToggleActividadesDropdown | src/components/NavBar.jsx:55-58 | Flips 'Actividades' and closes 'Apóyanos' |
| NavBar.Menu.ToggleMobile | src/components/NavBar.jsx:60-67 | Flips the mobile panel. Opening it closes both dropdowns; closing it leaves them as they were |
| NavBar.Menu.EnlaceActividadesEscritorio | src/components/NavBar.jsx:117 | A desktop 'Actividades' sub-link closes only that dropdown |
| NavBar.Menu.EnlaceApoyanosEscritorio | src/components/NavBar.jsx:161 | A desktop 'Apóyanos' sub-link closes only that dropdown |
| NavBar.Menu.EnlaceActividadesMovil | src/components/NavBar.jsx:240-243 | A mobile 'Actividades' sub-link closes that dropdown and the panel |
| NavBar.Menu.EnlaceApoyanosMovil | src/components/NavBar.jsx:303-306 | A mobile 'Apóyanos' sub-link closes that dropdown and the panel |
| NavBar.Menu.EnlaceMovil | src/components/NavBar.jsx:213 | The mobile 'Inicio' and 'Nosotros' links close the panel only |
| Campanas.CampanasFiltradas | src/pages/Campanas.jsx:33-40 | Keeps exactly the campaigns that match category, state and search |
| Campanas.FiltradasEnOrden | src/pages/Campanas.jsx:33-40 | The filtered list is a subsequence of the page's list |
| Campanas.FiltrosPorDefecto | src/pages/Campanas.jsx:28-40 | With the initial filters and an empty search every campaign is shown |
| Campanas.CategoriaSinBoton | src/pages/Campanas.jsx:33-40 | A campaign whose category has no button shows only under 'Todas' |
| Campanas.Seccion | src/pages/Campanas.jsx:43-45 | A section keeps exactly the filtered campaigns in its state |
| Campanas.SeccionEsUnFiltro | src/pages/Campanas.jsx:33-45 | A section equals a single filter of the whole list by the page filters and its state, and keeps the list's order |
| Campanas.SeccionesDisjuntas | src/pages/Campanas.jsx:43-45 | Sections of different states share no campaign |
| Campanas.EstadoElegidoUnaSeccion | src/pages/Campanas.jsx:35-45 | With one state chosen, every other state's section is empty |
| Campanas.RecaudadoTotalConcatenado | src/pages/Campanas.jsx:78 | The raised total splits over concatenation |
| Campanas.RecaudadoTotalNoNegativo | src/pages/Campanas.jsx:78 | The total is not negative when no campaign's amount is |
| Campanas.CabeceraDe | src/pages/Campanas.jsx:66-78 | The header counts all campaigns and the active ones, never more active than total, and shows the sum of `recaudado` over the whole list, whatever the filters |
| Campanas.PaginaCampanas.constructor | src/pages/Campanas.jsx:28-30 | Starts on 'Todas', 'todas' and an empty search, which shows every campaign |
| Campanas.PaginaCampanas.ElegirCategoria | src/pages/Campanas.jsx:120-123 | Sets the category only |
| Campanas.PaginaCampanas.ElegirEstado | src/pages/Campanas.jsx:103-106 | Sets the state only |
| Campanas.PaginaCampanas.Buscar | src/pages/Campanas.jsx:94-95 | Sets the search only |
| Campanas.PaginaCampanas.LimpiarFiltros | src/pages/Campanas.jsx:187-201 | Offered only when no campaign passes the filters; resets all three filters, so every campaign is shown again |
| Experimentos.BusquedaVaciaEsAtajo | src/pages/Experimentos.jsx:41-43 | The empty-query case is redundant: the substring test alone accepts it |
| Experimentos.ExperimentosFiltrados | src/pages/Experimentos.jsx:37-46 | Keeps exactly the experiments that match all four filters |
| Experimentos.FiltradosEnOrden | src/pages/Experimentos.jsx:37-46 | The result is a subsequence of the list |
| Experimentos.SoloBusqueda | src/pages/Experimentos.jsx:37-46 | With every selector on 'Todas' only the search cuts the list |
| Experimentos.FiltrosPorDefecto | src/pages/Experimentos.jsx:37-46 | At the defaults every experiment is shown |
| Experimentos.PaginaExperimentos.constructor | src/pages/Experimentos.jsx:28-32 | Starts on the defaults with no modal, showing every experiment |
| Experimentos.PaginaExperimentos.ElegirCategoria | src/pages/Experimentos.jsx:115 | Sets the category only |
| Experimentos.PaginaExperimentos.ElegirDificultad | src/pages/Experimentos.jsx:135 | Sets the difficulty only |
| Experimentos.PaginaExperimentos.ElegirEdad | src/pages/Experimentos.jsx:152-153 | Sets the age only |
| Experimentos.PaginaExperimentos.Buscar | src/pages/Experimentos.jsx:85-86 | Sets the search only |
| Experimentos.PaginaExperimentos.LimpiarFiltros | src/pages/Experimentos.jsx:48-53 | Resets the four filters, showing every experiment; an open modal stays open |
| Experimentos.PaginaExperimentos.AbrirExperimento | src/pages/Experimentos.jsx:178 | Opens the modal on the clicked experiment |
| Experimentos.PaginaExperimentos.ClicEnModal | src/pages/Experimentos.jsx:197-270 | The backdrop, '✕' and 'Cerrar' close the modal. A click on the panel leaves it open |
| EventosNoticias.EventosFiltrados | src/pages/EventosNoticias.jsx:21-23 | 'todos' keeps all events. Any other filter keeps exactly that category's events |
| EventosNoticias.NoticiasFiltradas | src/pages/EventosNoticias.jsx:26-28 | The same rule over the news |
| EventosNoticias.FiltradosEnOrden | src/pages/EventosNoticias.jsx:21-28 | Both lists keep the page's order |
| EventosNoticias.AntesDelPrimerEspacio | src/pages/EventosNoticias.jsx:114 | `split(' ')[0]` is a space-free prefix, followed by a space when shorter than the text |
| EventosNoticias.FeedCalendario | src/pages/EventosNoticias.jsx:114 | The calendar gets one entry per event, whatever the filter, with the date cut at the first space |
| EventosNoticias.ProximoEvento | src/pages/EventosNoticias.jsx:119-124 | The widget is shown exactly when the filtered list is non-empty, and shows its head |
| EventosNoticias.ProximoEventoEsElPrimero | src/pages/EventosNoticias.jsx:119-124 | The widget's event is the earliest event of the chosen category in the list |
| EventosNoticias.Capitalizar | src/pages/EventosNoticias.jsx:65 | Upper-cases the first letter and keeps the rest |
| EventosNoticias.CapitalizarIdempotente | src/pages/EventosNoticias.jsx:65 | Capitalising twice is the same as once |
| EventosNoticias.EtiquetasEventos | src/pages/EventosNoticias.jsx:65 | The event filter buttons read 'Todos', 'Taller', 'Conferencia', 'Evento' and 'Reunion' |
| EventosNoticias.FeedMarcaElQuince | src/pages/EventosNoticias.jsx:114 | "15 de Diciembre" reaches the calendar as "15", which marks the 15th but not the 1st or 5th |
| EventosNoticias.PaginaEventos.constructor | src/pages/EventosNoticias.jsx:15-16 | Both filters start on 'todos', showing everything |
| EventosNoticias.PaginaEventos.ElegirFiltroEventos | src/pages/EventosNoticias.jsx:58 | Sets the event filter; the news shown do not change |
| EventosNoticias.PaginaEventos.ElegirFiltroNoticias | src/pages/EventosNoticias.jsx:90 | Sets the news filter; the events shown do not change |
| Galeria.FotosFiltradas | src/pages/Galeria.jsx:20-22 | 'todos' keeps every photo. Any other category keeps exactly that category's photos |
| Galeria.FotosEnOrden | src/pages/Galeria.jsx:20-22 | The grid keeps the list's order |
| Galeria.PaginaGaleria.constructor | src/pages/Galeria.jsx:14-15 | Starts on 'todos' with no photo open, showing all photos |
| Galeria.PaginaGaleria.ElegirCategoria | src/pages/Galeria.jsx:44 | Sets the category only |
| Galeria.PaginaGaleria.AbrirFoto | src/pages/Galeria.jsx:62 | Opens the viewer on the clicked photo |
| Galeria.PaginaGaleria.ClicEnVisor | src/pages/Galeria.jsx:88-104 | The backdrop and 'Cerrar' close the viewer. A click on the panel changes nothing |
| Carrusel.SiguienteIndice | src/components/Carrusel.jsx:56 | Steps forward on the ring, wrapping from the last image to the first |
| Carrusel.AnteriorIndice | src/components/Carrusel.jsx:65 | Steps back on the ring, wrapping from the first image to the last |
| Carrusel.AnteriorDeshaceSiguiente | src/components/Carrusel.jsx:53-69 | Back undoes forward and forward undoes back |
| Carrusel.AvanzarEsModulo | src/components/Carrusel.jsx:56 | k forward steps land on (i + k) mod n |
| Carrusel.VueltaCompleta | src/components/Carrusel.jsx:56 | n forward steps return to the start |
| Carrusel.AplicarTodosAlFinal | src/components/Carrusel.jsx:44-69 | Scheduling one more update moves the eventual index by exactly that update |
| Carrusel.Carrusel.constructor | src/components/Carrusel.jsx:25-27 | Starts on image 0 with autoplay on and nothing pending |
| Carrusel.Carrusel.GoToSlide | src/components/Carrusel.jsx:44-51 | Queues a jump, so the eventual index is the chosen one, and stops autoplay |
| Carrusel.Carrusel.NextSlide | src/components/Carrusel.jsx:53-60 | Queues a forward step, so the eventual index moves one forward, and stops autoplay |
| Carrusel.Carrusel.PrevSlide | src/components/Carrusel.jsx:62-69 | Queues a backward step, so the eventual index moves one back, and stops autoplay |
| Carrusel.Carrusel.Tick | src/components/Carrusel.jsx:30-42 | The autoplay interval queues a forward step only while autoplay is on and there are images; it never changes the flag |
| Carrusel.Carrusel.TemporizadorVence | src/components/Carrusel.jsx:44-69 | The oldest pending update is applied; the eventual index stays the same |
| Carrusel.Carrusel.ToggleAutoplay | src/components/Carrusel.jsx:71-139 | Offered only when there is at least one image; flips autoplay only |
| Carrusel.Carrusel.Contador | src/components/Carrusel.jsx:134 | Nothing is rendered with no images. Otherwise the counter reads `currentIndex + 1` over n, a position in 1..n |
| Carrusel.SiguienteYAnterior | src/components/Carrusel.jsx:53-69 | Next then prev, once both timers fire, shows the same image |
| Calendario.AnioCompleto | src/components/Calendario.jsx:35-36 | The `Date` constructor reads the years 0–99 as 1900–1999 and leaves every other year alone; its result is never a two-digit year |
| Calendario.DiasEnMes | src/components/Calendario.jsx:36 | Months have 28 to 31 days: February 29 exactly when the year the constructor reads is a leap year, 30 for April, June, September and November, and 31 otherwise |
| Calendario.PrimerDia | src/components/Calendario.jsx:35 | The weekday, in 0..6, of the first of the month in the year the constructor reads |
| Calendario.LargoDelAnio | src/components/Calendario.jsx:35 | Consecutive New Year's days are 365 days apart, or 366 after a leap year |
| Calendario.PrimerDiaDelMesSiguiente | src/components/Calendario.jsx:35-36 | Away from the two-digit years, the next month starts right after this month's last day, and its weekday advances by this month's length mod 7 |
| Calendario.PrimerDiaEjemplos | src/components/Calendario.jsx:35 | 1970-01-01 falls on a Thursday and 2024-11-01 on a Friday |
| Calendario.MesesInversos | src/components/Calendario.jsx:54-60 | The two month buttons undo each other across year boundaries, as long as neither the start nor the month passed through has a two-digit year |
| Calendario.SaltoDeLosAniosDeDosCifras | src/components/Calendario.jsx:54-60 | Where they do not: back from January 100 lands on year 99, whose grid is that of December 1999 while the heading still reads 99; forward from December of year -1 lands on year 0, whose grid is that of January 1900 while the heading reads 0, and back from there goes to December 1899 |
| Calendario.ConstruirDias | src/components/Calendario.jsx:39-45 | The grid holds `primerDia` empty cells followed by the days 1..`diasEnMes` in place |
| Calendario.AlgunaFechaContiene | src/components/Calendario.jsx:51 | True exactly when some event's date contains the text |
| Calendario.SinCeroNoMarcaDiasSimples | src/components/Calendario.jsx:48-52 | Dates without a '0' never mark days 1–9 |
| Calendario.FechaCincoNoMarcaElCinco | src/components/Calendario.jsx:48-52 | An event dated "5" does not mark the 5th |
| Calendario.Calendario.constructor | src/components/Calendario.jsx:25 | Starts on today's year, month and day |
| Calendario.Calendario.IrAlMesAnterior | src/components/Calendario.jsx:54-56 | Moves to the month before the one the constructor reads the held year and month as, wrapping the year, with day 1 |
| Calendario.Calendario.IrAlProximoMes | src/components/Calendario.jsx:58-60 | Moves to the month after the one the constructor reads the held year and month as, wrapping the year, with day 1 |
| Calendario.Calendario.Grilla | src/components/Calendario.jsx:35-45 | The grid of the month the constructor reads the held year and month as: as many empty cells as its first weekday, then its days |
| Texto.ContainsAt | src/components/Calendario.jsx:51 | `includes` holds exactly when the text occurs at some position |
| Texto.Lower | src/pages/Campanas.jsx:36-37 | Lower-casing keeps the length and maps every character |
| Texto.DecimalRoundTrip | src/components/CampanaCard.jsx:135 | A rendered number reads back as itself |
| Texto.PadTwo | src/components/Calendario.jsx:50 | Exactly two digits below 10 and the plain decimal rendering from 10 on, reading back as the number; a leading '0' exactly below 10 |
| ProponerExperimento.Actualizar | src/pages/ProponerExperimento.jsx:36-42 | The named field takes the value and every other field keeps its own |
| ProponerExperimento.ActualizarConLoMismo | src/pages/ProponerExperimento.jsx:36-42 | Writing back a field's own value changes nothing |
| ProponerExperimento.UltimaEdicionGana | src/pages/ProponerExperimento.jsx:36-42 | Two edits of one field equal the last edit |
| ProponerExperimento.EdicionesIndependientes | src/pages/ProponerExperimento.jsx:36-42 | Edits to different fields commute |
| ProponerExperimento.PaginaPropuesta.constructor | src/pages/ProponerExperimento.jsx:22-32 | Starts with the blank form (the three defaults), no banner and no pending reset |
| ProponerExperimento.PaginaPropuesta.HandleChange | src/pages/ProponerExperimento.jsx:36-42 | Updates one field of the form only |
| ProponerExperimento.InicialIncompleto | src/pages/ProponerExperimento.jsx:263-317 | The blank form cannot be submitted: exactly the required inputs are empty in it |
| ProponerExperimento.EdicionYCompletitud | src/pages/ProponerExperimento.jsx:263-317 | An edit keeps a submittable form submittable unless it empties a required input, and emptying one makes the form unsubmittable |
| ProponerExperimento.PaginaPropuesta.HandleSubmit | src/pages/ProponerExperimento.jsx:44-48 | Runs only when the five required inputs hold text. Shows the banner and schedules a reset; the form keeps its content |
| ProponerExperimento.PaginaPropuesta.TemporizadorVence | src/pages/ProponerExperimento.jsx:48-60 | The reset hides the banner and restores the blank form, which must be filled in again before another submission |
| ProponerExperimento.EnviarYEsperar | src/pages/ProponerExperimento.jsx:36-60 | Filling the required inputs, submitting and the reset leave the page as it was first shown |

## Left out

- `formatearMoneda` (`Intl.NumberFormat`) and `toLocaleString`: locale formatting of amounts is not modelled.
- The clock: `Date.now()`, `new Date()` and date-string parsing are outside the model. "Now" and closing instants are integer milliseconds passed in as parameters. The calendar's initial year, month and day are parameters too.
- Fresh donation ids built from the clock and `Math.random` are an opaque token supplied by the caller.
- CampanaDetalle.LadrillosColocados: computes ⌊raised·total/goal⌋ exactly, whereas the source computes `(raised/goal)*total` in binary floating point, which can land one brick lower (28 500 of 50 000 over 100 bricks gives 56 there, 57 here).
- CampanasData.CalcularProgreso: rounds the exact rational 100·raised/goal; a floating-point quotient just below a half can round differently in the source.
- Amounts are whole numbers: fractional custom amounts from `parseFloat` are not modelled, and a custom text that does not parse is None.
- CampanasData.CalcularProgreso: requires a positive goal, since the source then divides by zero (Infinity/NaN); every record has a positive goal.
- `alert` on a refused amount and `console.log` on submit are output only and are left out.
- `URLSearchParams` reading of query parameters, `react-router` navigation, `useMemo` caching and `window.scrollTo` are left out; the slug is a parameter.
- Case mapping covers ASCII letters only; `toLowerCase`/`toUpperCase` on accented or other Unicode letters is not modelled.
- The async services (`src/services/experimento.js`, `src/services/user.js`) and the routing table are not part of this model.
- Presentational components and static pages (Home, Nosotros, Contribuir, Voluntariado, Footer, Hero, the cards other than CampanaCard) are not part of this model.
- The static data lists are not transcribed, except the brick-wall campaign record and the first event, used as fixtures.
- Carrusel: `isTransitioning` (a styling flag) and the timer durations are left out. Pending updates are applied in scheduling order, which the equal delays guarantee. A change of the number of images while the component is mounted is not modelled (it is a constant).
- Calendario: the local time zone does not affect the civil dates the component builds, so it is not modelled; the click callback `onDateClick` is left out.
- Calendario.DiasEnMes, Calendario.PrimerDia, Calendario.PrimerDiaDelMesSiguiente, Calendario.MesesInversos, Calendario.Calendario.IrAlMesAnterior, Calendario.Calendario.IrAlProximoMes, Calendario.Calendario.Grilla: the two-digit-year rule of the `Date` constructor is modelled (`AnioCompleto`), but the limit on a time value (8.64e15 ms either side of 1970, about 273 790 years, beyond which a `Date` is invalid and the grid would be drawn from NaN) is not; years are unbounded integers.
- ProponerExperimento.PaginaPropuesta.HandleSubmit: of the browser's form validation only the `required` checks are modelled (non-empty text); the `type="email"` format check on the email input is not.
- CampanaCard.Configuracion: the JavaScript quirk where a state such as "toString" finds an inherited property of the config object instead of falling back is not modelled.
- Interleavings of pending timers beyond the counters and the queue kept in the classes are not modelled (a timer firing is a separate step).
