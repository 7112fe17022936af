/** The cronograma form: a company combo box filled for the logged-in user, a
    "generate" button, and the panel the timeline is drawn on. */
module Form {
  import opened Outcomes
  import opened Stages
  import opened Layout
  import Progress

  /** A row of the company table. */
  datatype EmpresaRow = EmpresaRow(id: int, nombre: string, usuarioId: int)

  /** An entry of the company combo box. */
  datatype ComboItem = ComboItem(id: int, nombre: string)

  const Placeholder := ComboItem(0, "Seleccione una empresa...")

  /** The company query: the user's companies, projected to (id, name), in table order. */
  function EmpresasDe(tabla: seq<EmpresaRow>, usuarioId: int): (r: seq<ComboItem>)
    ensures |r| <= |tabla|
    ensures (forall k :: 0 <= k < |tabla| ==> tabla[k].usuarioId != usuarioId) ==> r == []
  {
    if tabla == [] then []
    else
      (if tabla[0].usuarioId == usuarioId then [ComboItem(tabla[0].id, tabla[0].nombre)] else []) +
      EmpresasDe(tabla[1..], usuarioId)
  }

  /** The query returns exactly the companies the user owns. */
  lemma {:induction false} EmpresasDeExact(tabla: seq<EmpresaRow>, usuarioId: int, item: ComboItem)
    ensures item in EmpresasDe(tabla, usuarioId) <==>
      exists k :: 0 <= k < |tabla| && tabla[k].usuarioId == usuarioId && item == ComboItem(tabla[k].id, tabla[k].nombre)
  {
    if tabla != [] {
      EmpresasDeExact(tabla[1..], usuarioId, item);
      if exists k :: 0 <= k < |tabla[1..]| && tabla[1..][k].usuarioId == usuarioId && item == ComboItem(tabla[1..][k].id, tabla[1..][k].nombre) {
        var k :| 0 <= k < |tabla[1..]| && tabla[1..][k].usuarioId == usuarioId && item == ComboItem(tabla[1..][k].id, tabla[1..][k].nombre);
        assert tabla[k + 1] == tabla[1..][k];
      }
      if exists k :: 0 <= k < |tabla| && tabla[k].usuarioId == usuarioId && item == ComboItem(tabla[k].id, tabla[k].nombre) {
        var k :| 0 <= k < |tabla| && tabla[k].usuarioId == usuarioId && item == ComboItem(tabla[k].id, tabla[k].nombre);
        if k > 0 {
          assert tabla[1..][k - 1] == tabla[k];
        }
      }
    }
  }

  /** The query keeps table order: querying a table split in two gives the two
      answers one after the other. */
  lemma {:induction false} EmpresasDeOrder(a: seq<EmpresaRow>, b: seq<EmpresaRow>, usuarioId: int)
    ensures EmpresasDe(a + b, usuarioId) == EmpresasDe(a, usuarioId) + EmpresasDe(b, usuarioId)
  {
    if a != [] {
      assert (a + b)[1..] == a[1..] + b;
      EmpresasDeOrder(a[1..], b, usuarioId);
    } else {
      assert a + b == b;
    }
  }

  /** The guard of the generate button: the id of the selected company, or None when
      nothing is selected or the placeholder at index 0 is. */
  function EmpresaSeleccionada(items: seq<ComboItem>, selectedIndex: int): (r: Option<int>)
    ensures r.None? <==> selectedIndex <= 0 || selectedIndex >= |items|
    ensures r.Some? ==> r.value == items[selectedIndex].id
  {
    var seleccionado := if 0 <= selectedIndex < |items| then Some(items[selectedIndex]) else None;
    if seleccionado.None? || selectedIndex == 0 then None else Some(seleccionado.value.id)
  }

  /** The message a progress resolution leaves behind. */
  function AvisoProgreso(store: Progress.Store): seq<ErrorKind> {
    if Progress.LiveTables * store.failing == {} then [] else [StoreQueryFailed]
  }

  class FrmCronograma {
    var items: seq<ComboItem>       // cmbEmpresas.Items
    var selectedIndex: int          // cmbEmpresas.SelectedIndex; -1 when nothing is selected
    var controls: seq<Control>      // panelCronograma.Controls
    var mensajes: seq<ErrorKind>    // the message boxes shown so far, by kind

    /** The combo's selection is -1 or a valid index, and a filled combo starts with
        the placeholder. */
    ghost predicate Valid()
      reads this
    {
      -1 <= selectedIndex < |items| &&
      (items != [] ==> items[0] == Placeholder)
    }

    /** The form as its constructor leaves it: empty widgets, then the company load for
        the session's user. */
    constructor (usuarioId: int, tablaEmpresa: Result<seq<EmpresaRow>>)
      ensures Valid() && controls == []
      ensures usuarioId <= 0 ==> items == [] && selectedIndex == -1 && mensajes == [NoUserLoggedIn]
      ensures usuarioId > 0 && tablaEmpresa.Err? ==> items == [] && selectedIndex == -1 && mensajes == [CompanyLoadFailed]
      ensures usuarioId > 0 && tablaEmpresa.Ok? ==>
        var empresas := EmpresasDe(tablaEmpresa.value, usuarioId);
        if empresas == [] then items == [] && selectedIndex == -1 && mensajes == [NoCompaniesFound]
        else items == [Placeholder] + empresas && selectedIndex == 0 && mensajes == []
    {
      items := [];
      selectedIndex := -1;
      controls := [];
      mensajes := [];
      new;
      CargarEmpresas(usuarioId, tablaEmpresa);
    }

    /** Company loading: aborted with a message when no user is logged in (before any
        query), when the query raises, or when the user owns no company; otherwise the
        combo is refilled with the placeholder followed by the user's companies in
        query order, and the placeholder is selected. */
    method CargarEmpresas(usuarioId: int, tablaEmpresa: Result<seq<EmpresaRow>>)
      requires Valid()
      modifies this`items, this`selectedIndex, this`mensajes
      ensures Valid()
      ensures usuarioId <= 0 ==>
        items == old(items) && selectedIndex == old(selectedIndex) && mensajes == old(mensajes) + [NoUserLoggedIn]
      ensures usuarioId > 0 && tablaEmpresa.Err? ==>
        items == old(items) && selectedIndex == old(selectedIndex) && mensajes == old(mensajes) + [CompanyLoadFailed]
      ensures usuarioId > 0 && tablaEmpresa.Ok? ==>
        var empresas := EmpresasDe(tablaEmpresa.value, usuarioId);
        if empresas == [] then
          items == old(items) && selectedIndex == old(selectedIndex) && mensajes == old(mensajes) + [NoCompaniesFound]
        else
          items == [Placeholder] + empresas && selectedIndex == 0 && mensajes == old(mensajes)
    {
      if usuarioId <= 0 {
        mensajes := mensajes + [NoUserLoggedIn];
        return;
      }
      if tablaEmpresa.Err? {
        mensajes := mensajes + [CompanyLoadFailed];
        return;
      }
      var empresas := EmpresasDe(tablaEmpresa.value, usuarioId);
      if |empresas| == 0 {
        mensajes := mensajes + [NoCompaniesFound];
        return;
      }
      items := [];
      selectedIndex := -1;
      items := items + [Placeholder];
      var k := 0;
      while k < |empresas|
        invariant k <= |empresas|
        invariant items == [Placeholder] + empresas[..k]
        invariant selectedIndex == -1 && mensajes == old(mensajes)
      {
        items := items + [empresas[k]];
        k := k + 1;
      }
      selectedIndex := 0;
    }

    /** The user picks an entry of the combo box (or clears the selection with -1);
        the combo refuses any other index. */
    method SeleccionarEmpresa(index: int)
      requires Valid() && -1 <= index < |items|
      modifies this`selectedIndex
      ensures Valid() && selectedIndex == index
    {
      selectedIndex := index;
    }

    /** The generate button: refused with a warning when nothing or the placeholder is
        selected; otherwise the timeline of the selected company is drawn. */
    method BtnGenerarClick(store: Progress.Store)
      requires Valid()
      modifies this`controls, this`mensajes
      ensures Valid()
      ensures selectedIndex <= 0 ==>
        controls == old(controls) && mensajes == old(mensajes) + [NoCompanySelected]
      ensures selectedIndex > 0 ==>
        controls == Dibujo(Progress.ProgresoEmpresa(store, items[selectedIndex].id)) &&
        mensajes == old(mensajes) + AvisoProgreso(store)
    {
      var empresaId := EmpresaSeleccionada(items, selectedIndex);
      if empresaId.None? {
        mensajes := mensajes + [NoCompanySelected];
        return;
      }
      GenerarCronograma(store, empresaId.value);
    }

    /** Clears the panel, resolves the company's progress and draws it. A failed
        resolution still draws: an empty timeline, i.e. the legend alone. */
    method GenerarCronograma(store: Progress.Store, empresaId: int)
      modifies this`controls, this`mensajes
      ensures controls == Dibujo(Progress.ProgresoEmpresa(store, empresaId))
      ensures mensajes == old(mensajes) + AvisoProgreso(store)
    {
      controls := [];
      var progreso, error := Progress.ObtenerProgresoEmpresa(store, empresaId);
      if error.Some? {
        mensajes := mensajes + [error.value];
      }
      DibujarCronograma(progreso);
    }

    /** Draws the timeline on a cleared panel: per stage, the connector to the next
        stage (if any) and then the stage's panel; the legend last. The result depends
        only on `progreso`, never on what the panel held, so drawing the same progress
        twice leaves the same panel. */
    method DibujarCronograma(progreso: seq<ProgressEntry>)
      modifies this`controls
      ensures controls == Dibujo(progreso)
    {
      controls := [];
      var i := 0;
      while i < |progreso|
        invariant i <= |progreso|
        invariant controls == Cronograma(progreso, i)
      {
        var fila := i / Columnas;
        var columna := i % Columnas;
        var x := InicioX + columna * (AnchoEtapa + EspacioEntre);
        var y := InicioY + fila * (AltoEtapa + EspacioEntre + 20);
        var etapaPanel := StagePanel(Box(Point(x, y), Size(AnchoEtapa, AltoEtapa)),
                                     ColorFondo(progreso[i].completed, progreso[i].name),
                                     progreso[i].name,
                                     TextoIcono(progreso[i].completed, progreso[i].name));
        assert etapaPanel == Celda(progreso, i);
        if i < |progreso| - 1 {
          DibujarFlecha(x + AnchoEtapa, y + AltoEtapa / 2, columna == Columnas - 1);
          assert controls == Cronograma(progreso, i) + [FlechaTras(i)];
        }
        controls := controls + [etapaPanel];
        assert controls == Cronograma(progreso, i) + Paso(progreso, i);
        i := i + 1;
      }
      AnadirLeyenda();
    }

    /** Adds one connector box (its drawing is not modelled). The box is written out
        step by step as the form builds it; `Flecha` is the same box as a value. */
    method DibujarFlecha(x: int, y: int, esFinDeLinea: bool)
      modifies this`controls
      ensures controls == old(controls) + [Flecha(x, y, esFinDeLinea)]
      ensures controls[|controls| - 1].box == Box(Point(x + 5, y - 10), Size(30, 20))
    {
      controls := controls + [ArrowPanel(Box(Point(x + 5, y - 10), Size(30, 20)), esFinDeLinea)];
    }

    /** Appends the seven legend controls one by one, as the form does; `Leyenda`
        gives the same seven controls as a value. */
    method AnadirLeyenda()
      modifies this`controls
      ensures controls == old(controls) + Leyenda()
    {
      var yLeyenda := YLeyenda;
      var xLeyenda := XLeyenda;
      controls := controls + [LegendLabel(Box(Point(xLeyenda, yLeyenda), Size(100, 20)), "Leyenda:")];
      controls := controls + [LegendSwatch(Box(Point(xLeyenda, yLeyenda + 25), Size(20, 20)), Rgb(46, 204, 113))];
      controls := controls + [LegendLabel(Box(Point(xLeyenda + 30, yLeyenda + 25), Size(100, 20)), "Completado")];
      controls := controls + [LegendSwatch(Box(Point(xLeyenda + 150, yLeyenda + 25), Size(20, 20)), Rgb(231, 76, 60))];
      controls := controls + [LegendLabel(Box(Point(xLeyenda + 180, yLeyenda + 25), Size(100, 20)), "Pendiente")];
      controls := controls + [LegendSwatch(Box(Point(xLeyenda + 290, yLeyenda + 25), Size(20, 20)), Rgb(149, 165, 166))];
      controls := controls + [LegendLabel(Box(Point(xLeyenda + 320, yLeyenda + 25), Size(120, 20)), "No Implementado")];
    }
  }
}
