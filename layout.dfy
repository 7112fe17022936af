/** Timeline layout: where each stage cell, connector and legend item goes, and
    how a stage is coloured and marked. */
module Layout {
  import opened Stages
  import Progress

  const InicioX := 20
  const InicioY := 20
  const AnchoEtapa := 180
  const AltoEtapa := 60
  const EspacioEntre := 40
  const Columnas := 3

  datatype Point = Point(x: int, y: int)
  datatype Size = Size(width: int, height: int)
  datatype Color = Rgb(r: int, g: int, b: int)

  /** An axis-aligned box: a control's location and size. */
  datatype Box = Box(location: Point, size: Size) {
    predicate DisjointFrom(other: Box) {
      location.x + size.width <= other.location.x || other.location.x + other.size.width <= location.x ||
      location.y + size.height <= other.location.y || other.location.y + other.size.height <= location.y
    }
  }

  /** The children the form adds to the timeline panel. */
  datatype Control =
    | StagePanel(box: Box, backColor: Color, text: string, icon: string)
    | ArrowPanel(box: Box, endOfLine: bool)
    | LegendLabel(box: Box, text: string)
    | LegendSwatch(box: Box, backColor: Color)

  // ---------------------------------------------------------------- classification

  datatype State = Complete | NotImplemented | Pending

  /** The three-way rule: completion first, then the not-implemented list. */
  function Classify(completed: bool, etapa: string): (s: State)
    ensures s == Complete <==> completed
    ensures s == NotImplemented <==> !completed && EsEtapaNoImplementada(etapa)
    ensures s == Pending <==> !completed && !EsEtapaNoImplementada(etapa)
  {
    if completed then Complete
    else if EsEtapaNoImplementada(etapa) then NotImplemented
    else Pending
  }

  const Verde := Rgb(46, 204, 113)
  const Gris := Rgb(149, 165, 166)
  const Rojo := Rgb(231, 76, 60)

  function StateColor(s: State): Color {
    match s
    case Complete => Verde
    case NotImplemented => Gris
    case Pending => Rojo
  }

  function StateGlyph(s: State): string {
    match s
    case Complete => "✓"
    case NotImplemented => "⚠"
    case Pending => "✗"
  }

  /** The background chain of the cell loop; it agrees with the classification. */
  function ColorFondo(completed: bool, etapa: string): (c: Color)
    ensures c == StateColor(Classify(completed, etapa))
  {
    if completed then Rgb(46, 204, 113)
    else if EsEtapaNoImplementada(etapa) then Rgb(149, 165, 166)
    else Rgb(231, 76, 60)
  }

  /** The icon chain of the cell loop; it agrees with the classification too. */
  function TextoIcono(completed: bool, etapa: string): (g: string)
    ensures g == StateGlyph(Classify(completed, etapa))
  {
    if completed then "✓"
    else if EsEtapaNoImplementada(etapa) then "⚠"
    else "✗"
  }

  /** Colour and glyph each identify the state: two cells look alike exactly when
      they are classified alike. */
  lemma AppearanceDeterminesState(c1: bool, e1: string, c2: bool, e2: string)
    ensures ColorFondo(c1, e1) == ColorFondo(c2, e2) <==> Classify(c1, e1) == Classify(c2, e2)
    ensures TextoIcono(c1, e1) == TextoIcono(c2, e2) <==> Classify(c1, e1) == Classify(c2, e2)
  {
  }

  /** How the resolved progress of any company is shown: stages 1-4 and 11 are
      COMPLETE or PENDING according to the store, stages 5 and 6 are always PENDING,
      stages 7 to 10 always NOT_IMPLEMENTED. */
  lemma ProgressClassification(store: Progress.Store, empresaId: int, k: nat)
    requires k < |Progress.ProgresoEmpresa(store, empresaId)|
    ensures var e := Progress.ProgresoEmpresa(store, empresaId)[k];
      (4 <= k <= 5 ==> Classify(e.completed, e.name) == Pending) &&
      (6 <= k <= 9 ==> Classify(e.completed, e.name) == NotImplemented) &&
      (k < 4 || k == 10 ==> (Classify(e.completed, e.name) == Complete <==>
                              (Catalog[k].table.value, empresaId) in store.records))
  {
    Progress.ProgresoEmpresaContents(store, empresaId);
    NotImplementedStages(k);
  }

  // ---------------------------------------------------------------- grid

  function Fila(i: nat): nat { i / Columnas }

  function Columna(i: nat): nat { i % Columnas }

  /** The cell's top-left corner. */
  function Origen(i: nat): Point {
    Point(InicioX + Columna(i) * (AnchoEtapa + EspacioEntre),
          InicioY + Fila(i) * (AltoEtapa + EspacioEntre + 20))
  }

  function CellBox(i: nat): Box {
    Box(Origen(i), Size(AnchoEtapa, AltoEtapa))
  }

  /** Cell i sits in row i / 3 and column i % 3 of a three-column grid, with
      columns 220 pixels and rows 120 pixels apart. */
  lemma GridPlacement(i: nat)
    ensures Columna(i) < 3 && i == 3 * Fila(i) + Columna(i)
    ensures Origen(i) == Point(20 + 220 * Columna(i), 20 + 120 * Fila(i))
    ensures CellBox(i).size == Size(180, 60)
  {
  }

  /** Two different cells never overlap (so, in particular, their origins differ). */
  lemma CellsDisjoint(i: nat, j: nat)
    requires i != j
    ensures CellBox(i).DisjointFrom(CellBox(j))
    ensures Origen(i) != Origen(j)
  {
    GridPlacement(i);
    GridPlacement(j);
    if Fila(i) < Fila(j) {
      MulMonotone(120, Fila(i) + 1, Fila(j));
    } else if Fila(j) < Fila(i) {
      MulMonotone(120, Fila(j) + 1, Fila(i));
    } else if Columna(i) < Columna(j) {
      MulMonotone(220, Columna(i) + 1, Columna(j));
    } else if Columna(j) < Columna(i) {
      MulMonotone(220, Columna(j) + 1, Columna(i));
    }
  }

  lemma MulMonotone(c: nat, a: nat, b: nat)
    requires a <= b
    ensures c * a <= c * b
  {
  }

  // ---------------------------------------------------------------- connectors

  /** `DibujarFlecha(x, y, esFinDeLinea)`: a 30 x 20 box whose corner is 5 pixels
      right of and 10 pixels above the anchor point. */
  function Flecha(x: int, y: int, esFinDeLinea: bool): (c: Control)
    ensures c.ArrowPanel? && c.endOfLine == esFinDeLinea
    ensures c.box.size == Size(30, 20) && c.box.location.x == x + 5
    ensures c.box.location.y + c.box.size.height / 2 == y
  {
    ArrowPanel(Box(Point(x + 5, y - 10), Size(30, 20)), esFinDeLinea)
  }

  /** The connector drawn after cell i, anchored at the middle of its right edge. */
  function FlechaTras(i: nat): Control {
    Flecha(Origen(i).x + AnchoEtapa, Origen(i).y + AltoEtapa / 2, Columna(i) == Columnas - 1)
  }

  /** A connector leads to the next cell: a drop-down one exactly when cell i ends
      its row (the next cell opens the next row), otherwise a straight one lying in
      the gap between cell i and cell i + 1. Its box sits at (x + 185, y + 20),
      30 x 20, for cell origin (x, y). */
  lemma ConnectorToNext(i: nat)
    ensures FlechaTras(i).box == Box(Point(Origen(i).x + 185, Origen(i).y + 20), Size(30, 20))
    ensures FlechaTras(i).endOfLine <==> Columna(i) == 2
    ensures FlechaTras(i).endOfLine ==> Fila(i + 1) == Fila(i) + 1 && Columna(i + 1) == 0
    ensures !FlechaTras(i).endOfLine ==>
      Fila(i + 1) == Fila(i) && Columna(i + 1) == Columna(i) + 1 &&
      CellBox(i).location.x + CellBox(i).size.width < FlechaTras(i).box.location.x &&
      FlechaTras(i).box.location.x + FlechaTras(i).box.size.width < CellBox(i + 1).location.x &&
      CellBox(i).location.y < FlechaTras(i).box.location.y &&
      FlechaTras(i).box.location.y + FlechaTras(i).box.size.height < CellBox(i).location.y + CellBox(i).size.height
  {
    GridPlacement(i);
    GridPlacement(i + 1);
    if Columna(i) == 2 {
      assert i + 1 == 3 * (Fila(i) + 1);
    } else {
      assert i + 1 == 3 * Fila(i) + (Columna(i) + 1);
    }
  }

  /** No connector covers any cell. */
  lemma ConnectorClearOfCells(i: nat, j: nat)
    ensures FlechaTras(i).box.DisjointFrom(CellBox(j))
  {
    GridPlacement(i);
    GridPlacement(j);
    if Fila(i) < Fila(j) {
      MulMonotone(120, Fila(i) + 1, Fila(j));
    } else if Fila(j) < Fila(i) {
      MulMonotone(120, Fila(j) + 1, Fila(i));
    } else if Columna(i) < Columna(j) {
      MulMonotone(220, Columna(i) + 1, Columna(j));
    } else if Columna(j) < Columna(i) {
      MulMonotone(220, Columna(j) + 1, Columna(i));
    }
  }

  // ---------------------------------------------------------------- cells and timeline

  /** The panel of stage i: its grid box, its classification colour, its label and icon. */
  function Celda(progreso: seq<ProgressEntry>, i: nat): (c: Control)
    requires i < |progreso|
    ensures c.StagePanel? && c.box == CellBox(i) && c.text == progreso[i].name
    ensures c.backColor == StateColor(Classify(progreso[i].completed, progreso[i].name))
    ensures c.icon == StateGlyph(Classify(progreso[i].completed, progreso[i].name))
  {
    StagePanel(CellBox(i), ColorFondo(progreso[i].completed, progreso[i].name),
               progreso[i].name, TextoIcono(progreso[i].completed, progreso[i].name))
  }

  /** What iteration i of the loop adds: the connector (unless i is the last stage)
      and then the stage's panel. */
  function Paso(progreso: seq<ProgressEntry>, i: nat): seq<Control>
    requires i < |progreso|
  {
    (if i < |progreso| - 1 then [FlechaTras(i)] else []) + [Celda(progreso, i)]
  }

  /** The controls after the first k iterations of the loop. */
  function Cronograma(progreso: seq<ProgressEntry>, k: nat): seq<Control>
    requires k <= |progreso|
  {
    if k == 0 then [] else Cronograma(progreso, k - 1) + Paso(progreso, k - 1)
  }

  /** The position of stage i's panel in the full timeline. */
  function CellIndex(n: nat, i: nat): nat {
    if i + 1 < n then 2 * i + 1 else 2 * i
  }

  /** k iterations add two controls each, except that the last stage adds no connector. */
  lemma {:induction false} CronogramaLength(progreso: seq<ProgressEntry>, k: nat)
    requires k <= |progreso|
    ensures |Cronograma(progreso, k)| == (if k == |progreso| && k > 0 then 2 * k - 1 else 2 * k)
  {
    if k > 0 {
      CronogramaLength(progreso, k - 1);
    }
  }

  /** Later iterations only append: what the first i iterations added stays in place. */
  lemma {:induction false} CronogramaPrefix(progreso: seq<ProgressEntry>, i: nat, k: nat)
    requires i <= k <= |progreso|
    ensures |Cronograma(progreso, i)| <= |Cronograma(progreso, k)|
    ensures Cronograma(progreso, k)[..|Cronograma(progreso, i)|] == Cronograma(progreso, i)
  {
    if i < k {
      CronogramaPrefix(progreso, i, k - 1);
      var prev := Cronograma(progreso, k - 1);
      assert Cronograma(progreso, k) == prev + Paso(progreso, k - 1);
      assert Cronograma(progreso, k)[..|prev|] == prev;
    }
  }

  /** After k > i iterations: connector i at position 2i with cell i right after it,
      unless i is the last stage, whose cell sits at 2i with no connector after it. */
  lemma CronogramaAt(progreso: seq<ProgressEntry>, k: nat, i: nat)
    requires i < k <= |progreso|
    ensures 2 * i < |Cronograma(progreso, k)|
    ensures i + 1 < |progreso| ==> 2 * i + 1 < |Cronograma(progreso, k)|
    ensures i + 1 < |progreso| ==>
      Cronograma(progreso, k)[2 * i] == FlechaTras(i) && Cronograma(progreso, k)[2 * i + 1] == Celda(progreso, i)
    ensures i + 1 == |progreso| ==> Cronograma(progreso, k)[2 * i] == Celda(progreso, i)
  {
    CronogramaLength(progreso, i);
    CronogramaLength(progreso, i + 1);
    CronogramaLength(progreso, k);
    CronogramaPrefix(progreso, i + 1, k);
    var upto := Cronograma(progreso, i + 1);
    assert upto == Cronograma(progreso, i) + Paso(progreso, i);
    assert Cronograma(progreso, k)[2 * i] == upto[2 * i];
    if i + 1 < |progreso| {
      assert Cronograma(progreso, k)[2 * i + 1] == upto[2 * i + 1];
    }
  }

  /** Exactly the even positions before 2(n - 1) hold connectors: n - 1 of them for
      n stages, none after the last cell. */
  lemma CronogramaKinds(progreso: seq<ProgressEntry>, k: nat, j: nat)
    requires k <= |progreso| && j < |Cronograma(progreso, k)|
    ensures Cronograma(progreso, k)[j].ArrowPanel? <==> j % 2 == 0 && j + 2 < 2 * |progreso|
  {
    CronogramaLength(progreso, k);
    CronogramaAt(progreso, k, j / 2);
  }

  // ---------------------------------------------------------------- legend

  const YLeyenda := 300
  const XLeyenda := 20

  /** The seven legend controls, in the order they are added. */
  function Leyenda(): (l: seq<Control>)
    ensures |l| == 7
    ensures l[0] == LegendLabel(Box(Point(20, 300), Size(100, 20)), "Leyenda:")
    ensures l[1].LegendSwatch? && l[1].backColor == StateColor(Complete) &&
            l[3].LegendSwatch? && l[3].backColor == StateColor(Pending) &&
            l[5].LegendSwatch? && l[5].backColor == StateColor(NotImplemented)
    ensures l[2].LegendLabel? && l[2].text == "Completado" &&
            l[4].LegendLabel? && l[4].text == "Pendiente" &&
            l[6].LegendLabel? && l[6].text == "No Implementado"
    ensures l[1].box.location == Point(20, 325) && l[3].box.location == Point(170, 325) &&
            l[5].box.location == Point(310, 325)
    ensures forall k :: 0 <= k < 3 ==>
      l[2 * k + 1].box.size == Size(20, 20) &&
      l[2 * k + 2].box.location == Point(l[2 * k + 1].box.location.x + 30, l[2 * k + 1].box.location.y)
  {
    [ LegendLabel(Box(Point(XLeyenda, YLeyenda), Size(100, 20)), "Leyenda:"),
      LegendSwatch(Box(Point(XLeyenda, YLeyenda + 25), Size(20, 20)), Rgb(46, 204, 113)),
      LegendLabel(Box(Point(XLeyenda + 30, YLeyenda + 25), Size(100, 20)), "Completado"),
      LegendSwatch(Box(Point(XLeyenda + 150, YLeyenda + 25), Size(20, 20)), Rgb(231, 76, 60)),
      LegendLabel(Box(Point(XLeyenda + 180, YLeyenda + 25), Size(100, 20)), "Pendiente"),
      LegendSwatch(Box(Point(XLeyenda + 290, YLeyenda + 25), Size(20, 20)), Rgb(149, 165, 166)),
      LegendLabel(Box(Point(XLeyenda + 320, YLeyenda + 25), Size(120, 20)), "No Implementado") ]
  }

  /** With the eleven catalog stages the legend does not sit below the grid: its title
      overlaps the panel of stage 7 (row 2), and row 3 lies below it. */
  lemma LegendWithinGrid()
    ensures !Leyenda()[0].box.DisjointFrom(CellBox(6))
    ensures CellBox(9).location.y > Leyenda()[6].box.location.y + Leyenda()[6].box.size.height
  {
  }

  // ---------------------------------------------------------------- whole surface

  /** The panel's children after drawing `progreso` on a cleared panel. */
  function Dibujo(progreso: seq<ProgressEntry>): seq<Control> {
    Cronograma(progreso, |progreso|) + Leyenda()
  }

  /** The whole surface for n stages: 2n - 1 timeline controls (none when n = 0)
      followed by the seven legend controls; cell i at CellIndex(n, i), connector i
      at 2i for every stage but the last, and nothing else is a connector. */
  lemma DibujoContents(progreso: seq<ProgressEntry>)
    ensures var n := |progreso|;
      |Dibujo(progreso)| == (if n == 0 then 0 else 2 * n - 1) + 7 &&
      Dibujo(progreso)[(if n == 0 then 0 else 2 * n - 1)..] == Leyenda() &&
      (forall i :: 0 <= i < n ==> Dibujo(progreso)[CellIndex(n, i)] == Celda(progreso, i)) &&
      (forall i :: 0 <= i && i + 1 < n ==> Dibujo(progreso)[2 * i] == FlechaTras(i)) &&
      (forall j :: 0 <= j < |Dibujo(progreso)| - 7 ==> (Dibujo(progreso)[j].ArrowPanel? <==> j % 2 == 0 && j + 2 < 2 * n))
  {
    var n := |progreso|;
    var t := Cronograma(progreso, n);
    CronogramaLength(progreso, n);
    assert Dibujo(progreso)[..|t|] == t;
    forall i | 0 <= i < n ensures Dibujo(progreso)[CellIndex(n, i)] == Celda(progreso, i) {
      CronogramaAt(progreso, n, i);
      assert Dibujo(progreso)[CellIndex(n, i)] == t[CellIndex(n, i)];
    }
    forall i | 0 <= i && i + 1 < n ensures Dibujo(progreso)[2 * i] == FlechaTras(i) {
      CronogramaAt(progreso, n, i);
      assert Dibujo(progreso)[2 * i] == t[2 * i];
    }
    forall j | 0 <= j < |Dibujo(progreso)| - 7
      ensures Dibujo(progreso)[j].ArrowPanel? <==> j % 2 == 0 && j + 2 < 2 * n
    {
      CronogramaKinds(progreso, n, j);
      assert Dibujo(progreso)[j] == t[j];
    }
  }
}
