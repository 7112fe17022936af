# Cronograma form: progress resolution and timeline layout

This project models the deterministic core of `frmCronograma`, a WinForms form that shows a
company's progress through eleven fixed strategic-planning stages ("1. Misión" to "11. Matriz CAME").
The user picks one of their companies from a combo box and presses "generate". The form then
asks the backing store whether any record exists for that company in five tables (Misión, Visión,
Valores, ObjetivoG, Matriz CAME). It builds an ordered list of (stage, completed) pairs and draws
it on a panel as a three-column grid of coloured cells joined by arrows, followed by a seven-control legend.

Modules:

- `Outcomes` (outcomes.dfy): `Option`, `Result` and the error kinds the form reports with a message box.
- `Stages` (stages.dfy): the stage catalog in display order, each stage with the table behind its live
  check (or none), the fixed not-implemented list and `EsEtapaNoImplementada`.
- `Progress` (progress.dfy): the store as an oracle (`Store`: the (table, company) pairs with a record and
  the tables whose query raises), a reference resolver `Resolve` over the catalog, and the form's
  straight-line `ObtenerProgresoEmpresa`, proved equal to it.
- `Layout` (layout.dfy): grid arithmetic, the three-way classification with its colour and glyph
  chains, the connector and legend controls, and `Dibujo`, the exact list of panel children for a
  progress list, with lemmas giving every position in it.
- `Form` (form.dfy): class `FrmCronograma`. Its fields are the combo items, the selected index, the panel's
  controls and a log of the message boxes shown. Its methods load the companies, guard the generate
  button, resolve and draw.

Inputs that come from outside the form are parameters: the session's user id, the company table (or a
query failure) and the progress store.

Three behaviours of the code worth noting:

- When a progress check raises, `GenerarCronograma` still calls `DibujarCronograma` with the empty
  dictionary, so the panel ends up holding the seven legend controls, not nothing
  (`Form.FrmCronograma.GenerarCronograma`, `Layout.DibujoContents` with n = 0).
- The legend is placed at the fixed y = 300, not below the grid. With eleven stages its title box
  overlaps the cell of stage 7, and row 3 (stages 10 and 11, y = 380) lies below the whole legend
  (`Layout.LegendWithinGrid`).
- The company query failing is reported by the `catch` of `CargarEmpresas` as its own message kind
  (`CompanyLoadFailed`).

## Model

| member | source | states |
|---|---|---|
| `Stages.EsEtapaNoImplementada` | WindowsFormsApp2/WindowsFormsApp2/frmCronograma.cs:278-289 | a stage name is on the not-implemented list exactly when it is the label of catalog stage 7, 8, 9 or 10 |
| `Stages.CatalogNamesDistinct` | WindowsFormsApp2/WindowsFormsApp2/frmCronograma.cs:130-166 | the catalog has 11 stages whose labels are pairwise distinct, so the eleven dictionary `Add` calls never meet a duplicate key |
| `Stages.NotImplementedStages` | WindowsFormsApp2/WindowsFormsApp2/frmCronograma.cs:278-289 | the not-implemented test holds for catalog stage k exactly when k is stage 7, 8, 9 or 10; stages 5 and 6 are not on the list |
| `Stages.UncheckedStages` | WindowsFormsApp2/WindowsFormsApp2/frmCronograma.cs:146-162 | the stages without a store check are exactly stages 5 to 10 |
| `Progress.Any` | WindowsFormsApp2/WindowsFormsApp2/frmCronograma.cs:131-165 | an existence check raises, with the store-error kind, exactly when its table fails; otherwise it answers whether the table holds a record for the company |
| `Progress.ResolveFailsIff` | WindowsFormsApp2/WindowsFormsApp2/frmCronograma.cs:128-174 | resolving a stage list fails, with the store-error kind, exactly when one of its live checks raises |
| `Progress.ResolveShape` | WindowsFormsApp2/WindowsFormsApp2/frmCronograma.cs:130-168 | a successful resolution has one entry per stage, in stage order, whose name is the stage's and whose flag is the existence check for live stages and false otherwise |
| `Progress.CatalogCheckFails` | WindowsFormsApp2/WindowsFormsApp2/frmCronograma.cs:130-166 | on the catalog, some live check raising means exactly that one of the five tables raises |
| `Progress.ProgresoEmpresaContents` | WindowsFormsApp2/WindowsFormsApp2/frmCronograma.cs:124-175 | the progress is empty exactly when one of the five tables raises (never a partial prefix); otherwise 11 entries in catalog order, entries 1-4 and 11 equal to the store's existence check for the company, entries 5-10 false |
| `Progress.NotImplementedNeverCompleted` | WindowsFormsApp2/WindowsFormsApp2/frmCronograma.cs:152-162 | an entry whose stage is on the not-implemented list is never completed, whatever the store holds |
| `Progress.NoRecordsAllIncomplete` | WindowsFormsApp2/WindowsFormsApp2/frmCronograma.cs:130-168 | a company with no record in any table and a healthy store gets 11 entries, all incomplete |
| `Progress.ObtenerProgresoEmpresa` | WindowsFormsApp2/WindowsFormsApp2/frmCronograma.cs:124-175 | the step-by-step dictionary build returns the reference resolver's list (empty on failure), and reports the store-error kind exactly when one of the five tables raises |
| `Layout.Classify` | WindowsFormsApp2/WindowsFormsApp2/frmCronograma.cs:213-224 | strict three-way rule: COMPLETE iff completed (even for a not-implemented stage); NOT_IMPLEMENTED iff not completed and on the list; PENDING iff neither |
| `Layout.ColorFondo` | WindowsFormsApp2/WindowsFormsApp2/frmCronograma.cs:209-226 | the background chain yields the classification's colour: green (46,204,113), gray (149,165,166) or red (231,76,60) |
| `Layout.TextoIcono` | WindowsFormsApp2/WindowsFormsApp2/frmCronograma.cs:250-261 | the icon chain yields the classification's glyph, so it always agrees with the colour chain |
| `Layout.ProgressClassification` | WindowsFormsApp2/WindowsFormsApp2/frmCronograma.cs:146-224 | in any company's resolved progress, stages 5 and 6 are classified PENDING, stages 7 to 10 NOT_IMPLEMENTED, and stages 1-4 and 11 COMPLETE exactly when the store holds a record for them |
| `Layout.AppearanceDeterminesState` | WindowsFormsApp2/WindowsFormsApp2/frmCronograma.cs:213-261 | two cells get the same colour, and the same glyph, exactly when they are classified alike |
| `Layout.GridPlacement` | WindowsFormsApp2/WindowsFormsApp2/frmCronograma.cs:183-199 | cell i is in row i / 3 and column i % 3 < 3 with i = 3 row + column, at (20 + 220 column, 20 + 120 row), 180 x 60 |
| `Layout.CellsDisjoint` | WindowsFormsApp2/WindowsFormsApp2/frmCronograma.cs:195-207 | the boxes of two different cells never overlap, and their origins differ |
| `Layout.Flecha` | WindowsFormsApp2/WindowsFormsApp2/frmCronograma.cs:291-298 | a connector of the requested kind whose 30 x 20 box starts 5 pixels right of the anchor and is centred vertically on it |
| `Layout.ConnectorToNext` | WindowsFormsApp2/WindowsFormsApp2/frmCronograma.cs:266-298 | the connector after cell i has box (x + 185, y + 20), 30 x 20; it is a drop-down exactly when column(i) = 2, and then cell i + 1 opens the next row; otherwise cell i + 1 is the next column of the same row and the connector lies in the gap between the two cells |
| `Layout.ConnectorClearOfCells` | WindowsFormsApp2/WindowsFormsApp2/frmCronograma.cs:291-298 | no connector box overlaps any cell box |
| `Layout.Celda` | WindowsFormsApp2/WindowsFormsApp2/frmCronograma.cs:202-263 | the panel of stage i has the grid box of cell i, the stage name as text, and the colour and glyph of the stage's classification |
| `Layout.CronogramaLength` | WindowsFormsApp2/WindowsFormsApp2/frmCronograma.cs:193-272 | after k loop iterations the panel holds 2k controls, or 2k - 1 once the last stage is drawn |
| `Layout.CronogramaPrefix` | WindowsFormsApp2/WindowsFormsApp2/frmCronograma.cs:193-272 | later iterations only append to what earlier ones added |
| `Layout.CronogramaAt` | WindowsFormsApp2/WindowsFormsApp2/frmCronograma.cs:265-271 | the connector of stage i is added before its panel: connector i at position 2i and cell i at 2i + 1, and the last stage's cell at 2i with no connector |
| `Layout.CronogramaKinds` | WindowsFormsApp2/WindowsFormsApp2/frmCronograma.cs:265-269 | a timeline control is a connector exactly at the even positions before 2(n - 1): n - 1 connectors, none after the last cell |
| `Layout.Leyenda` | WindowsFormsApp2/WindowsFormsApp2/frmCronograma.cs:326-397 | seven input-independent controls: title "Leyenda:" at (20,300); swatches at x = 20, 170, 310, y = 325, coloured like COMPLETE, PENDING and NOT_IMPLEMENTED; labels "Completado", "Pendiente", "No Implementado" 30 pixels right of their swatches |
| `Layout.LegendWithinGrid` | WindowsFormsApp2/WindowsFormsApp2/frmCronograma.cs:326-345 | with eleven stages the legend title overlaps the cell of stage 7 and row 3 lies below the legend |
| `Layout.DibujoContents` | WindowsFormsApp2/WindowsFormsApp2/frmCronograma.cs:177-276 | for n stages the surface holds 2n - 1 timeline controls (none for n = 0) then exactly the legend; cell i and connector i at their positions, no other connectors |
| `Form.EmpresasDe` | WindowsFormsApp2/WindowsFormsApp2/frmCronograma.cs:54-60 | the model's stand-in for the company query: never more companies than table rows, and none when the user owns no row |
| `Form.EmpresasDeExact` | WindowsFormsApp2/WindowsFormsApp2/frmCronograma.cs:54-60 | the model's stand-in for the company query (a filter over the table) returns exactly the (id, name) pairs of companies owned by the user; a fact about that stand-in, not about the form's code |
| `Form.EmpresasDeOrder` | WindowsFormsApp2/WindowsFormsApp2/frmCronograma.cs:54-60 | the model's stand-in for the company query keeps table order; a fact about that stand-in, not about the form's code |
| `Form.EmpresaSeleccionada` | WindowsFormsApp2/WindowsFormsApp2/frmCronograma.cs:89-97 | the generate guard yields no company exactly when the selected index is 0 or nothing is selected, and otherwise the selected item's id |
| `Form.FrmCronograma.constructor` | WindowsFormsApp2/WindowsFormsApp2/frmCronograma.cs:18-27 | the new form has an empty panel and the combo state the company load leaves on empty widgets |
| `Form.FrmCronograma.CargarEmpresas` | WindowsFormsApp2/WindowsFormsApp2/frmCronograma.cs:42-85 | loading aborts, with its message and nothing else changed, when the user id is at most 0, when the query raises or when it finds no company; otherwise the combo holds the placeholder {ID = 0} followed by the user's companies in query order, with the placeholder selected |
| `Form.FrmCronograma.SeleccionarEmpresa` | WindowsFormsApp2/WindowsFormsApp2/frmCronograma.cs:79 | setting the combo's selected index to -1 or to a valid index keeps the form's invariant |
| `Form.FrmCronograma.BtnGenerarClick` | WindowsFormsApp2/WindowsFormsApp2/frmCronograma.cs:87-100 | generating is refused with a warning, leaving the panel as it was, when the selected index is 0 or nothing is selected; otherwise the panel shows the selected company's timeline |
| `Form.FrmCronograma.GenerarCronograma` | WindowsFormsApp2/WindowsFormsApp2/frmCronograma.cs:102-122 | the panel ends up showing the drawing of the company's progress (the legend alone when the store failed), and the store error is logged exactly when one of the five tables raised |
| `Form.FrmCronograma.DibujarCronograma` | WindowsFormsApp2/WindowsFormsApp2/frmCronograma.cs:177-276 | the panel is cleared first and then holds exactly `Dibujo(progreso)`, whatever it held before, so drawing the same progress twice gives the same panel |
| `Form.FrmCronograma.DibujarFlecha` | WindowsFormsApp2/WindowsFormsApp2/frmCronograma.cs:291-324 | appends one connector of the given kind whose 30 x 20 box is 5 pixels right of and 10 pixels above the anchor |
| `Form.FrmCronograma.AnadirLeyenda` | WindowsFormsApp2/WindowsFormsApp2/frmCronograma.cs:326-398 | appends exactly the seven legend controls |

## Left out

- Database access (LINQ to SQL): the five `Any` queries are an oracle over a set of (table, company) pairs plus a set of tables whose query raises. A store that fails on some calls to a table and not on others is not modelled.
- The company query is a filter over a list of company rows. How the database orders its answer is not modelled; the model uses table order.
- Message boxes are recorded as a log of error kinds; their texts and the exception details are not modelled. The `VerificarDatos` debug popup is left out.
- GDI+ drawing of the arrows (pens, antialiasing, line coordinates) is not modelled; only each arrow's box and kind are.
- Fonts, text colour, borders, docking, text alignment and the icon label's own size and offset inside the cell are not modelled. The icon is kept as the glyph text of the cell.
- `Sesion.UsuarioId` is a parameter of the constructor and of `CargarEmpresas`. The `dynamic` read of the selected item's `ID` is the `id` field of the combo item.
- The duplicated click handler `btnGenerar_Click_1` does the same as `btnGenerar_Click` and is not modelled separately. The empty `frmCronograma_Load`, the unused `filas` variable, `Invalidate` and the `panelCronograma != null` test are not modelled either.
- The progress dictionary is an ordered list of (name, completed) pairs. `DibujarCronograma` reads entry i's flag, which is what the dictionary lookup gives because the keys are distinct (`Stages.CatalogNamesDistinct`). Dictionary enumeration order is taken to be insertion order.
- Integers are unbounded; 32-bit overflow of the pixel arithmetic is not modelled. It would first occur in `y = 20 + 120 * (i / 3)` at stage index i = 53,687,091 (about 54 million stages).
- The `catch` of `GenerarCronograma` is not modelled: none of the modelled drawing steps raises.
- Form.FrmCronograma.SeleccionarEmpresa: models the user changing the combo selection, which WinForms does, not this file; indices outside -1 to count - 1 are refused as the combo refuses them.
