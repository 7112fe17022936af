/** Progress resolution: one (stage, completed) entry per catalog stage, computed
    from existence checks against the backing store. */
module Progress {
  import opened Outcomes
  import opened Stages

  /** The backing store as the form observes it: the (table, company id) pairs
      for which at least one record exists, and the tables whose query raises
      (connection lost, schema mismatch, ...). */
  datatype Store = Store(records: set<(Table, int)>, failing: set<Table>)

  /** `dataContext.<table>.Any(r => r.empresa_id == empresaId)`. */
  function Any(store: Store, t: Table, empresaId: int): (r: Result<bool>)
    ensures r.Err? <==> t in store.failing
    ensures r.Err? ==> r.error == StoreQueryFailed
    ensures r.Ok? ==> (r.value <==> (t, empresaId) in store.records)
  {
    if t in store.failing then Err(StoreQueryFailed) else Ok((t, empresaId) in store.records)
  }

  /** The completion flag of one catalog stage: a live check, or a literal false. */
  function Check(store: Store, stage: Stage, empresaId: int): Result<bool> {
    match stage.table
    case None => Ok(false)
    case Some(t) => Any(store, t, empresaId)
  }

  /** The stage's flag when its check succeeds. */
  predicate Completed(store: Store, stage: Stage, empresaId: int) {
    stage.table.Some? && (stage.table.value, empresaId) in store.records
  }

  /** Some stage of `stages` has a live check whose query raises. */
  predicate AnyCheckFails(store: Store, stages: seq<Stage>) {
    exists k :: 0 <= k < |stages| && stages[k].table.Some? && stages[k].table.value in store.failing
  }

  /** Reference resolver: walks the catalog in order; the first failing check
      discards everything gathered so far. */
  function Resolve(store: Store, stages: seq<Stage>, empresaId: int): Result<seq<ProgressEntry>> {
    if stages == [] then Ok([])
    else
      match Check(store, stages[0], empresaId)
      case Err(e) => Err(e)
      case Ok(b) =>
        match Resolve(store, stages[1..], empresaId)
        case Err(e) => Err(e)
        case Ok(rest) => Ok([ProgressEntry(stages[0].name, b)] + rest)
  }

  /** The resolver fails exactly when some live check raises. */
  lemma {:induction false} ResolveFailsIff(store: Store, stages: seq<Stage>, empresaId: int)
    ensures Resolve(store, stages, empresaId).Err? <==> AnyCheckFails(store, stages)
    ensures Resolve(store, stages, empresaId).Err? ==> Resolve(store, stages, empresaId).error == StoreQueryFailed
  {
    if stages != [] {
      ResolveFailsIff(store, stages[1..], empresaId);
      if AnyCheckFails(store, stages[1..]) {
        var k :| 0 <= k < |stages[1..]| && stages[1..][k].table.Some? && stages[1..][k].table.value in store.failing;
        assert stages[k + 1] == stages[1..][k];
      }
      if AnyCheckFails(store, stages) && !(stages[0].table.Some? && stages[0].table.value in store.failing) {
        var k :| 0 <= k < |stages| && stages[k].table.Some? && stages[k].table.value in store.failing;
        assert k > 0 && stages[1..][k - 1] == stages[k];
      }
    }
  }

  /** On success there is one entry per stage, in stage order, carrying the
      stage's name and its existence flag. */
  lemma {:induction false} ResolveShape(store: Store, stages: seq<Stage>, empresaId: int)
    requires Resolve(store, stages, empresaId).Ok?
    ensures |Resolve(store, stages, empresaId).value| == |stages|
    ensures forall k :: 0 <= k < |stages| ==>
      Resolve(store, stages, empresaId).value[k] == ProgressEntry(stages[k].name, Completed(store, stages[k], empresaId))
  {
    if stages != [] {
      ResolveShape(store, stages[1..], empresaId);
      var es := Resolve(store, stages, empresaId).value;
      forall k | 0 <= k < |stages|
        ensures es[k] == ProgressEntry(stages[k].name, Completed(store, stages[k], empresaId))
      {
        if k > 0 {
          assert stages[1..][k - 1] == stages[k];
        }
      }
    }
  }

  /** What `ObtenerProgresoEmpresa` returns: the resolved list, or the empty
      list when a check raised (never a partial prefix). */
  function ProgresoEmpresa(store: Store, empresaId: int): seq<ProgressEntry> {
    match Resolve(store, Catalog, empresaId)
    case Ok(es) => es
    case Err(_) => []
  }

  const LiveTables: set<Table> := {Mision, Vision, Valores, ObjetivoG, MatrizCAME}

  /** On the catalog, "some live check raises" means "one of the five tables raises". */
  lemma CatalogCheckFails(store: Store)
    ensures AnyCheckFails(store, Catalog) <==> LiveTables * store.failing != {}
  {
    if AnyCheckFails(store, Catalog) {
      var k :| 0 <= k < |Catalog| && Catalog[k].table.Some? && Catalog[k].table.value in store.failing;
      assert Catalog[k].table.value in LiveTables * store.failing;
    }
    if LiveTables * store.failing != {} {
      var t :| t in LiveTables * store.failing;
      var k := match t
        case Mision => 0 case Vision => 1 case Valores => 2 case ObjetivoG => 3 case MatrizCAME => 10;
      assert Catalog[k].table == Some(t);
    }
  }

  /** The catalog-level statement of the progress contract: empty exactly when one
      of the five live tables raises; otherwise eleven entries in catalog order,
      entries 1-4 and 11 the existence checks, entries 5-10 always false. */
  lemma ProgresoEmpresaContents(store: Store, empresaId: int)
    ensures ProgresoEmpresa(store, empresaId) == [] <==> LiveTables * store.failing != {}
    ensures LiveTables * store.failing == {} ==>
      var es := ProgresoEmpresa(store, empresaId);
      |es| == 11 &&
      (forall k :: 0 <= k < 11 ==> es[k].name == Catalog[k].name) &&
      es[0].completed == ((Mision, empresaId) in store.records) &&
      es[1].completed == ((Vision, empresaId) in store.records) &&
      es[2].completed == ((Valores, empresaId) in store.records) &&
      es[3].completed == ((ObjetivoG, empresaId) in store.records) &&
      (forall k :: 4 <= k <= 9 ==> !es[k].completed) &&
      es[10].completed == ((MatrizCAME, empresaId) in store.records)
  {
    ResolveFailsIff(store, Catalog, empresaId);
    CatalogCheckFails(store);
    if LiveTables * store.failing == {} {
      ResolveShape(store, Catalog, empresaId);
    }
  }

  /** A stage on the not-implemented list is never reported complete, whatever
      the store holds. */
  lemma NotImplementedNeverCompleted(store: Store, empresaId: int, k: nat)
    requires k < |ProgresoEmpresa(store, empresaId)|
    requires EsEtapaNoImplementada(ProgresoEmpresa(store, empresaId)[k].name)
    ensures !ProgresoEmpresa(store, empresaId)[k].completed
  {
    ProgresoEmpresaContents(store, empresaId);
    NotImplementedStages(k);
  }

  /** A company with no record in any of the five tables gets eleven entries,
      all incomplete. */
  lemma NoRecordsAllIncomplete(store: Store, empresaId: int)
    requires store.failing == {}
    requires forall t :: (t, empresaId) !in store.records
    ensures |ProgresoEmpresa(store, empresaId)| == 11
    ensures forall k :: 0 <= k < 11 ==> !ProgresoEmpresa(store, empresaId)[k].completed
  {
    ProgresoEmpresaContents(store, empresaId);
  }

  /** `ObtenerProgresoEmpresa`: the five queries and six literal flags, added one
      after another; a query that raises abandons the partly built dictionary and
      yields an empty one together with the message kind. */
  method ObtenerProgresoEmpresa(store: Store, empresaId: int) returns (progreso: seq<ProgressEntry>, error: Option<ErrorKind>)
    ensures progreso == ProgresoEmpresa(store, empresaId)
    ensures error == (if LiveTables * store.failing == {} then None else Some(StoreQueryFailed))
  {
    ProgresoEmpresaContents(store, empresaId);
    progreso := [];
    var mision := Any(store, Mision, empresaId);
    if mision.Err? {
      assert Mision in LiveTables * store.failing;
      return [], Some(mision.error);
    }
    progreso := progreso + [ProgressEntry("1. Misión", mision.value)];
    var vision := Any(store, Vision, empresaId);
    if vision.Err? {
      assert Vision in LiveTables * store.failing;
      return [], Some(vision.error);
    }
    progreso := progreso + [ProgressEntry("2. Visión", vision.value)];
    var valores := Any(store, Valores, empresaId);
    if valores.Err? {
      assert Valores in LiveTables * store.failing;
      return [], Some(valores.error);
    }
    progreso := progreso + [ProgressEntry("3. Valores", valores.value)];
    var objetivos := Any(store, ObjetivoG, empresaId);
    if objetivos.Err? {
      assert ObjetivoG in LiveTables * store.failing;
      return [], Some(objetivos.error);
    }
    progreso := progreso + [ProgressEntry("4. Objetivos", objetivos.value)];
    progreso := progreso + [ProgressEntry("5. Análisis FODA", false)];
    progreso := progreso + [ProgressEntry("6. Cadena de Valor", false)];
    progreso := progreso + [ProgressEntry("7. Matriz de Participación", false)];
    progreso := progreso + [ProgressEntry("8. Las 5 Fuerzas de Porter", false)];
    progreso := progreso + [ProgressEntry("9. PEST", false)];
    progreso := progreso + [ProgressEntry("10. Identificación Estrategia", false)];
    var matrizCAME := Any(store, MatrizCAME, empresaId);
    if matrizCAME.Err? {
      assert MatrizCAME in LiveTables * store.failing;
      return [], Some(matrizCAME.error);
    }
    progreso := progreso + [ProgressEntry("11. Matriz CAME", matrizCAME.value)];
    error := None;
  }
}
