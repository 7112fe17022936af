/** The fixed catalog of eleven strategic-planning stages, in display order. */
module Stages {
  import opened Outcomes

  /** The store tables consulted by the live existence checks. */
  datatype Table = Mision | Vision | Valores | ObjetivoG | MatrizCAME

  /** A catalog entry: its label and the table whose records mark it complete,
      or None when the stage is always reported incomplete. */
  datatype Stage = Stage(name: string, table: Option<Table>)

  /** One (stage name, completed) pair of the progress dictionary. */
  datatype ProgressEntry = ProgressEntry(name: string, completed: bool)

  const Catalog: seq<Stage> := [
    Stage("1. Misión", Some(Mision)),
    Stage("2. Visión", Some(Vision)),
    Stage("3. Valores", Some(Valores)),
    Stage("4. Objetivos", Some(ObjetivoG)),
    Stage("5. Análisis FODA", None),
    Stage("6. Cadena de Valor", None),
    Stage("7. Matriz de Participación", None),
    Stage("8. Las 5 Fuerzas de Porter", None),
    Stage("9. PEST", None),
    Stage("10. Identificación Estrategia", None),
    Stage("11. Matriz CAME", Some(MatrizCAME))
  ]

  /** The stages the form marks as permanently not implemented. */
  const NoImplementadas: seq<string> := [
    "7. Matriz de Participación",
    "8. Las 5 Fuerzas de Porter",
    "9. PEST",
    "10. Identificación Estrategia"
  ]

  /** `List<string>.Contains` over the fixed not-implemented list. */
  predicate EsEtapaNoImplementada(etapa: string)
    ensures EsEtapaNoImplementada(etapa) <==>
      etapa == Catalog[6].name || etapa == Catalog[7].name || etapa == Catalog[8].name || etapa == Catalog[9].name
  {
    etapa in NoImplementadas
  }

  /** The catalog labels are pairwise distinct, so adding them one after another
      to a dictionary never meets a duplicate key. */
  lemma CatalogNamesDistinct()
    ensures |Catalog| == 11
    ensures forall i, j :: 0 <= i < j < |Catalog| ==> Catalog[i].name != Catalog[j].name
  {
  }

  /** Exactly stages 7 to 10 are in the not-implemented list; stages 5 and 6,
      though never checked against the store, are not. */
  lemma NotImplementedStages(k: nat)
    requires k < |Catalog|
    ensures EsEtapaNoImplementada(Catalog[k].name) <==> 6 <= k <= 9
  {
  }

  /** The stages without a live check are stages 5 to 10. */
  lemma UncheckedStages(k: nat)
    requires k < |Catalog|
    ensures Catalog[k].table.None? <==> 4 <= k <= 9
  {
  }
}
