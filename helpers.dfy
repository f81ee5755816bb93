/**
 * src/database/helpers.py: `ColumnProcessor.get_editable_columns`, which first
 * (re)installs a fixed "TestContext" entry into the global
 * `COLUMN_DEFINITIONS` and then returns the columns of the requested context
 * that are neither admin nor the primary key.
 */
module Helpers {
  import opened Wrappers
  import opened PyValues
  import opened OrderedDict
  import opened ColumnDefs
  import ConfigData

  /** The columns of the "TestContext" entry that every call installs. */
  const TEST_CONTEXT_COLUMNS: Defs := [
    Entry("id", map["is_primary_key" := VBool(true)]),
    Entry("name", map["admin" := VBool(false)]),
    Entry("secret_data", map["admin" := VBool(true)]),
    Entry("created_at", map["admin" := VBool(false)])
  ]

  /** The registry after the installation: "TestContext" set, every other context untouched. */
  function WithTestContext(reg: Registry): (r: Registry)
    ensures "TestContext" in r && r["TestContext"] == DictCols(TEST_CONTEXT_COLUMNS)
    ensures forall c :: c != "TestContext" ==> (c in r <==> c in reg) && (c in reg ==> r[c] == reg[c])
  {
    reg["TestContext" := DictCols(TEST_CONTEXT_COLUMNS)]
  }

  /**
   * The lookup and filter after the installation: {} for an unknown context or
   * one with no columns, AttributeError for columns already in list form, and
   * otherwise the editable sub-dict, in order and with unchanged details.
   */
  function EditableIn(reg: Registry, ctx: string): (r: Result<Defs>)
    ensures ctx !in reg || Empty(reg[ctx]) ==> r == Ok([])
    ensures r.Err? <==> ctx in reg && !Empty(reg[ctx]) && reg[ctx].ListCols?
    ensures r.Err? ==> r.error == AttributeError
    ensures ctx in reg && reg[ctx].DictCols? ==> r.Ok? && Selects(r.value, reg[ctx].defs, KeepEditable)
  {
    if ctx !in reg then Ok([])
    else
      var columns := reg[ctx];
      if Empty(columns) then Ok([])
      else match columns
        case ListCols(_) => Err(AttributeError)
        case DictCols(defs) => Ok(Editable(defs))
  }

  /** `get_editable_columns(context_name)` on the global configuration. */
  method GetEditableColumns(store: ConfigData.ConfigStore, ctx: string) returns (r: Result<Defs>)
    modifies store
    ensures store.registry == WithTestContext(old(store.registry))
    ensures r == EditableIn(store.registry, ctx)
  {
    store.registry := WithTestContext(store.registry);
    r := EditableIn(store.registry, ctx);
  }

  lemma TestContextFilter()
    ensures Filter(TEST_CONTEXT_COLUMNS, KeepEditable) == [TEST_CONTEXT_COLUMNS[1], TEST_CONTEXT_COLUMNS[3]]
  {
    var d := TEST_CONTEXT_COLUMNS;
    assert Filter(d[3..], KeepEditable) == [d[3]];
    assert Filter(d[2..], KeepEditable) == [d[3]];
    assert Filter(d[1..], KeepEditable) == [d[1], d[3]];
  }

  /** For "TestContext" the editable columns are `name` and `created_at`, whatever was installed before. */
  lemma TestContextEditable(reg: Registry)
    ensures EditableIn(WithTestContext(reg), "TestContext").Ok?
    ensures Keys(EditableIn(WithTestContext(reg), "TestContext").value) == ["name", "created_at"]
  {
    TestContextFilter();
  }

  /** A context other than "TestContext" whose columns form a non-empty dict yields its editable columns. */
  lemma EditableOfDict(reg: Registry, ctx: string, defs: Defs)
    requires ctx != "TestContext" && ctx in reg && reg[ctx] == DictCols(defs) && |defs| > 0
    ensures EditableIn(WithTestContext(reg), ctx) == Ok(Editable(defs))
  {
  }

  /** On the shipped configuration, Assemblies yields the fourteen columns from AssemName to ProcurementType. */
  lemma AssembliesEditable(reg: Registry)
    requires reg == ConfigData.COLUMN_DEFINITIONS
    ensures EditableIn(WithTestContext(reg), "Assemblies").Ok?
    ensures Keys(EditableIn(WithTestContext(reg), "Assemblies").value) == ["AssemName", "ParentAssemblyID", "AssemImageRef", "AssemDwgID", "AssemCost", "AssemWeight", "AssemHoursParts", "AssemHoursAssembly", "AssemFocus", "AssemCostFlag", "AssemWeightFlag", "AssemStatus", "AssemNotes", "ProcurementType"]
  {
    EditableOfDict(reg, "Assemblies", ConfigData.ASSEMBLIES);
    ConfigData.AssembliesEditableColumns();
  }

  /** On the shipped configuration, Parts yields the twelve columns after PartID. */
  lemma PartsEditable(reg: Registry)
    requires reg == ConfigData.COLUMN_DEFINITIONS
    ensures EditableIn(WithTestContext(reg), "Parts").Ok?
    ensures Keys(EditableIn(WithTestContext(reg), "Parts").value) == ["PartName", "Model", "Make", "Dimensions", "Notes", "Manufacturer", "ImageRef", "DrawingID", "ManPartNum", "ProcurementType", "PartWeight", "PartMaterial"]
  {
    EditableOfDict(reg, "Parts", ConfigData.PARTS);
    ConfigData.PartsEditableColumns();
  }
}
