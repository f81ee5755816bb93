/**
 * `COLUMN_DEFINITIONS` and `CONTEXTS` from config/config_data.py: the schema
 * every filter and query compiler reads, and the facts about it that the rest
 * of the model relies on.  The shared dict that some modules rewrite at run
 * time is the `ConfigStore` object.
 */
module ConfigData {
  import opened Wrappers
  import opened PyValues
  import opened OrderedDict
  import opened ColumnDefs

  /** The columns of the Assemblies context, in definition order. */
  const ASSEMBLIES: Defs := [
    Entry("AssemblyID", map["display_name" := VStr("ID"), "width" := VInt(60), "type" := VStr("int"), "is_primary_key" := VBool(true)]),
    Entry("AssemName", map["display_name" := VStr("Name"), "width" := VInt(200), "type" := VStr("string")]),
    Entry("ParentAssemblyID", map["display_name" := VStr("Parent Assembly"), "width" := VInt(100), "type" := VStr("int"), "default" := VInt(40)]),
    Entry("AssemImageRef", map["display_name" := VStr("Image Reference"), "width" := VInt(150), "type" := VStr("string")]),
    Entry("AssemImage", map["display_name" := VStr("Image"), "width" := VInt(150), "type" := VStr("blob"), "admin" := VBool(true)]),
    Entry("AssemDwgID", map["display_name" := VStr("Drawing ID"), "width" := VInt(200), "type" := VStr("int"), "default" := VInt(266)]),
    Entry("AssemCost", map["display_name" := VStr("Cost"), "width" := VInt(80), "type" := VStr("numeric")]),
    Entry("AssemWeight", map["display_name" := VStr("Weight"), "width" := VInt(80), "type" := VStr("numeric")]),
    Entry("AssemHoursParts", map["display_name" := VStr("Hours (Parts)"), "width" := VInt(100), "type" := VStr("numeric"), "default" := VInt(0)]),
    Entry("AssemHoursAssembly", map["display_name" := VStr("Hours (Assembly)"), "width" := VInt(100), "type" := VStr("numeric"), "default" := VInt(0)]),
    Entry("AssemTotalHours", map["display_name" := VStr("Total Hours"), "width" := VInt(100), "type" := VStr("numeric"), "admin" := VBool(true)]),
    Entry("AssemFocus", map["display_name" := VStr("Focus"), "width" := VInt(100), "type" := VStr("string"), "default" := VStr("Medium")]),
    Entry("AssemCostFlag", map["display_name" := VStr("Cost Flag"), "width" := VInt(80), "type" := VStr("int"), "default" := VInt(0)]),
    Entry("AssemWeightFlag", map["display_name" := VStr("Weight Flag"), "width" := VInt(80), "type" := VStr("int"), "default" := VInt(0)]),
    Entry("AssemStatus", map["display_name" := VStr("Status"), "width" := VInt(100), "type" := VStr("string"), "default" := VStr("Prelim")]),
    Entry("AssemNotes", map["display_name" := VStr("Notes"), "width" := VInt(200), "type" := VStr("string")]),
    Entry("ProcurementType", map["display_name" := VStr("Procurement Type"), "width" := VInt(100), "type" := VStr("string"), "default" := VStr("Purchase")]),
    Entry("CreationDate", map["display_name" := VStr("Creation Date"), "width" := VInt(120), "type" := VStr("string"), "default" := VStr("2025-01-01"), "admin" := VBool(true)]),
    Entry("LastUpdatedDate", map["display_name" := VStr("Last Updated Date"), "width" := VInt(120), "type" := VStr("string"), "default" := VStr("2025-01-01"), "admin" := VBool(true)])
  ]

  /** The columns of the Parts context, in definition order. */
  const PARTS: Defs := [
    Entry("PartID", map["display_name" := VStr("ID"), "width" := VInt(60), "type" := VStr("int"), "is_primary_key" := VBool(true)]),
    Entry("PartName", map["display_name" := VStr("Name"), "width" := VInt(200), "type" := VStr("string"), "parts" := VBool(true)]),
    Entry("Model", map["display_name" := VStr("Model"), "width" := VInt(100), "type" := VStr("string"), "parts" := VBool(true)]),
    Entry("Make", map["display_name" := VStr("Make"), "width" := VInt(100), "type" := VStr("string"), "parts" := VBool(true)]),
    Entry("Dimensions", map["display_name" := VStr("Dimensions"), "width" := VInt(150), "type" := VStr("string"), "parts" := VBool(true)]),
    Entry("Notes", map["display_name" := VStr("Notes"), "width" := VInt(100), "type" := VStr("string"), "parts" := VBool(true)]),
    Entry("Manufacturer", map["display_name" := VStr("Manufacturer"), "width" := VInt(100), "type" := VStr("string"), "parts" := VBool(true)]),
    Entry("ImageRef", map["display_name" := VStr("ImageRef"), "width" := VInt(100), "type" := VStr("string")]),
    Entry("DrawingID", map["display_name" := VStr("DrawingID"), "width" := VInt(100), "type" := VStr("int"), "foreign_key" := VBool(true), "default" := VInt(266)]),
    Entry("ManPartNum", map["display_name" := VStr("ManPartNum"), "width" := VInt(100), "type" := VStr("string"), "parts" := VBool(true)]),
    Entry("ProcurementType", map["display_name" := VStr("ProcurementType"), "width" := VInt(100), "type" := VStr("string"), "default" := VStr("Purchase")]),
    Entry("PartWeight", map["display_name" := VStr("Weight"), "width" := VInt(80), "type" := VStr("float"), "default" := VInt(0)]),
    Entry("PartMaterial", map["display_name" := VStr("Material"), "width" := VInt(100), "type" := VStr("string")])
  ]

  /** The columns of the Suppliers context, in definition order. */
  const SUPPLIERS: Defs := [
    Entry("SupplierID", map["display_name" := VStr("ID"), "width" := VInt(60), "type" := VStr("int"), "is_primary_key" := VBool(true)]),
    Entry("SupplierName", map["display_name" := VStr("Name"), "width" := VInt(200), "type" := VStr("string")]),
    Entry("PricePerUnit", map["display_name" := VStr("Price/Unit"), "width" := VInt(100), "type" := VStr("float"), "default" := VFloat("0.0")]),
    Entry("PartID", map["display_name" := VStr("PartID"), "width" := VInt(50), "type" := VStr("int"), "foreign_key" := VBool(true), "default" := VInt(50)]),
    Entry("UnitOfOrder", map["display_name" := VStr("Unit of Order"), "width" := VInt(100), "type" := VStr("string")]),
    Entry("WebRef", map["display_name" := VStr("Web URL"), "width" := VInt(200), "type" := VStr("string")]),
    Entry("Manuf", map["display_name" := VStr("Manufacturer"), "width" := VInt(100), "type" := VStr("string")]),
    Entry("ManPartNum", map["display_name" := VStr("Man. Part Num."), "width" := VInt(100), "type" := VStr("string")])
  ]

  /** The columns of the Drawings context, in definition order. */
  const DRAWINGS: Defs := [
    Entry("DrawingID", map["display_name" := VStr("ID"), "width" := VInt(60), "type" := VStr("int"), "is_primary_key" := VBool(true)]),
    Entry("DrawingName", map["display_name" := VStr("Name"), "width" := VInt(200), "type" := VStr("string")]),
    Entry("DrawingPath", map["display_name" := VStr("Folder Path"), "width" := VInt(250), "type" := VStr("string")]),
    Entry("Type", map["display_name" := VStr("Type"), "width" := VInt(100), "type" := VStr("string")]),
    Entry("Date", map["display_name" := VStr("Date"), "width" := VInt(120), "type" := VStr("string")]),
    Entry("Size", map["display_name" := VStr("Size"), "width" := VInt(80), "type" := VStr("numeric")]),
    Entry("Status", map["display_name" := VStr("Status"), "width" := VInt(100), "type" := VStr("string")]),
    Entry("Revision", map["display_name" := VStr("Revision"), "width" := VInt(80), "type" := VStr("int")]),
    Entry("RelatedItemID", map["display_name" := VStr("Related PartID"), "width" := VInt(100), "type" := VStr("int"), "foreign_key" := VBool(true), "default" := VInt(50)])
  ]

  /** The columns of the Images context, in definition order. */
  const IMAGES: Defs := [
    Entry("ImageID", map["display_name" := VStr("ID"), "width" := VInt(56), "type" := VStr("int"), "is_primary_key" := VBool(true)]),
    Entry("ImageFileName", map["display_name" := VStr("File Name"), "width" := VInt(200), "type" := VStr("string")]),
    Entry("ImageData", map["display_name" := VStr("BlobData"), "width" := VInt(150), "type" := VStr("blob"), "admin" := VBool(true)])
  ]

  /** The columns of the Assemblies_Parts context, in definition order. */
  const ASSEMBLIES_PARTS: Defs := [
    Entry("ID", map["display_name" := VStr("ID"), "width" := VInt(56), "type" := VStr("int"), "is_primary_key" := VBool(true)]),
    Entry("ParentAssemblyID", map["display_name" := VStr("ParentAssemblyID"), "width" := VInt(50), "type" := VStr("int")]),
    Entry("EntityType", map["display_name" := VStr("Entity Type"), "width" := VInt(150), "type" := VStr("string")]),
    Entry("ProcurementType", map["display_name" := VStr("Procurement Type"), "width" := VInt(100), "default" := VStr("Purchase")]),
    Entry("ChildAssemblyID", map["display_name" := VStr("ChildAssembly ID"), "width" := VInt(60), "type" := VStr("int"), "foreign_key" := VBool(true)]),
    Entry("PartID", map["display_name" := VStr("Part ID"), "width" := VInt(60), "type" := VStr("int")]),
    Entry("Quantity", map["display_name" := VStr("Quantity"), "width" := VInt(60), "type" := VStr("real")]),
    Entry("HoursParts", map["display_name" := VStr("Hours for Parts"), "width" := VInt(60), "type" := VStr("real")]),
    Entry("HoursAssembly", map["display_name" := VStr("Hours to Assemble"), "width" := VInt(60), "type" := VStr("real")]),
    Entry("TotalHours", map["display_name" := VStr("Total Hours"), "width" := VInt(60), "type" := VStr("real")]),
    Entry("AssemFocus", map["display_name" := VStr("Focus"), "width" := VInt(200), "type" := VStr("string")]),
    Entry("deleteFlag", map["display_name" := VStr("Delete Flag"), "width" := VInt(200), "type" := VStr("string"), "admin" := VBool(true)])
  ]

  /** `COLUMN_DEFINITIONS`: every context's "columns" dict. */
  const COLUMN_DEFINITIONS: Registry := map[
    "Assemblies" := DictCols(ASSEMBLIES),
    "Parts" := DictCols(PARTS),
    "Suppliers" := DictCols(SUPPLIERS),
    "Drawings" := DictCols(DRAWINGS),
    "Images" := DictCols(IMAGES),
    "Assemblies_Parts" := DictCols(ASSEMBLIES_PARTS)
  ]

  /** `CONTEXTS`: named groups of contexts. */
  const CONTEXTS: seq<Entry<seq<string>>> := [
    Entry("All", ["Assemblies", "Parts", "Images", "Drawings", "Suppliers"]),
    Entry("Some", ["Assemblies"])
  ]

  /** The shared `COLUMN_DEFINITIONS` dict, which some modules rewrite in place. */
  class ConfigStore {
    var registry: Registry

    constructor ()
      ensures registry == COLUMN_DEFINITIONS
    {
      registry := COLUMN_DEFINITIONS;
    }
  }

  predicate KeepAdmin(name: string, d: ColumnDef) { IsAdmin(d) }

  predicate KeepForeignKey(name: string, d: ColumnDef) { IsForeignKey(d) }

  /** The names of the columns that pass `keep`, read off at the positions `idx`. */
  lemma KeysOfFilter(d: Defs, keep: (string, ColumnDef) -> bool, idx: seq<int>, names: seq<string>)
    requires Positions(d, idx)
    requires forall i :: 0 <= i < |d| ==> (keep(d[i].key, d[i].val) <==> i in idx)
    requires Keys(Pick(d, idx)) == names
    ensures Keys(Filter(d, keep)) == names
  {
    FilterByIndices(d, keep, idx);
  }

  lemma AssembliesKeys()
    ensures UniqueKeys(ASSEMBLIES)
  {
  }

  lemma AssembliesKeyFlags()
    ensures forall i :: 0 <= i < |ASSEMBLIES| ==> (IsPrimaryKey(ASSEMBLIES[i].val) <==> i == 0)
    ensures !IsAdmin(ASSEMBLIES[0].val)
  {
  }

  lemma AssembliesAdminFlags()
    ensures forall i :: 0 <= i < |ASSEMBLIES| ==> (IsAdmin(ASSEMBLIES[i].val) <==> i in [4, 10, 17, 18])
  {
  }

  lemma AssembliesForeignKeyFlags()
    ensures forall i :: 0 <= i < |ASSEMBLIES| ==> (IsForeignKey(ASSEMBLIES[i].val) <==> i in [])
  {
  }

  lemma AssembliesTypeKeys()
    ensures forall i :: 0 <= i < |ASSEMBLIES| ==> ("type" in ASSEMBLIES[i].val <==> i !in [])
  {
  }

  lemma PartsKeys()
    ensures UniqueKeys(PARTS)
  {
  }

  lemma PartsKeyFlags()
    ensures forall i :: 0 <= i < |PARTS| ==> (IsPrimaryKey(PARTS[i].val) <==> i == 0)
    ensures !IsAdmin(PARTS[0].val)
  {
  }

  lemma PartsAdminFlags()
    ensures forall i :: 0 <= i < |PARTS| ==> (IsAdmin(PARTS[i].val) <==> i in [])
  {
  }

  lemma PartsForeignKeyFlags()
    ensures forall i :: 0 <= i < |PARTS| ==> (IsForeignKey(PARTS[i].val) <==> i in [8])
  {
  }

  lemma PartsTypeKeys()
    ensures forall i :: 0 <= i < |PARTS| ==> ("type" in PARTS[i].val <==> i !in [])
  {
  }

  lemma SuppliersKeys()
    ensures UniqueKeys(SUPPLIERS)
  {
  }

  lemma SuppliersKeyFlags()
    ensures forall i :: 0 <= i < |SUPPLIERS| ==> (IsPrimaryKey(SUPPLIERS[i].val) <==> i == 0)
    ensures !IsAdmin(SUPPLIERS[0].val)
  {
  }

  lemma SuppliersAdminFlags()
    ensures forall i :: 0 <= i < |SUPPLIERS| ==> (IsAdmin(SUPPLIERS[i].val) <==> i in [])
  {
  }

  lemma SuppliersForeignKeyFlags()
    ensures forall i :: 0 <= i < |SUPPLIERS| ==> (IsForeignKey(SUPPLIERS[i].val) <==> i in [3])
  {
  }

  lemma SuppliersTypeKeys()
    ensures forall i :: 0 <= i < |SUPPLIERS| ==> ("type" in SUPPLIERS[i].val <==> i !in [])
  {
  }

  lemma DrawingsKeys()
    ensures UniqueKeys(DRAWINGS)
  {
  }

  lemma DrawingsKeyFlags()
    ensures forall i :: 0 <= i < |DRAWINGS| ==> (IsPrimaryKey(DRAWINGS[i].val) <==> i == 0)
    ensures !IsAdmin(DRAWINGS[0].val)
  {
  }

  lemma DrawingsAdminFlags()
    ensures forall i :: 0 <= i < |DRAWINGS| ==> (IsAdmin(DRAWINGS[i].val) <==> i in [])
  {
  }

  lemma DrawingsForeignKeyFlags()
    ensures forall i :: 0 <= i < |DRAWINGS| ==> (IsForeignKey(DRAWINGS[i].val) <==> i in [8])
  {
  }

  lemma DrawingsTypeKeys()
    ensures forall i :: 0 <= i < |DRAWINGS| ==> ("type" in DRAWINGS[i].val <==> i !in [])
  {
  }

  lemma ImagesKeys()
    ensures UniqueKeys(IMAGES)
  {
  }

  lemma ImagesKeyFlags()
    ensures forall i :: 0 <= i < |IMAGES| ==> (IsPrimaryKey(IMAGES[i].val) <==> i == 0)
    ensures !IsAdmin(IMAGES[0].val)
  {
  }

  lemma ImagesAdminFlags()
    ensures forall i :: 0 <= i < |IMAGES| ==> (IsAdmin(IMAGES[i].val) <==> i in [2])
  {
  }

  lemma ImagesForeignKeyFlags()
    ensures forall i :: 0 <= i < |IMAGES| ==> (IsForeignKey(IMAGES[i].val) <==> i in [])
  {
  }

  lemma ImagesTypeKeys()
    ensures forall i :: 0 <= i < |IMAGES| ==> ("type" in IMAGES[i].val <==> i !in [])
  {
  }

  lemma AssembliesPartsKeys()
    ensures UniqueKeys(ASSEMBLIES_PARTS)
  {
  }

  lemma AssembliesPartsKeyFlags()
    ensures forall i :: 0 <= i < |ASSEMBLIES_PARTS| ==> (IsPrimaryKey(ASSEMBLIES_PARTS[i].val) <==> i == 0)
    ensures !IsAdmin(ASSEMBLIES_PARTS[0].val)
  {
  }

  lemma AssembliesPartsAdminFlags()
    ensures forall i :: 0 <= i < |ASSEMBLIES_PARTS| ==> (IsAdmin(ASSEMBLIES_PARTS[i].val) <==> i in [11])
  {
  }

  lemma AssembliesPartsForeignKeyFlags()
    ensures forall i :: 0 <= i < |ASSEMBLIES_PARTS| ==> (IsForeignKey(ASSEMBLIES_PARTS[i].val) <==> i in [4])
  {
  }

  lemma AssembliesPartsTypeKeys()
    ensures forall i :: 0 <= i < |ASSEMBLIES_PARTS| ==> ("type" in ASSEMBLIES_PARTS[i].val <==> i !in [3])
  {
  }
  lemma AssembliesKeyAttribute()
    ensures forall i :: 0 <= i < |ASSEMBLIES| ==> ("is_primary_key" in ASSEMBLIES[i].val <==> i == 0)
    ensures |ASSEMBLIES| > 0 && ASSEMBLIES[0].val["is_primary_key"] == VBool(true)
  {
  }

  lemma PartsKeyAttribute()
    ensures forall i :: 0 <= i < |PARTS| ==> ("is_primary_key" in PARTS[i].val <==> i == 0)
    ensures |PARTS| > 0 && PARTS[0].val["is_primary_key"] == VBool(true)
  {
  }

  lemma SuppliersKeyAttribute()
    ensures forall i :: 0 <= i < |SUPPLIERS| ==> ("is_primary_key" in SUPPLIERS[i].val <==> i == 0)
    ensures |SUPPLIERS| > 0 && SUPPLIERS[0].val["is_primary_key"] == VBool(true)
  {
  }

  lemma DrawingsKeyAttribute()
    ensures forall i :: 0 <= i < |DRAWINGS| ==> ("is_primary_key" in DRAWINGS[i].val <==> i == 0)
    ensures |DRAWINGS| > 0 && DRAWINGS[0].val["is_primary_key"] == VBool(true)
  {
  }

  lemma ImagesKeyAttribute()
    ensures forall i :: 0 <= i < |IMAGES| ==> ("is_primary_key" in IMAGES[i].val <==> i == 0)
    ensures |IMAGES| > 0 && IMAGES[0].val["is_primary_key"] == VBool(true)
  {
  }

  lemma AssembliesPartsKeyAttribute()
    ensures forall i :: 0 <= i < |ASSEMBLIES_PARTS| ==> ("is_primary_key" in ASSEMBLIES_PARTS[i].val <==> i == 0)
    ensures |ASSEMBLIES_PARTS| > 0 && ASSEMBLIES_PARTS[0].val["is_primary_key"] == VBool(true)
  {
  }

  // ------------------------------------------------------------------ facts about the schema

  /** Every context's columns form a dict with unique names. */
  ghost predicate WellFormed(reg: Registry)
  {
    forall c :: c in reg ==> reg[c].DictCols? && UniqueKeys(reg[c].defs)
  }

  /** The six configured contexts, each a well-formed columns dict. */
  lemma ConfiguredContexts()
    ensures COLUMN_DEFINITIONS.Keys == {"Assemblies", "Parts", "Suppliers", "Drawings", "Images", "Assemblies_Parts"}
    ensures WellFormed(COLUMN_DEFINITIONS)
  {
    AssembliesKeys();
    PartsKeys();
    SuppliersKeys();
    DrawingsKeys();
    ImagesKeys();
    AssembliesPartsKeys();
  }

  /**
   * Every context has exactly one primary-key column, it comes first, it is not
   * admin, and so it is what a first-match search returns.
   */
  lemma PrimaryKeyFirstAndOnly(ctx: string)
    requires ctx in COLUMN_DEFINITIONS
    ensures COLUMN_DEFINITIONS[ctx].DictCols?
    ensures var d := COLUMN_DEFINITIONS[ctx].defs;
      && |d| > 0 && IsPrimaryKey(d[0].val) && !IsAdmin(d[0].val) && d[0].key != ""
      && (forall i :: 0 < i < |d| ==> !IsPrimaryKey(d[i].val))
      && FirstPrimaryKey(d) == Some(d[0].key)
  {
    if ctx == "Assemblies" {
      AssembliesKeyFlags();
    } else if ctx == "Parts" {
      PartsKeyFlags();
    } else if ctx == "Suppliers" {
      SuppliersKeyFlags();
    } else if ctx == "Drawings" {
      DrawingsKeyFlags();
    } else if ctx == "Images" {
      ImagesKeyFlags();
    } else if ctx == "Assemblies_Parts" {
      AssembliesPartsKeyFlags();
    }
  }

  /** Only the primary-key column of a context carries an "is_primary_key" entry at all. */
  lemma PrimaryKeyAttributeOnlyFirst(ctx: string)
    requires ctx in COLUMN_DEFINITIONS
    ensures COLUMN_DEFINITIONS[ctx].DictCols?
    ensures var d := COLUMN_DEFINITIONS[ctx].defs;
      && |d| > 0 && d[0].val["is_primary_key"] == VBool(true)
      && forall i :: 0 <= i < |d| ==> ("is_primary_key" in d[i].val <==> i == 0)
  {
    if ctx == "Assemblies" {
      AssembliesKeyAttribute();
    } else if ctx == "Parts" {
      PartsKeyAttribute();
    } else if ctx == "Suppliers" {
      SuppliersKeyAttribute();
    } else if ctx == "Drawings" {
      DrawingsKeyAttribute();
    } else if ctx == "Images" {
      ImagesKeyAttribute();
    } else if ctx == "Assemblies_Parts" {
      AssembliesPartsKeyAttribute();
    }
  }

  /** No primary-key column of any context is flagged admin. */
  lemma NoAdminPrimaryKey(ctx: string)
    requires ctx in COLUMN_DEFINITIONS
    ensures COLUMN_DEFINITIONS[ctx].DictCols?
    ensures var d := COLUMN_DEFINITIONS[ctx].defs;
      forall i :: 0 <= i < |d| && IsPrimaryKey(d[i].val) ==> !IsAdmin(d[i].val)
  {
    PrimaryKeyFirstAndOnly(ctx);
  }

  /** The admin columns of Assemblies. */
  lemma AssembliesAdminColumns()
    ensures Keys(Filter(ASSEMBLIES, KeepAdmin)) == ["AssemImage", "AssemTotalHours", "CreationDate", "LastUpdatedDate"]
  {
    AssembliesAdminFlags();
    KeysOfFilter(ASSEMBLIES, KeepAdmin, [4, 10, 17, 18], ["AssemImage", "AssemTotalHours", "CreationDate", "LastUpdatedDate"]);
  }

  /** The admin columns of Parts: none. */
  lemma PartsAdminColumns()
    ensures Keys(Filter(PARTS, KeepAdmin)) == []
  {
    PartsAdminFlags();
    KeysOfFilter(PARTS, KeepAdmin, [], []);
  }

  /** The admin columns of Suppliers: none. */
  lemma SuppliersAdminColumns()
    ensures Keys(Filter(SUPPLIERS, KeepAdmin)) == []
  {
    SuppliersAdminFlags();
    KeysOfFilter(SUPPLIERS, KeepAdmin, [], []);
  }

  /** The admin columns of Drawings: none. */
  lemma DrawingsAdminColumns()
    ensures Keys(Filter(DRAWINGS, KeepAdmin)) == []
  {
    DrawingsAdminFlags();
    KeysOfFilter(DRAWINGS, KeepAdmin, [], []);
  }

  /** The admin columns of Images. */
  lemma ImagesAdminColumns()
    ensures Keys(Filter(IMAGES, KeepAdmin)) == ["ImageData"]
  {
    ImagesAdminFlags();
    KeysOfFilter(IMAGES, KeepAdmin, [2], ["ImageData"]);
  }

  /** The admin columns of Assemblies_Parts. */
  lemma AssembliesPartsAdminColumns()
    ensures Keys(Filter(ASSEMBLIES_PARTS, KeepAdmin)) == ["deleteFlag"]
  {
    AssembliesPartsAdminFlags();
    KeysOfFilter(ASSEMBLIES_PARTS, KeepAdmin, [11], ["deleteFlag"]);
  }

  /** The foreign-key columns of Assemblies: none. */
  lemma AssembliesForeignKeyColumns()
    ensures Keys(Filter(ASSEMBLIES, KeepForeignKey)) == []
  {
    AssembliesForeignKeyFlags();
    KeysOfFilter(ASSEMBLIES, KeepForeignKey, [], []);
  }

  /** The foreign-key columns of Parts. */
  lemma PartsForeignKeyColumns()
    ensures Keys(Filter(PARTS, KeepForeignKey)) == ["DrawingID"]
  {
    PartsForeignKeyFlags();
    KeysOfFilter(PARTS, KeepForeignKey, [8], ["DrawingID"]);
  }

  /** The foreign-key columns of Suppliers. */
  lemma SuppliersForeignKeyColumns()
    ensures Keys(Filter(SUPPLIERS, KeepForeignKey)) == ["PartID"]
  {
    SuppliersForeignKeyFlags();
    KeysOfFilter(SUPPLIERS, KeepForeignKey, [3], ["PartID"]);
  }

  /** The foreign-key columns of Drawings. */
  lemma DrawingsForeignKeyColumns()
    ensures Keys(Filter(DRAWINGS, KeepForeignKey)) == ["RelatedItemID"]
  {
    DrawingsForeignKeyFlags();
    KeysOfFilter(DRAWINGS, KeepForeignKey, [8], ["RelatedItemID"]);
  }

  /** The foreign-key columns of Images: none. */
  lemma ImagesForeignKeyColumns()
    ensures Keys(Filter(IMAGES, KeepForeignKey)) == []
  {
    ImagesForeignKeyFlags();
    KeysOfFilter(IMAGES, KeepForeignKey, [], []);
  }

  /** The foreign-key columns of Assemblies_Parts. */
  lemma AssembliesPartsForeignKeyColumns()
    ensures Keys(Filter(ASSEMBLIES_PARTS, KeepForeignKey)) == ["ChildAssemblyID"]
  {
    AssembliesPartsForeignKeyFlags();
    KeysOfFilter(ASSEMBLIES_PARTS, KeepForeignKey, [4], ["ChildAssemblyID"]);
  }

  /** Assemblies.ProcurementType defaults to "Purchase". */
  lemma AssembliesProcurementTypeDefault()
    ensures Get(ASSEMBLIES, "ProcurementType").Some?
    ensures Attr(Get(ASSEMBLIES, "ProcurementType").value, "default") == VStr("Purchase")
  {
    AssembliesKeys();
    GetAt(ASSEMBLIES, 16);
  }

  /** Parts.ProcurementType defaults to "Purchase". */
  lemma PartsProcurementTypeDefault()
    ensures Get(PARTS, "ProcurementType").Some?
    ensures Attr(Get(PARTS, "ProcurementType").value, "default") == VStr("Purchase")
  {
    PartsKeys();
    GetAt(PARTS, 10);
  }

  /** Assemblies_Parts.ProcurementType defaults to "Purchase". */
  lemma AssembliesPartsProcurementTypeDefault()
    ensures Get(ASSEMBLIES_PARTS, "ProcurementType").Some?
    ensures Attr(Get(ASSEMBLIES_PARTS, "ProcurementType").value, "default") == VStr("Purchase")
  {
    AssembliesPartsKeys();
    GetAt(ASSEMBLIES_PARTS, 3);
  }

  /** Assemblies_Parts.ProcurementType is the only configured column without a "type". */
  lemma OnlyUntypedColumn(ctx: string, i: int)
    requires ctx in COLUMN_DEFINITIONS && COLUMN_DEFINITIONS[ctx].DictCols? && 0 <= i < |COLUMN_DEFINITIONS[ctx].defs|
    ensures var e := COLUMN_DEFINITIONS[ctx].defs[i];
      "type" !in e.val <==> ctx == "Assemblies_Parts" && e.key == "ProcurementType"
  {
    if ctx == "Assemblies" {
      AssembliesTypeKeys();
    } else if ctx == "Parts" {
      PartsTypeKeys();
    } else if ctx == "Suppliers" {
      SuppliersTypeKeys();
    } else if ctx == "Drawings" {
      DrawingsTypeKeys();
    } else if ctx == "Images" {
      ImagesTypeKeys();
    } else if ctx == "Assemblies_Parts" {
      AssembliesPartsTypeKeys();
    }
  }

  /** `CONTEXTS["All"]` names five configured contexts and leaves out Assemblies_Parts. */
  lemma AllContexts()
    ensures Get(CONTEXTS, "All") == Some(["Assemblies", "Parts", "Images", "Drawings", "Suppliers"])
    ensures forall c :: c in Get(CONTEXTS, "All").value ==> c in COLUMN_DEFINITIONS
    ensures "Assemblies_Parts" in COLUMN_DEFINITIONS && "Assemblies_Parts" !in Get(CONTEXTS, "All").value
  {
  }

  lemma AssembliesEditableFlags()
    ensures forall i :: 0 <= i < |ASSEMBLIES| ==> (KeepEditable(ASSEMBLIES[i].key, ASSEMBLIES[i].val) <==> i in [1, 2, 3, 5, 6, 7, 8, 9, 11, 12, 13, 14, 15, 16])
  {
    AssembliesKeyFlags();
    AssembliesAdminFlags();
  }

  lemma AssembliesEditablePositions()
    ensures Positions(ASSEMBLIES, [1, 2, 3, 5, 6, 7, 8, 9, 11, 12, 13, 14, 15, 16])
  {
  }

  lemma AssembliesEditableNames()
    ensures forall j :: 0 <= j < |[1, 2, 3, 5, 6, 7, 8, 9, 11, 12, 13, 14, 15, 16]| ==> 0 <= [1, 2, 3, 5, 6, 7, 8, 9, 11, 12, 13, 14, 15, 16][j] < |ASSEMBLIES| && ASSEMBLIES[[1, 2, 3, 5, 6, 7, 8, 9, 11, 12, 13, 14, 15, 16][j]].key == ["AssemName", "ParentAssemblyID", "AssemImageRef", "AssemDwgID", "AssemCost", "AssemWeight", "AssemHoursParts", "AssemHoursAssembly", "AssemFocus", "AssemCostFlag", "AssemWeightFlag", "AssemStatus", "AssemNotes", "ProcurementType"][j]
  {
  }

  /** The editable (neither admin nor primary-key) columns of Assemblies: the fourteen from AssemName to ProcurementType. */
  lemma AssembliesEditableColumns()
    ensures Keys(Editable(ASSEMBLIES)) == ["AssemName", "ParentAssemblyID", "AssemImageRef", "AssemDwgID", "AssemCost", "AssemWeight", "AssemHoursParts", "AssemHoursAssembly", "AssemFocus", "AssemCostFlag", "AssemWeightFlag", "AssemStatus", "AssemNotes", "ProcurementType"]
  {
    AssembliesEditableFlags();
    AssembliesEditablePositions();
    AssembliesEditableNames();
    assert Keys(Pick(ASSEMBLIES, [1, 2, 3, 5, 6, 7, 8, 9, 11, 12, 13, 14, 15, 16])) == ["AssemName", "ParentAssemblyID", "AssemImageRef", "AssemDwgID", "AssemCost", "AssemWeight", "AssemHoursParts", "AssemHoursAssembly", "AssemFocus", "AssemCostFlag", "AssemWeightFlag", "AssemStatus", "AssemNotes", "ProcurementType"];
    KeysOfFilter(ASSEMBLIES, KeepEditable, [1, 2, 3, 5, 6, 7, 8, 9, 11, 12, 13, 14, 15, 16], ["AssemName", "ParentAssemblyID", "AssemImageRef", "AssemDwgID", "AssemCost", "AssemWeight", "AssemHoursParts", "AssemHoursAssembly", "AssemFocus", "AssemCostFlag", "AssemWeightFlag", "AssemStatus", "AssemNotes", "ProcurementType"]);
  }

  lemma PartsEditableFlags()
    ensures forall i :: 0 <= i < |PARTS| ==> (KeepEditable(PARTS[i].key, PARTS[i].val) <==> i in [1, 2, 3, 4, 5, 6, 7, 8, 9, 10, 11, 12])
  {
    PartsKeyFlags();
    PartsAdminFlags();
  }

  lemma PartsEditablePositions()
    ensures Positions(PARTS, [1, 2, 3, 4, 5, 6, 7, 8, 9, 10, 11, 12])
  {
  }

  lemma PartsEditableNames()
    ensures forall j :: 0 <= j < |[1, 2, 3, 4, 5, 6, 7, 8, 9, 10, 11, 12]| ==> 0 <= [1, 2, 3, 4, 5, 6, 7, 8, 9, 10, 11, 12][j] < |PARTS| && PARTS[[1, 2, 3, 4, 5, 6, 7, 8, 9, 10, 11, 12][j]].key == ["PartName", "Model", "Make", "Dimensions", "Notes", "Manufacturer", "ImageRef", "DrawingID", "ManPartNum", "ProcurementType", "PartWeight", "PartMaterial"][j]
  {
  }

  /** The editable columns of Parts: the twelve after PartID. */
  lemma PartsEditableColumns()
    ensures Keys(Editable(PARTS)) == ["PartName", "Model", "Make", "Dimensions", "Notes", "Manufacturer", "ImageRef", "DrawingID", "ManPartNum", "ProcurementType", "PartWeight", "PartMaterial"]
  {
    PartsEditableFlags();
    PartsEditablePositions();
    PartsEditableNames();
    assert Keys(Pick(PARTS, [1, 2, 3, 4, 5, 6, 7, 8, 9, 10, 11, 12])) == ["PartName", "Model", "Make", "Dimensions", "Notes", "Manufacturer", "ImageRef", "DrawingID", "ManPartNum", "ProcurementType", "PartWeight", "PartMaterial"];
    KeysOfFilter(PARTS, KeepEditable, [1, 2, 3, 4, 5, 6, 7, 8, 9, 10, 11, 12], ["PartName", "Model", "Make", "Dimensions", "Notes", "Manufacturer", "ImageRef", "DrawingID", "ManPartNum", "ProcurementType", "PartWeight", "PartMaterial"]);
  }

}
