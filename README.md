# Farmd core in Dafny

Farmd is a small inventory application for assemblies, parts, suppliers,
drawings and images, kept in SQLite and edited through Tkinter forms.  Its
logic is driven by one schema registry, `COLUMN_DEFINITIONS`, which holds an
ordered dict of column metadata per context (primary key, admin, foreign key,
type, default, required, options).  Many near-duplicate modules read that
registry; they are modelled one by one, because they disagree in observable
ways.

This project models:

- the registry itself (`ConfigData`) and the column filters: processed,
  editable, visible and attribute lists (`ColumnDefs`, `ColumnReaders`,
  `ViewManagement`, `FormsColumnProcessor`, `Helpers`, `CoreConfigUtils`);
- the three query compilers, which turn column maps into SELECT, INSERT,
  UPDATE, DELETE and ORDER BY text (`CoreQueryBuilder`, `QueryGenerator`,
  `DatabaseQueryGenerator`);
- the CRUD parameter preparation in the database layers: primary-key
  stripping, update parameter maps, WHERE rewriting, clone column lists and
  add/edit dispatch (`SrcDatabaseUtils`, `Operations`, `DatabaseServices`,
  `DatabaseManager`, `DatabaseManagerCrud`, `SrcDataManager`,
  `CoreDataManager`, `DatabaseOperations`);
- form validation and coercion in both form packages (`SrcValidation`,
  `FormsValidation`, `DataEntryForm`);
- the composition model: the procurement-type roll-up of an assembly, the
  part upsert into `Assemblies_Parts`, and saving and fetching parts
  (`AssemblyModel`, `PartModel`, `ModelTables`);
- the transaction manager's flag over committed and pending writes, its
  singleton, the connection tracker and undo (`DatabaseTransactions`,
  `ConnectionTracking`);
- the sort-direction toggle (`SharedUtils`) and the PRAGMA-driven refresh of
  the Assemblies columns (`RefreshDefinitions`).

A Python dict whose order is observable is a sequence of key/value entries
(`OrderedDict`); Python values, their truthiness and `int()` over an
optional sign and decimal digits are in `PyValues`; raised exceptions are
the `Err` side of a `Result` (`Wrappers`).  Statement text is built as
strings and placeholders are counted in `Sql`.  Code that works step by step
(the form loops, the parameter loops, the transaction manager, the tracker,
the part and assembly objects, the sort state) is written as classes and
methods with loops, each proved against a specification function; the pure
filters and compilers are functions with lemmas.

## Model

| member | source | states |
|---|---|---|
| ConfigData.ConfigStore.constructor | config/config_data.py:21-110 | the shared store starts out holding the configured `COLUMN_DEFINITIONS` |
| ConfigData.ConfiguredContexts | config/config_data.py:21-110 | exactly six contexts are configured: Assemblies, Parts, Suppliers, Drawings, Images, Assemblies_Parts; each has unique column names |
| ConfigData.PrimaryKeyFirstAndOnly | config/config_data.py:21-110 | each context has exactly one primary-key column; it is the first column, it is not admin, and a first-match search finds it |
| ConfigData.PrimaryKeyAttributeOnlyFirst | config/config_data.py:21-110 | only the primary-key column of a context has an `is_primary_key` entry at all |
| ConfigData.NoAdminPrimaryKey | config/config_data.py:21-110 | no primary-key column is flagged admin |
| ConfigData.AssembliesAdminColumns | config/config_data.py:22-43 | the admin columns of Assemblies are AssemImage, AssemTotalHours, CreationDate and LastUpdatedDate, in that order |
| ConfigData.PartsAdminColumns | config/config_data.py:45-60 | Parts has no admin column |
| ConfigData.SuppliersAdminColumns | config/config_data.py:62-73 | Suppliers has no admin column |
| ConfigData.DrawingsAdminColumns | config/config_data.py:74-86 | Drawings has no admin column |
| ConfigData.ImagesAdminColumns | config/config_data.py:87-93 | ImageData is the only admin column of Images |
| ConfigData.AssembliesPartsAdminColumns | config/config_data.py:94-108 | deleteFlag is the only admin column of Assemblies_Parts |
| ConfigData.AssembliesForeignKeyColumns | config/config_data.py:22-43 | Assemblies has no foreign-key column |
| ConfigData.PartsForeignKeyColumns | config/config_data.py:45-60 | DrawingID is the only foreign-key column of Parts |
| ConfigData.SuppliersForeignKeyColumns | config/config_data.py:62-73 | PartID is the only foreign-key column of Suppliers |
| ConfigData.DrawingsForeignKeyColumns | config/config_data.py:74-86 | RelatedItemID is the only foreign-key column of Drawings |
| ConfigData.ImagesForeignKeyColumns | config/config_data.py:87-93 | Images has no foreign-key column |
| ConfigData.AssembliesPartsForeignKeyColumns | config/config_data.py:94-108 | ChildAssemblyID is the only foreign-key column of Assemblies_Parts |
| ConfigData.AssembliesProcurementTypeDefault | config/config_data.py:40 | Assemblies.ProcurementType exists and defaults to "Purchase" |
| ConfigData.PartsProcurementTypeDefault | config/config_data.py:57 | Parts.ProcurementType exists and defaults to "Purchase" |
| ConfigData.AssembliesPartsProcurementTypeDefault | config/config_data.py:99 | Assemblies_Parts.ProcurementType exists and defaults to "Purchase" |
| ConfigData.OnlyUntypedColumn | config/config_data.py:99 | Assemblies_Parts.ProcurementType is the only configured column without a "type" |
| ConfigData.AllContexts | config/config_data.py:111-113 | `CONTEXTS["All"]` lists five configured contexts in order and leaves out Assemblies_Parts |
| ConfigData.AssembliesEditableColumns | config/config_data.py:22-43 | the editable columns of Assemblies (neither admin nor primary key) are the fourteen from AssemName to ProcurementType, in order |
| ConfigData.PartsEditableColumns | config/config_data.py:45-60 | the editable columns of Parts are the twelve after PartID, in order |
| ColumnDefs.ColumnsOf | src/database/database_utils.py:46-52 | an unknown context has an empty columns dict; a known one has its configured columns; the same code is repeated at core/database_utils.py:140-146, src/database/database_schema.py:7-9 |
| ColumnDefs.FirstPrimaryKey | src/database/database_utils.py:203-206 | the result is the name of a column flagged `is_primary_key`, and it is None exactly when no column is flagged |
| ColumnDefs.ProcessedAll | src/database/database_utils.py:96-100 | with `exclude_hidden` false, processing keeps every column |
| ColumnDefs.ProcessedIsVisible | src/database/database_utils.py:96-100 | when no primary key is admin, processing with hiding keeps exactly the non-admin columns |
| ColumnDefs.ProcessedFirstPrimaryKey | src/database/database_utils.py:96-100 | processing never drops a primary key, so the first primary key is unchanged |
| ColumnDefs.FilterFirstPrimaryKey | src/database/database_utils.py:203-206 | any filter that keeps every primary-key column leaves the first primary key unchanged |
| ColumnDefs.ToRows | src/core/view_management.py:60 | one list entry per column, in order: the column's details plus its name under "name" |
| ColumnDefs.Visible | src/database/database_utils.py:67-70 | exactly the columns not flagged admin, in their original order with their details; unique names stay unique |
| ColumnReaders.VisibleColumnsOf | src/database/database_utils.py:54-72 | the non-admin columns of the context, in order and with their details unchanged; {} for an unknown context; AttributeError exactly when the columns are in list form; the same code is repeated at core/database_utils.py:149-168, src/database/database_schema.py:12-15, src/core/config_utils.py:28-43 |
| ColumnReaders.VisibleIdempotent | src/database/database_utils.py:63-72 | dropping the admin columns a second time drops nothing more |
| ColumnDefs.Processed | src/database/database_utils.py:95-99 | exactly the primary keys and the columns not hidden as admin when hiding is asked, in their original order; unique names stay unique |
| ColumnReaders.ProcessedOf | src/database/database_utils.py:74-101 | TypeError exactly when the argument is not a dict; otherwise the primary keys and every column not hidden as admin, in order; without hiding, the dict comes back whole; the first primary key is kept; the same code is repeated at src/database/database_schema.py:18-26, src/core/view_management.py:3-30 |
| ColumnReaders.AttributeList | src/core/config_utils.py:22-26 | at most one value per column, and no values exactly when no column has the attribute |
| ColumnReaders.AttributeListSpec | src/core/config_utils.py:22-26 | the list holds the attribute's value from each column that has it, in column order |
| ColumnReaders.AttributeOnlyFirst | src/core/config_utils.py:22-26 | if only the first column has the attribute, the list is that one value |
| ColumnReaders.GetColumnAttributeForContext | src/core/config_utils.py:5-26 | [] for an unknown context; AttributeError exactly when the columns are in list form; otherwise at most one value per column, and [] exactly when no column has the attribute; the same code is repeated at core/config_utils.py:3-24 |
| ViewManagement.ProcessedColumnsStep | src/core/view_management.py:33-66 | ValueError and no change for an unknown context; otherwise the context's columns are stored in list form, one named entry per column in order, every other context is untouched, and that list is returned |
| ViewManagement.GetProcessedColumns | src/core/view_management.py:33-66 | the method's result and the new shared configuration are those of one step on the old configuration |
| ViewManagement.SecondCallUnchanged | src/core/view_management.py:59-66 | a second call for the same context returns the same list and changes nothing |
| ViewManagement.RewriteBreaksDictReaders | src/core/view_management.py:59-60 | after the rewrite, the non-admin filter raises AttributeError on that context and the processing filter raises TypeError |
| SrcDatabaseUtils.FormColumns | src/database/database_utils.py:125-406 | for the add form (125-135), the edit form (257-270) and the clone form (393-406): nothing when the context has no columns; AttributeError exactly for columns in list form; otherwise exactly the columns the form keeps, in order with unchanged details: editable ones for add and clone, every non-admin one for edit |
| SrcDatabaseUtils.EditFormKeepsPrimaryKey | src/database/database_utils.py:131-135 | a non-admin primary key is on the edit form but not on the add form or the clone form |
| SrcDatabaseUtils.ColumnParams | src/database/database_utils.py:214 | one parameter per column, in column order; each is the form's value, or None when the form lacks it |
| SrcDatabaseUtils.ColumnParamsGet | src/database/database_utils.py:214 | looking up a column in the parameters gives its form value, or None |
| SrcDatabaseUtils.InsertParams | src/database/database_utils.py:358-362 | one parameter per column except the primary-key columns, in column order; each is the form's value or None; the same code is repeated at src/database/operations.py:200-204 |
| SrcDatabaseUtils.BeforeFirst | src/database/database_utils.py:222 | `split(sep)[0]` is the whole string when `sep` does not occur, otherwise the prefix before its first occurrence |
| SrcDatabaseUtils.UpperKeepsWhere | src/database/database_utils.py:218 | a query that contains "WHERE" still contains it after upper-casing |
| SrcDatabaseUtils.RewriteWhere | src/database/database_utils.py:217-222 | as written: the result always ends with the key clause; a query with no WHERE in any case gets the clause appended; a query with an upper-case WHERE is cut at the first one |
| SrcDatabaseUtils.LowercaseWhereKept | src/database/database_utils.py:217-222 | a query whose only WHERE is lower case keeps its old condition, and the key clause is added after it, so the statement has two WHEREs |
| SrcDatabaseUtils.RewriteWhereIgnoringCase | src/database/database_utils.py:217-222 | corrected: a query with no WHERE in any case gets the key clause appended; otherwise the query is cut at its first WHERE in any case |
| SrcDatabaseUtils.WhereIgnoringCaseSingle | src/database/database_utils.py:217-222 | the corrected rewrite is a WHERE-free prefix of the query followed by the key clause, so it has exactly one condition |
| SrcDatabaseUtils.UpdateItemInDb | src/database/database_utils.py:188-236 | ValueError exactly when there is no primary key, it has an empty name, or the form lacks it; otherwise the statement is the query rewritten around the key |
| SrcDatabaseUtils.UpdateItemParams | src/database/database_utils.py:213-225 | the parameters are every column with its form value or None, then the key's form value under "primary_key_value" |
| SrcDatabaseUtils.PrepareUpdateParams | src/database/database_utils.py:525-553 | the loop builds exactly the parameter dict of the specification function over the columns; the same code is repeated at src/database/operations.py:219-232 |
| SrcDatabaseUtils.UpdateParamsGet | src/database/database_utils.py:541-550 | a column has a parameter exactly when it is defined and the form holds it; the parameter is the form's value, read out of a StringVar when it is one |
| SrcDatabaseUtils.UpdateParamsKeys | src/database/database_utils.py:541-550 | for columns with unique names, the parameters follow column order: exactly the defined columns that the form holds |
| Operations.FormColumns | src/database/operations.py:19-110 | the add form (19-22) keeps every non-admin column and the clone form (106-110) every editable one, in order with unchanged details |
| Operations.AddFormKeepsPrimaryKey | src/database/operations.py:22 | a non-admin primary key is on this add form, so a new item's key is typed in, but it is not on the clone form |
| Operations.UpdateItemInDb | src/database/operations.py:164-193 | the same error cases and parameters as the database_utils version; the key clause is appended only when the query has no WHERE in any case, and any other query is passed on unchanged |
| Operations.UpdateVariantsCompared | src/database/operations.py:183-184 | the two update helpers agree on a query with no WHERE; on a query with an upper-case WHERE, database_utils replaces the condition and operations keeps it |
| Operations.DeleteParams | src/database/operations.py:149-161 | nothing when no row is selected; otherwise the first selected value under "ID", whatever the key column is called |
| CoreQueryBuilder.QueryGenerator | core/query_builder.py:4-49 | ValueError when the context is unknown or has no columns; AttributeError when its columns are in list form; otherwise the four statements, with UPDATE and DELETE pinned to `id = :id` |
| CoreQueryBuilder.WritableSpec | core/query_builder.py:22-35 | the insert and update lists are exactly the non-admin columns not named "id", in definition order |
| CoreQueryBuilder.RealPrimaryKeyKept | core/query_builder.py:14-49 | for every configured context the statements are generated, the fetch lists every column (admin ones too), and the real primary key, never named "id", stays in the insert and update lists |
| CoreQueryBuilder.InsertableColumns | core/query_builder.py:65-68 | KeyError("type") exactly when a column that is not the key and has no usable default lacks a "type"; otherwise the columns that are not the key and either have a non-None default or are not int or blob |
| CoreQueryBuilder.InsertableColumnsSpec | core/query_builder.py:65-68 | for unique column names, a column is inserted exactly when the insert filter keeps it, in definition order |
| CoreQueryBuilder.GenerateInsertQuery | core/query_builder.py:52-78 | fails exactly when the column filter fails; otherwise the INSERT names the insertable columns and binds each one by name |
| CoreQueryBuilder.GenerateFetchQuery | core/query_builder.py:81-126 | ValueError for an unknown mode; "Basic" always succeeds; "Where" fails exactly when there are no conditions; "WhereAndSort" fails exactly when the conditions or the ORDER BY are missing; each success is the SELECT of the fetched columns followed, for "Where" and "WhereAndSort", by " WHERE " and one `col = :col` per condition key joined by " AND ", and for "WhereAndSort" by " ORDER BY " and the sort text |
| CoreQueryBuilder.FetchColumnsSpec | core/query_builder.py:100-103 | the SELECT list drops admin columns only when asked to, keeps every other column in order, and without exclusion is every column |
| CoreQueryBuilder.UpdateColumnsSpec | core/query_builder.py:129-152 | the UPDATE sets every column except the key, in order, with one positional parameter each, and the key's parameter comes last |
| CoreQueryBuilder.GenerateSortQuery | core/query_builder.py:170-189 | ValueError exactly when the sort column is not defined; otherwise the base query followed by its ORDER BY clause |
| CoreConfigUtils.PrimaryKeyAttribute | core/config_utils.py:3-24 | asking any configured context for "is_primary_key" gives exactly `[True]` |
| CoreDataManager.SaveData | core/data_manager.py:1-36 | the generator's errors come first; then StopIteration exactly when none of the given definitions is a primary key; then either the insert with the key's entry removed from the data, or the update with the data as given |
| CoreDataManager.AddBindsDroppedKey | core/data_manager.py:15-25 | for a configured context, an add sends an insert that still names and binds the real primary key, while the parameters have dropped it |
| CoreDataManager.OnSaveNeverSaves | core/data_manager.py:41-50 | `on_save` always fails with TypeError, even for a context whose save would succeed given its definitions |
| QueryGenerator.New | src/database/query_generator.py:14-47 | ValueError for an unknown context; TypeError for columns in list form; ValueError when no processed column is a primary key or its name is empty; otherwise the generator holds the context, its processed columns and the first primary key among them |
| QueryGenerator.Sort | src/database/query_generator.py:118-141 | ValueError exactly when the sort column is not a processed column; otherwise the base query with its ORDER BY appended |
| QueryGenerator.FetchColumnsSpec | src/database/query_generator.py:49-62 | built from a context's columns, the fetch lists every non-admin column, in definition order |
| QueryGenerator.InsertColumnsSpec | src/database/query_generator.py:64-83 | the insert lists every non-admin column except the primary key, in definition order |
| QueryGenerator.UpdateColumnsSpec | src/database/query_generator.py:85-102 | the update sets every processed column except the primary key and the foreign-key columns, in definition order |
| QueryGenerator.ConfiguredGenerator | src/database/query_generator.py:14-47 | on the shipped configuration, every context gives a generator whose key is the context's first column |
| QueryGenerator.StatementShapes | src/database/query_generator.py:104-116 | each statement starts with its verb and table, and DELETE pins exactly the primary key to its named parameter |
| DatabaseQueryGenerator.New | src/database/database_query_generator.py:18-47 | AttributeError for columns in list form; ValueError when the context has no primary key, an unknown context included; otherwise the editable columns and the first primary key |
| DatabaseQueryGenerator.KeyNotProcessed | src/database/database_query_generator.py:33-42 | in a dict with unique names, the primary-key column is not editable, so it is not among the processed columns |
| DatabaseQueryGenerator.FetchOmitsKey | src/database/database_query_generator.py:49-62 | the fetch selects exactly the editable columns, so never the primary key |
| DatabaseQueryGenerator.InsertIsEditable | src/database/database_query_generator.py:64-83 | the insert lists exactly the editable columns |
| DatabaseQueryGenerator.UpdateIsEditableNonForeign | src/database/database_query_generator.py:85-102 | the update sets exactly the editable columns that are not foreign keys |
| DatabaseQueryGenerator.SortOnKeyRefused | src/database/database_query_generator.py:118-141 | sorting on the primary key is refused with ValueError, because the key is not a processed column |
| FormsColumnProcessor.New | src/forms/column_processor.py:13-45 | ValueError exactly when the context is not configured; otherwise the processor holds that context's columns and the `exclude_hidden` flag |
| FormsColumnProcessor.ProcessedDefinitions | src/forms/column_processor.py:47-66 | TypeError exactly when the columns are not a dict; otherwise the primary keys and the columns not hidden as admin, in order, with unique names kept unique |
| FormsColumnProcessor.ProcessedColumns | src/forms/column_processor.py:68-83 | the processed columns as a list, one entry per column in order, each the details plus the column's name |
| Helpers.WithTestContext | src/database/helpers.py:14-21 | after the installation "TestContext" holds its fixed columns and every other context is untouched |
| ColumnDefs.Editable | src/database/helpers.py:46-50 | exactly the columns that are neither admin nor primary key, in their original order; unique names stay unique |
| Helpers.EditableIn | src/database/helpers.py:30-53 | {} for an unknown context or one with no columns; AttributeError exactly for columns in list form; otherwise the editable sub-dict, in order |
| Helpers.GetEditableColumns | src/database/helpers.py:8-53 | the call installs "TestContext" into the shared configuration and returns the editable columns of the requested context in the new configuration |
| Helpers.TestContextEditable | src/database/helpers.py:14-21 | for "TestContext" the editable columns are `name` and `created_at`, whatever was installed before |
| Helpers.AssembliesEditable | src/database/helpers.py:46-50 | on the shipped configuration, Assemblies gives the fourteen columns from AssemName to ProcurementType |
| Helpers.PartsEditable | src/database/helpers.py:46-50 | on the shipped configuration, Parts gives the twelve columns after PartID |
| DatabaseManager.GetPrimaryKey | src/database/database_manager.py:15-26 | AttributeError for columns in list form; ValueError when no column is a primary key (an unknown context included) or its name is empty; otherwise the non-empty name of the first primary-key column |
| DatabaseManager.InsertData | src/database/database_manager.py:36-51 | the insert data `add_item` evidently builds: available exactly when the key lookup succeeds, the data without the primary-key entry, every other entry kept in order (the errors the method raises before that are listed under Left out) |
| DatabaseManager.DeleteParams | src/database/database_manager.py:62-69 | the parameters bind exactly the key "id", to the item id |
| DatabaseManager.DeleteKeyUnbound | src/database/database_manager.py:62-69 | whatever the context, a primary key not named "id" is left unbound |
| DatabaseServices.GetPrimaryKey | src/database/database_services.py:87-99 | AttributeError exactly for columns in list form; otherwise the first primary-key column, or None when there is none; the same code is repeated at src/database/DatabaseManager.py:45-48 |
| DatabaseServices.PrimaryKeyLookupsAgree | src/database/database_services.py:87-99 | this lookup finds the same key as the one in database_manager.py; where that one raises ValueError, this one answers None or the empty name |
| DatabaseServices.AddItem | src/database/database_services.py:20-33 | fails exactly when the generator does, with its error; otherwise the generator's insert with the data minus the primary-key entry, the other entries kept in order; the same code is repeated at src/database/DatabaseManager.py:14-25 |
| DatabaseServices.UpdateItem | src/database/database_services.py:35-45 | the generator's errors; otherwise the generator's update with the caller's dict, which now maps "id" to the item id |
| DatabaseServices.UpdateItemWritesId | src/database/database_services.py:40 | after the call, the caller's dict maps "id" to the item id and keeps every other entry |
| DatabaseServices.CloneItem | src/database/database_services.py:47-63 | fails exactly when the generator does, with its error; otherwise the column list cut out of the generator's fetch is found, and the statement is the INSERT ... SELECT over those columns with `WHERE id = :id`, bound to `{"id": item_id}` |
| DatabaseServices.SelectParses | src/database/database_services.py:55-57 | every SELECT text contains the "SELECT " the clone splits at, so `split('SELECT ')[1]` never raises IndexError on a generator's fetch |
| DatabaseServices.CloneColumnsOfFetch | src/database/database_services.py:55-56 | when no name spells out the keywords the parse splits at, the clone copies the fetch's columns after the first one |
| DatabaseServices.FetchStartsWithKey | src/database/database_services.py:55-56 | when the primary key heads the processed columns and is not admin, the fetch lists it first, so the clone skips exactly the key |
| DatabaseServices.ConfiguredFetchStartsWithKey | src/database/database_services.py:55-56 | on the shipped configuration, every context's fetch starts with its primary key |
| DatabaseServices.DeleteEndsWithKeyBind | src/database/database_services.py:65-74 | the generator's delete ends in a parameter named after the primary key |
| DatabaseServices.DeleteItem | src/database/database_services.py:65-74 | fails exactly when the generator does; otherwise the generator's delete, with parameters whose only key is "id", bound to the item id; the same code is repeated at src/database/DatabaseManager.py:36-43, src/database/database_manager.py:62-69 |
| DatabaseServices.DeleteBindingMissing | src/database/database_services.py:74 | as written: for a context whose key is not literally "id", the statement's one named parameter has no value |
| DatabaseServices.AssembliesDeleteBindingMissing | src/database/database_services.py:74 | as written: Assemblies is keyed on AssemblyID, so its delete is sent without a value for `:AssemblyID` |
| DatabaseServices.DeleteItemByKey | src/database/database_services.py:65-74 | corrected: the item id is bound under the primary key's name, the one parameter the delete names |
| DatabaseServices.FetchAll | src/database/database_services.py:76-85 | fails exactly when the generator does; otherwise the generator's fetch statement, which starts with "SELECT ", with no parameters |
| DatabaseManagerCrud.UpdateItem | src/database/DatabaseManager.py:27-34 | fails exactly when the generator does, with its error; otherwise the generator's update with the data unchanged |
| DatabaseManagerCrud.UpdatePathsCompared | src/database/DatabaseManager.py:27-34 | this update and the service's send the same statement; the service's parameters always map "id" to the item id, this one's hold "id" only when the caller put it there, and every other key agrees |
| SrcDataManager.SaveData | src/core/data_manager.py:18-50 | fails exactly when the generator does; an add sends what the service's `add_item` sends; an edit sends the generator's update with the data as given |
| DatabaseOperations.AddItem | src/database/database_operations.py:20-34 | an INSERT naming the data's keys in order with one `?` each, with the data's values as arguments in the same order; the new row id, or -1 on a sqlite error |
| DatabaseOperations.UpdateItem | src/database/database_operations.py:36-48 | `k = ?` for each key in order, then `WHERE id = ?`; the arguments are the data's values then the item id; True exactly when sqlite raised no error |
| DatabaseOperations.DeleteItem | src/database/database_operations.py:58-68 | `DELETE FROM t WHERE id = ?` with the item id as its one argument; True exactly when sqlite raised no error |
| DatabaseOperations.CloneItem | src/database/database_operations.py:50-56 | always a NameError: the statement is built from a `data` that is not defined there |
| DatabaseOperations.AddItemPlaceholders | src/database/database_operations.py:24-29 | when no name holds a `?`, the insert has exactly one placeholder per argument |
| DatabaseOperations.UpdateItemPlaceholders | src/database/database_operations.py:40-43 | when no name holds a `?`, the update has one placeholder per key plus one for the id, as many as its arguments |
| DatabaseOperations.DeleteItemPlaceholders | src/database/database_operations.py:62-63 | when the table name holds no `?`, the delete has exactly the one placeholder its one argument fills |
| CoreQueryBuilder.PositionalPlaceholders | core/query_builder.py:129-167 | when no name holds a `?`, the UPDATE has one placeholder per column other than the key plus one for the key, and the DELETE exactly one, for the key |
| SrcValidation.Fallback | src/forms/validation.py:20-31 | a failed check gives the default when there is one, else ValueError for the reason |
| SrcValidation.ValidateField | src/forms/validation.py:3-52 | ValueError only without a default; a falsy required value falls back; a value outside non-empty valid values falls back; after both checks pass, "int" returns `int(value)` or falls back on ValueError (other errors escape), "float" does the same with the float conversion, and every other type returns the value unchanged |
| SrcValidation.IntFieldRoundTrip | src/forms/validation.py:34-36 | the text an integer prints as reads back as that integer in an "int" field |
| SrcValidation.ProcurementTypeCoerced | src/forms/validation.py:27-31 | with "Purchase" as default and the three procurement types as valid values, a valid type is kept and anything else becomes "Purchase" |
| SrcValidation.MissingFields | src/forms/validation.py:78-81 | exactly the required columns whose form value is missing or falsy, in column order; none exactly when every required column is filled |
| SrcValidation.FormDataVerdict | src/forms/validation.py:55-87 | ValueError when the context has no columns; AttributeError for columns in list form; otherwise one ValueError exactly when a required field is missing, else True |
| SrcValidation.CollectMissing | src/forms/validation.py:78-81 | the loop appends exactly the missing required fields of the specification |
| SrcValidation.ValidateFormData | src/forms/validation.py:55-87 | the method's result is the verdict of the specification |
| FormsValidation.ValidateField | forms/validation.py:1-40 | True, or ValueError; a falsy required value is refused, and a value outside non-empty valid values is refused with the invalid-value error; an "int" value passes exactly when it is an int or converts, a "float" value exactly when it is a float or converts, and any other type passes exactly when both checks do |
| FormsValidation.AgreesWithSrcValidation | forms/validation.py:1-40 | without a default, this check and the src/forms one accept the same values for every type but "float" |
| FormsValidation.FieldValue | forms/validation.py:78-85 | ValueError for empty numeric text; for "int", success exactly when `int()` accepts the text, giving that integer; other non-numeric types keep the text |
| FormsValidation.ValidateFormData | forms/validation.py:43-87 | the loop builds exactly the dict, or the first error, of the specification fold |
| FormsValidation.FailureSticks | forms/validation.py:59-85 | once a column raises, the whole form raises the same error |
| FormsValidation.FormValuesEntries | forms/validation.py:59-85 | every entry of the result belongs to a column with a string name and an entry widget, and holds that widget's text converted for the column's type |
| DataEntryForm.EntryValue | src/forms/data_entry_form.py:47-68 | for empty text, ValueError naming the column when it is required, else None; for "int", `int()` of the text or a ValueError naming the column; for "options", the text when it is among a list of options or a substring of a string of options, ValueError naming the column when it is not, and TypeError for options of any other kind; for other types, the text |
| DataEntryForm.GatherOutcome | src/forms/data_entry_form.py:9-70 | ValueError when the context has no columns; AttributeError for columns in list form; otherwise the result of the column loop; the same code is repeated at forms/data_entry_form.py:7-68 |
| DataEntryForm.GatherFormData | src/forms/data_entry_form.py:25-70 | the loop's result is exactly the specification's outcome; the same code is repeated at forms/data_entry_form.py:23-68 |
| DataEntryForm.GatherFailureSticks | src/forms/data_entry_form.py:31-68 | once a column raises, the whole loop raises the same error |
| DataEntryForm.GatheredEntries | src/forms/data_entry_form.py:31-68 | every gathered entry belongs to a column that has an entry widget and is not a primary key, and holds what that widget's stripped text becomes |
| DataEntryForm.GatheredRequiredFilled | src/forms/data_entry_form.py:47-48 | when gathering succeeds, every required non-key column with a widget had non-blank text |
| DataEntryForm.ShownValue | src/forms/data_entry_form.py:133-136 | the shown value is never None; a truthy value is kept; a falsy one becomes "NULL" or ""; it is "NULL" exactly when the value is None and the column allows null, which is the default |
| DataEntryForm.PopulatedIsMap | src/forms/data_entry_form.py:128-146 | for a dict of data, the form holds the same keys in the same order, each mapped to its shown value |
| DataEntryForm.PopulateFormForEdit | src/forms/data_entry_form.py:117-146 | empty data gives {}; as written, non-empty data raises NameError for the first column's UI hook; with the hooks defined, the result is the populated dict; the same code is repeated at forms/data_entry_form.py:138-167 |
| DataEntryForm.StartValue | forms/data_entry_form.py:108-128 | a truthy initial value is what the entry starts with; for "int" and "float" columns a present initial value other than None, falsy ones such as 0 included, is shown through `str()` and None as ""; a falsy initial value gives "" for text, the first option for "options"; a column absent from the initial values starts from its default: the default or "" for text, its text or "" for None for "int" and "float", the default or the first option for "options" |
| DataEntryForm.InitialBeatsDefault | forms/data_entry_form.py:108 | a column present in the initial values starts the same whatever its default, even when the initial value is falsy |
| DataEntryForm.WidgetKeys | forms/data_entry_form.py:100-134 | for a dict of columns, the widgets follow column order and are exactly the columns that are not primary keys |
| DataEntryForm.BuildForm | forms/data_entry_form.py:70-136 | TypeError for columns in list form; ValueError when no processed column is left; otherwise the widgets of the processed columns |
| DataEntryForm.PlaceEntries | forms/data_entry_form.py:95-136 | the loop builds exactly the specification's widgets, and the row counter ends at the number of columns that are not primary keys |
| DataEntryForm.WidgetsFailureSticks | forms/data_entry_form.py:100-134 | once a column's starting value fails, the whole loop fails the same way |
| DataEntryForm.BuildFormKeys | forms/data_entry_form.py:86-134 | for a dict of columns, the form's entries are exactly the editable columns, neither admin nor primary key, in column order |
| AssemblyModel.Rollup | src/models/assembly.py:63-73 | the roll-up is always "Purchase", "Make" or "Hybrid" |
| AssemblyModel.RollupSpec | src/models/assembly.py:48-73 | "Make" exactly when there are types and all are Make; "Hybrid" exactly when Make is among them with some other type; "Purchase" exactly when Make is absent, no types included |
| AssemblyModel.RollupValid | src/models/assembly.py:8 | the roll-up is one of the valid procurement types |
| AssemblyModel.LinkedTypesAtMostOne | src/models/assembly.py:55-61 | the query matches Assemblies_Parts rows by their own ID, so it yields at most one type: that of the part joined to the row whose ID is the assembly id |
| AssemblyModel.RollupNeverHybrid | src/models/assembly.py:55-73 | as written, `update_procurement_type` never yields "Hybrid" |
| AssemblyModel.RollupIgnoresLinkType | src/models/assembly.py:56-58 | the roll-up reads the joined part's current type, not the type stored on the link row |
| AssemblyModel.ChildRollupHybrid | src/models/assembly.py:49-53 | selecting the links by ParentAssemblyID, one Make part and one Purchase part under the assembly give "Hybrid" |
| AssemblyModel.WithType | src/models/assembly.py:76-79 | the UPDATE sets ProcurementType of the row with the assembly id, if any, and changes no other column, row or id |
| AssemblyModel.ValidatedType | src/models/assembly.py:92-104 | the part's type after validation is valid; a valid type is kept and anything else, None included, becomes "Purchase" |
| AssemblyModel.AddedQuantity | src/models/assembly.py:113-119 | every row linking the part to the assembly gains the quantity; other rows and the set of ids are unchanged |
| AssemblyModel.AddPartUpserts | src/models/assembly.py:109-130 | afterwards the part is linked to the assembly; with no link before, exactly one new row holding the quantity; with links before, no new row |
| AssemblyModel.AddPartTwiceAccumulates | src/models/assembly.py:109-130 | adding a part twice leaves one link row holding the sum of both quantities |
| AssemblyModel.AppendedKeys | src/models/assembly.py:155-162 | `add_parts_to_assembly` adds exactly one new row id per listed part id, repeats included |
| AssemblyModel.AppendedValues | src/models/assembly.py:158-162 | the row for the j-th part id links the assembly to it with quantity 1 and "Part"; existing rows are unchanged |
| AssemblyModel.Assembly.constructor | src/models/assembly.py:11-20 | the id, name and given procurement type are stored |
| AssemblyModel.Assembly.UpdateProcurementType | src/models/assembly.py:48-79 | the assembly's type becomes the roll-up of the linked types and its Assemblies row is updated; the other tables are untouched |
| AssemblyModel.Assembly.AddPart | src/models/assembly.py:83-130 | the part's type is validated, the links become the upsert's result, the assembly's own type is not recomputed and the other tables are untouched |
| AssemblyModel.Assembly.ListParts | src/models/assembly.py:132-145 | at most one (name, quantity) pair, present exactly when the roll-up query finds a type, holding the name of the joined part and the quantity of the row whose ID is the assembly id |
| AssemblyModel.Assembly.AddPartsToAssembly | src/models/assembly.py:147-164 | the links gain one bare row per part id with consecutive new ids; the other tables are untouched |
| PartModel.TypeOrPurchase | src/models/part.py:19 | the stored type is always truthy; a truthy given type is kept |
| PartModel.Part.constructor | src/models/part.py:9-19 | the id and name are stored and the type is the given one or "Purchase" |
| PartModel.Part.FetchFromDb | src/models/part.py:21-29 | None exactly when no row has the id; otherwise a new Part with the row's id, name and (defaulted) type |
| PartModel.Part.SaveToDb | src/models/part.py:31-45 | the Parts table becomes the saved table; the other tables are untouched |
| PartModel.Fetched | src/models/part.py:24-29 | a Part is found exactly when the id is in the table, carrying that id, the row's name and a truthy type |
| PartModel.Saved | src/models/part.py:33-45 | the row with the id holds the name and type, an updated row keeps its other columns, other rows are unchanged and no other id appears |
| PartModel.SaveFetchRoundTrip | src/models/part.py:21-45 | saving a Part and fetching it back returns its id, name and type |
| PartModel.SaveIdempotent | src/models/part.py:31-45 | saving twice is the same as saving once |
| PartModel.FetchSaveRestores | src/models/part.py:21-45 | fetching a row with a truthy type and saving it back leaves the table as it was |
| ModelTables.Tables.constructor | src/models/assembly.py:124-129 | the tables hold the given rows and every link id lies below the next one handed out |
| ConnectionTracking.Connection.constructor | src/core/database_transactions.py:59 | a new connection is open |
| ConnectionTracking.RemoveFirst | src/database/tracker.py:11-13 | an untracked connection leaves the list as it was; a tracked one shortens it by one |
| ConnectionTracking.RemoveFirstAt | src/database/tracker.py:11-13 | the removal takes out the first occurrence and keeps the order of the rest |
| ConnectionTracking.RemoveFirstCount | src/database/tracker.py:11-13 | the removal takes out exactly one occurrence |
| ConnectionTracking.ConnectionTracker.constructor | src/database/tracker.py:5-6 | the list starts empty; the same code is repeated at src/core/database_transactions.py:17-18 |
| ConnectionTracking.ConnectionTracker.AddConnection | src/database/tracker.py:8-9 | the connection is appended, even when already tracked; the same code is repeated at src/core/database_transactions.py:20-25 |
| ConnectionTracking.ConnectionTracker.RemoveConnection | src/database/tracker.py:11-13 | the list loses the first occurrence of the connection; an untracked one changes nothing; the same code is repeated at src/core/database_transactions.py:27-36 |
| ConnectionTracking.ConnectionTracker.ForceCloseAll | src/database/tracker.py:15-18 | every connection tracked before is closed and the list ends empty; the same code is repeated at src/core/database_transactions.py:38-45 |
| ConnectionTracking.AddThenRemove | src/database/tracker.py:8-13 | adding an untracked connection and removing it restores the list |
| DatabaseTransactions.Unwrap | src/core/database_transactions.py:154-158 | the parameters keep their shape, length and keys, no StringVar is left, and every other value is kept |
| DatabaseTransactions.UnwrapIdempotent | src/core/database_transactions.py:104-108 | unwrapping twice is unwrapping once |
| DatabaseTransactions.BeginIdempotent | src/core/database_transactions.py:72-83 | beginning fails exactly inside the driver's implicit transaction, and then changes nothing; otherwise it leaves a transaction active; the data is unchanged either way, and a second begin changes nothing more |
| DatabaseTransactions.CommitRollbackSpec | src/core/database_transactions.py:85-201 | `commit_transaction` (85-94) and `rollback_transaction` (189-201) act only while a transaction is active and clear the flag; commit makes the pending writes durable, rollback drops them |
| DatabaseTransactions.NonQueryCommitted | src/core/database_transactions.py:145-176 | a transactional write with `commit=True` ends idle, with the pending writes and the write durable |
| DatabaseTransactions.NonQueryStaged | src/core/database_transactions.py:160-179 | without `commit=True` the write is left pending in an active transaction |
| DatabaseTransactions.RollbackUndoesStaged | src/core/database_transactions.py:160-201 | a rollback after a staged write leaves the durable data as it was |
| DatabaseTransactions.NonQueryFailureRollsBack | src/core/database_transactions.py:181-187 | a refused transactional write rolls back, re-raises and makes nothing durable |
| DatabaseTransactions.NonTransactionalCommitIgnored | src/core/database_transactions.py:172-176 | while idle, a non-transactional write with `commit=True` is not made durable |
| DatabaseTransactions.SelectLeavesTransactionOpen | src/core/database_transactions.py:110-124 | a transactional SELECT returns its rows and leaves its transaction active, the data unchanged |
| DatabaseTransactions.QueryCommitsOtherStatements | src/core/database_transactions.py:123-130 | a transactional statement that is not a SELECT returns None and is committed with what was pending |
| DatabaseTransactions.DriverOpenRefusesTransactional | src/core/database_transactions.py:72-83 | with writes pending and the flag clear, a transactional `execute_non_query` (160-163, 181-187) or `execute_query` (116-119, 132-138) raises at BEGIN, and its rollback leaves every pending write in place |
| DatabaseTransactions.NonTransactionalThenTransactional | src/core/database_transactions.py:145-187 | after a non-transactional write while idle, the next transactional write raises and the first write is still only pending |
| DatabaseTransactions.TransactionManager.constructor | src/core/database_transactions.py:57-63 | a new manager is idle on its connection with the given durable data |
| DatabaseTransactions.TransactionManager.BeginTransaction | src/core/database_transactions.py:72-83 | the result and new state are those of Begin: OperationalError inside the driver's implicit transaction, else the flag set |
| DatabaseTransactions.TransactionManager.CommitTransaction | src/core/database_transactions.py:85-94 | the state becomes Commit of the old state |
| DatabaseTransactions.TransactionManager.RollbackTransaction | src/core/database_transactions.py:189-201 | the state becomes Rollback of the old state |
| DatabaseTransactions.TransactionManager.ExecuteNonQuery | src/core/database_transactions.py:145-187 | the result and new state are those of the write with its parameters unwrapped, including the BEGIN refused inside the driver's implicit transaction, which keeps the pending writes |
| DatabaseTransactions.TransactionManager.ExecuteQuery | src/core/database_transactions.py:96-143 | the result and new state are those of the query with its parameters unwrapped, including the BEGIN refused inside the driver's implicit transaction, which keeps the pending writes |
| DatabaseTransactions.ManagerClass.constructor | src/core/database_transactions.py:47-49 | no instance yet, and the shared tracker |
| DatabaseTransactions.ManagerClass.Construct | src/core/database_transactions.py:51-63 | an existing instance is returned whatever the path; otherwise a new idle manager on a new open connection, tracked and remembered |
| DatabaseTransactions.ManagerClass.Close | src/core/database_transactions.py:65-70 | the connection is closed and untracked and the instance forgotten |
| DatabaseTransactions.UndoDropsPending | src/core/database_transactions.py:203-230 | undo drops exactly the pending writes and returns the re-read rows, with the re-read's transaction left active |
| DatabaseTransactions.UndoIdleNoop | src/core/database_transactions.py:207-211 | with no active transaction undo changes nothing |
| DatabaseTransactions.UndoLastAction | src/core/database_transactions.py:203-234 | the report and the new state are those the undo specification gives |
| SharedUtils.NextDirection | ui/shared_utils.py:29-30 | the next direction is "ASC" or "DESC", and "DESC" exactly after "ASC" |
| SharedUtils.SortedQuery | ui/shared_utils.py:33 | the query is the fetch query, then " ORDER BY ", the column, a space and the direction |
| SharedUtils.NextDirectionInvolution | ui/shared_utils.py:29-30 | flipping a direction twice returns it |
| SharedUtils.SortState.constructor | ui/shared_utils.py:15 | no direction is recorded |
| SharedUtils.SortState.SortTable | ui/shared_utils.py:17-54 | the sorted query uses the flipped direction, which is recorded for the column only when the query succeeded |
| SharedUtils.SortAlternates | ui/shared_utils.py:29-49 | the first sort of a column is descending, then ascending, then descending; other columns are untouched |
| RefreshDefinitions.TableNameIgnored | config/refresh_database_definitions.py:20-21 | the same table is introspected whatever name is passed |
| RefreshDefinitions.RowDefinition | config/refresh_database_definitions.py:28-32 | each definition has exactly a display name, a type and a primary key flag, set exactly when `pk == 1`, and is never admin |
| RefreshDefinitions.RefreshedInRowOrder | config/refresh_database_definitions.py:27-34 | for distinct names the columns follow the PRAGMA rows one for one |
| RefreshDefinitions.RefreshedDropsCurated | config/refresh_database_definitions.py:27-34 | no refreshed column keeps the curated keys such as admin, default or width |
| RefreshDefinitions.WithAssemblies | config/refresh_database_definitions.py:40 | KeyError exactly without an Assemblies context; otherwise only the Assemblies columns change, to the refreshed ones |
| RefreshDefinitions.RefreshTwiceSame | config/refresh_database_definitions.py:40-46 | the second refresh with the same rows changes nothing |
| RefreshDefinitions.ColumnConfig.constructor | config/refresh_database_definitions.py:2 | the shared definitions are held |
| RefreshDefinitions.ColumnConfig.RefreshAssemblies | config/refresh_database_definitions.py:39-46 | KeyError exactly without an Assemblies context, leaving the definitions as they were; otherwise the definitions after one refresh |

## Left out

- Tkinter presentation: windows, labels, widget kinds, message boxes and Treeview clearing and refilling are not modelled; printing and logging are not modelled either.
- SQLite execution: whether a statement succeeds, the rows it returns, `lastrowid` and the Assemblies_Parts row ids are parameters of the model (`fails`, `Outcome`, `nextLinkId`).
- DatabaseTransactions: every write lands in the pending layer, because the sqlite3 driver opens a transaction before a data-changing statement even when the manager did not; writes pending with the flag clear stand for that implicit transaction, in which an explicit BEGIN raises. Statements other than writes that open or end transactions are not modelled; the durable layer is a list of statements, not table contents.
- RefreshDefinitions: the PRAGMA rows are a parameter; reading the database file at a fixed path is not modelled.
- SrcValidation.ValidateField and FormsValidation.ValidateFormData: `float()` is a conversion passed in as a parameter, because floating point is not modelled; a `valid_values` of None is modelled as the empty list.
- DataEntryForm.GatherFormData: float columns use the same conversion parameter.
- Operations: the methods of class DatabaseOperations in src/database/operations.py (lines 16, 39, 93, 149, 164, 195) are written without a `self` parameter; called through the class they raise NameError at their first use of `self`, and called on an instance they receive the instance as their first argument and every other argument shifts. The model gives the statements and parameters they evidently build. `prepare_update_params` (219-220) is a static method and works as written.
- DatabaseManager.InsertData: as written, `add_item` in src/database/database_manager.py raises AttributeError at line 40, because `__init__` never sets `self.db_path`; past that, the call at line 43 would raise TypeError, because `get_primary_key` (line 15) takes no `self`. `update_item` and `delete_item` (lines 55 and 64) use `self.query_generator` and `self.db_executor`, which are never set. The model gives the insert data and delete parameters these methods evidently build, not these errors.
- CoreDataManager.SaveData: as written, core/data_manager.py:36 calls `execute_query(query, params)`, but core/database_utils.py:26 takes `(connection, query, params)`. The SQL text is therefore bound to `connection` and the parameters to `query`. `connection.cursor()` then raises AttributeError on the string, the handler shows a message box and returns None, and the `finally` clause's `cursor.close()` raises UnboundLocalError because `cursor` was never assigned. The statement is never sent; the model stops at the statement and parameters that save_data builds.
- DatabaseManagerCrud: src/database/DatabaseManager.py never sets its executor, so the model stops at the statement and its parameters.
- DataEntryForm.PopulateFormForEdit: the column hooks that `populate_form_for_edit` calls are not imported into its module; `hide_field_in_ui` is defined in src/ui/ui_helpers.py:145 with a third parameter, and `add_field_to_ui` is defined nowhere. A flag says whether the hooks resolve and accept the call; without them the result is NameError.
- DataEntryForm.BuildForm: forms/data_entry_form.py imports `get_processed_column_definitions` from core/database_utils.py, which does not define it; the model uses the definition of src/core/view_management.py with hidden columns excluded.
- AssemblyModel: src/models/assembly.py uses `db_manager` without importing it; the model assumes the transaction manager of src/core/database_transactions.py, as src/models/part.py imports it, with `commit=True` on every write.
- AssemblyModel.Assembly.constructor and PartModel.Part.constructor: both call `Item.__init__` with two arguments while src/models/item.py takes three, which raises TypeError; the model assumes the id and name are stored as intended.
- QueryGenerator.New: src/database/query_generator.py passes `helpers.ColumnProcessor` arguments it does not accept; the processed columns are taken to be those of src/forms/column_processor.py with hidden columns excluded.
- DatabaseQueryGenerator.New: src/database/database_query_generator.py asks a class without `get_editable_columns` for it; the editable filter of src/database/helpers.py is used instead.
- Assembly.fetch_from_db and Assembly.save_to_db are not modelled: they mirror the Part methods, which are.
- RefreshDefinitions.RowDefinition: only `pk == 1` marks a primary key, as the source tests; composite keys are not considered.
- `validate_foreign_keys` in both validation files runs hand-written join SQL and is not modelled; `validate_table_selection` and `validate_contexts` are UI and type checks and are not modelled either.
- `prepare_form_data` in both form files fills a Treeview and is not modelled; the `build_form` of src/forms/data_entry_form.py only lays out widgets and is not modelled.
- `fetch_all` in src/database/database_operations.py runs `SELECT * FROM t`; its result is database contents and is not modelled.
- `populate_table` in ui/shared_utils.py only refills a Treeview and is not modelled.
- `VIEW_DEFINITIONS` and the import-time path computation of config/config_data.py are not modelled.
- CoreQueryBuilder.GenerateUpdateQuery and CoreQueryBuilder.GenerateDeleteQuery: their text is stated through UpdateColumnsSpec and PositionalPlaceholders, not character by character.

## Findings

| source | as written | input that shows it | evidently intended | confidence | as-written member | corrected member |
|---|---|---|---|---|---|---|
| src/database/database_utils.py:217-222 | the WHERE test upper-cases the query, but the split looks for an upper-case "WHERE" only | the query "UPDATE t SET a = 1 where b = 2": the lower-case clause is not replaced, and the key clause is appended after it, giving "... where b = 2 WHERE id = :primary_key_value", two WHERE clauses that SQLite rejects as a syntax error | a WHERE in any case is replaced by the primary-key clause | not executed | SrcDatabaseUtils.LowercaseWhereKept | SrcDatabaseUtils.WhereIgnoringCaseSingle |
| src/database/database_services.py:74 | `delete_item` binds `{"id": item_id}` while the DELETE statement names `:pk` | deleting from Assemblies, whose key is AssemblyID: the statement's only placeholder has no binding | the item id is bound under the name the statement uses | not executed | DatabaseServices.AssembliesDeleteBindingMissing | DatabaseServices.DeleteItemByKey |
| src/models/assembly.py:55-60 | the roll-up selects links `WHERE ap.ID = ?`, the link row's own id | an assembly with one Make part and one Purchase part linked under it: it never becomes Hybrid | links selected by ParentAssemblyID, so the roll-up sees every part of the assembly | not executed | AssemblyModel.RollupNeverHybrid | AssemblyModel.ChildRollupHybrid |
