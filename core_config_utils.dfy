/**
 * core/config_utils.py: `get_column_attribute_for_context`, the same attribute
 * reader as src/core/config_utils.py (`ColumnReaders.GetColumnAttributeForContext`),
 * and what it yields on the shipped configuration.
 */
module CoreConfigUtils {
  import opened Wrappers
  import opened PyValues
  import opened ColumnDefs
  import opened ColumnReaders
  import ConfigData

  /**
   * Asking any configured context for "is_primary_key" yields exactly `[True]`:
   * only the primary-key column carries that entry at all.
   */
  lemma PrimaryKeyAttribute(ctx: string)
    requires ctx in ConfigData.COLUMN_DEFINITIONS
    ensures GetColumnAttributeForContext(ConfigData.COLUMN_DEFINITIONS, ctx, "is_primary_key") == Ok([VBool(true)])
  {
    ConfigData.PrimaryKeyAttributeOnlyFirst(ctx);
    AttributeOnlyFirst(ConfigData.COLUMN_DEFINITIONS[ctx].defs, "is_primary_key");
  }
}
