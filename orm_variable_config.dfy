/** The `ups_opt_variable_config` table: energy price, CO2 factor and the
  * polling interval, held in a single row. */
module OrmVariableConfig {
  import opened Wrappers
  import opened Session

  datatype VariableConfig = VariableConfig(
    id: Option<int>,
    currency: string,
    pricePerKwh: real,
    co2Factor: real,
    pollingInterval: int)

  /** A row built from the column defaults alone. */
  function ColumnDefaults(id: Option<int>): (r: VariableConfig)
    ensures r.id == id && r.pollingInterval == 1
  {
    VariableConfig(id, "EUR", 0.25, 0.4, 1)
  }

  /** The row `init_default_config` writes. */
  const SEEDED: VariableConfig := VariableConfig(Some(1), "EUR", 0.25, 0.4, 1)

  /** The seeded row carries exactly the column defaults. */
  lemma SeededIsColumnDefaults()
    ensures SEEDED == ColumnDefaults(Some(1))
  {
  }

  class VariableConfigTable {
    var rows: seq<VariableConfig>

    constructor (rows: seq<VariableConfig>)
      ensures this.rows == rows
    {
      this.rows := rows;
    }

    /** `init_default_config`: insert the default row only into an empty
      * table; commit errors are handled as in the other seeding helpers. */
    method InitDefaultConfig(commit: CommitResult) returns (created: bool)
      modifies this
      ensures created <==> old(rows) == [] && SeedCommitted(commit)
      ensures rows == if created then [SEEDED] else old(rows)
    {
      if |rows| > 0 {
        return false;
      }
      var defaultConfig := VariableConfig(Some(1), "EUR", 0.25, 0.4, 1);
      if commit.None? || FlushRecovers(commit.value) {
        rows := rows + [defaultConfig];
        return true;
      }
      return false;
    }
  }
}
