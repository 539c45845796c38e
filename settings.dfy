/** The tunable settings of one run (settings.py), passed explicitly. */
module Config {

  /** The six tunable settings that `get_status`, the repository read-out and
      the report formatter consult. */
  datatype Settings = Settings(
    minimumCostForWarning: real,
    roundingPrecision: nat,
    warningThresholdMultiplier: real,
    numberOfTopServicesToInvestigate: nat,
    statusWarning: string,
    statusNominal: string)

  /** The defaults used when the environment overrides nothing. */
  const Defaults: Settings := Settings(10.0, 2, 2.0, 5, "WARNING", "NOMINAL")

  /** The two status strings can be told apart (true of the defaults). */
  predicate DistinctStatuses(s: Settings) {
    s.statusWarning != s.statusNominal
  }
}
