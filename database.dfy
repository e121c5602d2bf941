/** The process-wide measurements store, as an append-only log. */
module Database {
  import opened Measurements

  class MeasurementsDatabase {
    /** Every measurement recorded so far, oldest first. */
    var log: seq<Measurement>

    constructor ()
      ensures log == []
    {
      log := [];
    }

    /** `record`: append one measurement at the end of the log. */
    method Record(m: Measurement)
      modifies this
      ensures log == old(log) + [m]
    {
      log := log + [m];
    }
  }
}
