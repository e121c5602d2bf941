/**
 * The recorder hierarchy. The abstract base class has no instances of its own,
 * so a recorder is one of the two concrete kinds; the three fields every recorder
 * has are read-only, which a datatype value gives for free.
 */
module Recorders {
  import opened Config
  import opened Measurements
  import opened Database

  datatype Recorder =
    | Manual(id: string, measurementSupplier: MeasurementSupplier, database: MeasurementsDatabase)
    | Periodic(id: string, measurementSupplier: MeasurementSupplier, database: MeasurementsDatabase,
               config: RecorderModeConfig)
}
