/** Builds a recorder of the kind a recorder entry's `mode` names. */
module RecorderFactory {
  import opened Wrappers
  import opened Errors
  import opened Config
  import opened Measurements
  import opened Database
  import opened Recorders

  const ManualMode := "manual"
  const PeriodicMode := "periodic"

  predicate KnownMode(mode: string)
  {
    mode == ManualMode || mode == PeriodicMode
  }

  function Create(recordingConfig: RecorderConfig, measurementSupplier: MeasurementSupplier,
                  measurementDb: MeasurementsDatabase): (r: Result<Recorder, Error>)
    ensures r.Success? <==> KnownMode(recordingConfig.mode)
    ensures r.Success? ==> r.value.id == recordingConfig.id
                           && r.value.measurementSupplier == measurementSupplier
                           && r.value.database == measurementDb
    ensures r.Success? ==> (r.value.Manual? <==> recordingConfig.mode == ManualMode)
    ensures r.Success? && r.value.Periodic? ==> r.value.config == recordingConfig.config
    ensures r.Failure? ==> r.error == Thrown("unknown recorder mode " + recordingConfig.mode)
  {
    match recordingConfig.mode
    case "manual" => Success(Manual(recordingConfig.id, measurementSupplier, measurementDb))
    case "periodic" =>
      Success(Periodic(recordingConfig.id, measurementSupplier, measurementDb, recordingConfig.config))
    case _ => Failure(Thrown("unknown recorder mode " + recordingConfig.mode))
  }
}
