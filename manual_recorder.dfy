/** The on-demand recorder: one supplier read, then one append to the database. */
module ManualRecorder {
  import opened Wrappers
  import opened Errors
  import opened Measurements
  import opened Database
  import opened Recorders

  /**
   * `recordOneMeasurement`. `fetched` is the outcome of the one call to the
   * supplier's `get()`: a measurement, or the rejection it propagates.
   */
  method RecordOneMeasurement(recorder: Recorder, fetched: Result<Measurement, Error>)
    returns (r: Result<Measurement, Error>)
    requires recorder.Manual?
    modifies recorder.database
    ensures r == fetched
    ensures fetched.Success? ==> recorder.database.log == old(recorder.database.log) + [fetched.value]
    ensures fetched.Failure? ==> recorder.database.log == old(recorder.database.log)
  {
    match fetched
    case Failure(e) =>
      r := Failure(e);
    case Success(measurement) =>
      recorder.database.Record(measurement);
      r := Success(measurement);
  }
}
