/** Sensors as the wiring code sees them: an id and the set of value keys they can read. */
module Sensors {
  import opened Wrappers
  import opened Errors

  datatype Sensor = Sensor(id: string, valueKeys: set<string>)

  /** `SensorCollection.findById`: the first sensor with the id, or a not-found error. */
  function FindById(sensors: seq<Sensor>, id: string): (r: Result<Sensor, Error>)
    ensures r.Success? ==> r.value in sensors && r.value.id == id
    ensures r.Failure? ==> r.error == SensorNotFound(id) && forall s :: s in sensors ==> s.id != id
  {
    if sensors == [] then Failure(SensorNotFound(id))
    else if sensors[0].id == id then Success(sensors[0])
    else FindById(sensors[1..], id)
  }
}
