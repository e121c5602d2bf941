/** Measurements and the suppliers that produce them. */
module Measurements {
  import opened Wrappers
  import opened Errors
  import opened Sensors

  /** One reading of a supplier; its timestamp is not modelled and its value is kept as text. */
  datatype Measurement = Measurement(supplierId: string, value: string)

  /** A supplier binds one value key of one sensor under its own id. */
  datatype MeasurementSupplier = MeasurementSupplier(id: string, sensor: Sensor, sensorKey: string)

  /** `MeasurementSupplierCollection.findById`: the first supplier with the id, or a not-found error. */
  function FindById(suppliers: seq<MeasurementSupplier>, id: string): (r: Result<MeasurementSupplier, Error>)
    ensures r.Success? ==> r.value in suppliers && r.value.id == id
    ensures r.Failure? ==> r.error == SupplierNotFound(id) && forall s :: s in suppliers ==> s.id != id
  {
    if suppliers == [] then Failure(SupplierNotFound(id))
    else if suppliers[0].id == id then Success(suppliers[0])
    else FindById(suppliers[1..], id)
  }
}
