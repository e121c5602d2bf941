/** The errors the wiring code can raise. */
module Errors {

  datatype Error =
      /** `throw new Error(message)` in the modelled code, with its message text. */
    | Thrown(message: string)
      /** `SensorCollection.findById` found no sensor with this id. */
    | SensorNotFound(sensorId: string)
      /** `MeasurementSupplierCollection.findById` found no supplier with this id. */
    | SupplierNotFound(measurementId: string)
      /** A rejected `MeasurementSupplier.get()`: the sensor read failed. */
    | ReadFailed(reason: string)
}
