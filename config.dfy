/** The parsed configuration entries the wiring code reads. */
module Config {

  /** One `measurements` entry: a supplier `id` reading value key `sensor-key` of sensor `sensor-id`. */
  datatype MeasurementSupplierConfig = MeasurementSupplierConfig(id: string, sensorId: string, sensorKey: string)

  /** The mode-specific part of a recorder entry (its `config` field), handed on uninterpreted. */
  datatype RecorderModeConfig = RecorderModeConfig(settings: map<string, string>)

  /** One `recorders` entry: recorder `id` over supplier `measurement-id`, in `mode`. */
  datatype RecorderConfig = RecorderConfig(id: string, measurementId: string, mode: string, config: RecorderModeConfig)
}
