/**
 * Start-up wiring: command-line handling, binding suppliers to sensor keys,
 * binding recorders to suppliers, and registering the API routes.
 */
module Run {
  import opened Wrappers
  import opened Errors
  import opened Config
  import opened Sensors
  import opened Measurements
  import opened Database
  import opened Recorders
  import opened Mapping
  import opened WebServer
  import opened Routes
  import RecorderFactory

  /** Where the configuration comes from: the bundled default, or a JSON file to read. */
  datatype ConfigSource = DefaultConfig | ConfigFile(path: string)

  const MissingArgument := "Missing argument: ./path/to/config.json"
  const BadArgument := "Bad argument"
  const ConfigFlag := "--config"

  /** `processArgv`: argv holds the interpreter and the script before any user argument. */
  function ProcessArgv(argv: seq<string>): (r: Result<ConfigSource, Error>)
    ensures r == Success(DefaultConfig) <==> |argv| == 2
    ensures (r.Success? && r.value.ConfigFile?) <==> |argv| == 4 && argv[2] == ConfigFlag
    ensures r.Success? && r.value.ConfigFile? ==> r.value.path == argv[3]
    ensures r == Failure(Thrown(MissingArgument)) <==> |argv| == 3
    ensures r == Failure(Thrown(BadArgument))
            <==> |argv| !in {2, 3, 4} || (|argv| == 4 && argv[2] != ConfigFlag)
  {
    match |argv|
    case 2 => Success(DefaultConfig)
    case 3 => Failure(Thrown(MissingArgument))
    case 4 => if argv[2] == ConfigFlag then Success(ConfigFile(argv[3])) else Failure(Thrown(BadArgument))
    case _ => Failure(Thrown(BadArgument))
  }

  // ---------------------------------------------------------------------------
  // setupMeasurementSuppliers

  /** The entry names a sensor that exists and one of that sensor's value keys. */
  predicate KeyKnown(config: MeasurementSupplierConfig, sensors: seq<Sensor>)
  {
    var sensor := Sensors.FindById(sensors, config.sensorId);
    sensor.Success? && config.sensorKey in sensor.value.valueKeys
  }

  function UnknownKeyMessage(config: MeasurementSupplierConfig): string
  {
    "Measurement " + config.id + " wants unknown sensor-key " + config.sensorKey
  }

  /** The error an entry that is not `KeyKnown` raises. */
  function BindError(config: MeasurementSupplierConfig, sensors: seq<Sensor>): Error
  {
    var sensor := Sensors.FindById(sensors, config.sensorId);
    if sensor.Failure? then sensor.error else Thrown(UnknownKeyMessage(config))
  }

  /** The callback of the `.map`: look the sensor up, check the key, build the supplier. */
  function BindSupplier(config: MeasurementSupplierConfig, sensors: seq<Sensor>): (r: Result<MeasurementSupplier, Error>)
    ensures r.Success? <==> KeyKnown(config, sensors)
    ensures r.Success? ==>
              r.value == MeasurementSupplier(config.id, Sensors.FindById(sensors, config.sensorId).value, config.sensorKey)
    ensures r.Failure? ==> r.error == BindError(config, sensors)
  {
    match Sensors.FindById(sensors, config.sensorId)
    case Failure(e) => Failure(e)
    case Success(sensor) =>
      if config.sensorKey !in sensor.valueKeys then Failure(Thrown(UnknownKeyMessage(config)))
      else Success(MeasurementSupplier(config.id, sensor, config.sensorKey))
  }

  function SetupMeasurementSuppliers(measurementConfigs: seq<MeasurementSupplierConfig>, sensors: seq<Sensor>)
    : (r: Result<seq<MeasurementSupplier>, Error>)
    ensures r.Success? <==> forall i :: 0 <= i < |measurementConfigs| ==> KeyKnown(measurementConfigs[i], sensors)
    ensures r.Success? ==>
              |r.value| == |measurementConfigs| &&
              forall i :: 0 <= i < |measurementConfigs| ==>
                r.value[i].id == measurementConfigs[i].id &&
                r.value[i].sensorKey == measurementConfigs[i].sensorKey &&
                Sensors.FindById(sensors, measurementConfigs[i].sensorId) == Success(r.value[i].sensor) &&
                r.value[i].sensor in sensors &&
                r.value[i].sensorKey in r.value[i].sensor.valueKeys
    ensures r.Failure? ==>
              exists i :: 0 <= i < |measurementConfigs| && !KeyKnown(measurementConfigs[i], sensors) &&
                          (forall j :: 0 <= j < i ==> KeyKnown(measurementConfigs[j], sensors)) &&
                          r.error == BindError(measurementConfigs[i], sensors)
  {
    var bind := (config: MeasurementSupplierConfig) => BindSupplier(config, sensors);
    var r := MapAll(measurementConfigs, bind);
    if r.Failure? then
      assert forall i :: FirstFailure(measurementConfigs, bind, i) ==>
               forall j :: 0 <= j < i ==> KeyKnown(measurementConfigs[j], sensors);
      r
    else
      r
  }

  // ---------------------------------------------------------------------------
  // setupRecorders

  /** The entry names a supplier that exists and a mode the factory knows. */
  predicate Buildable(config: RecorderConfig, suppliers: seq<MeasurementSupplier>)
  {
    Measurements.FindById(suppliers, config.measurementId).Success? && RecorderFactory.KnownMode(config.mode)
  }

  /** The error an entry that is not `Buildable` raises. */
  function BuildError(config: RecorderConfig, suppliers: seq<MeasurementSupplier>): Error
  {
    var supplier := Measurements.FindById(suppliers, config.measurementId);
    if supplier.Failure? then supplier.error else Thrown("unknown recorder mode " + config.mode)
  }

  /** The callback of the `.map`: look the supplier up, then let the factory build the recorder. */
  function BuildRecorder(config: RecorderConfig, suppliers: seq<MeasurementSupplier>, measurementDb: MeasurementsDatabase)
    : (r: Result<Recorder, Error>)
    ensures r.Success? <==> Buildable(config, suppliers)
    ensures r.Success? ==>
              r.value.id == config.id &&
              r.value.measurementSupplier == Measurements.FindById(suppliers, config.measurementId).value &&
              r.value.database == measurementDb &&
              (r.value.Manual? <==> config.mode == RecorderFactory.ManualMode) &&
              (r.value.Periodic? ==> r.value.config == config.config)
    ensures r.Failure? ==> r.error == BuildError(config, suppliers)
  {
    match Measurements.FindById(suppliers, config.measurementId)
    case Failure(e) => Failure(e)
    case Success(supplier) => RecorderFactory.Create(config, supplier, measurementDb)
  }

  function SetupRecorders(recorderConfigs: seq<RecorderConfig>, suppliers: seq<MeasurementSupplier>,
                          measurementDb: MeasurementsDatabase): (r: Result<seq<Recorder>, Error>)
    ensures r.Success? <==> forall i :: 0 <= i < |recorderConfigs| ==> Buildable(recorderConfigs[i], suppliers)
    ensures r.Success? ==>
              |r.value| == |recorderConfigs| &&
              forall i :: 0 <= i < |recorderConfigs| ==>
                r.value[i].id == recorderConfigs[i].id &&
                Measurements.FindById(suppliers, recorderConfigs[i].measurementId) == Success(r.value[i].measurementSupplier) &&
                r.value[i].measurementSupplier in suppliers &&
                r.value[i].database == measurementDb &&
                (r.value[i].Manual? <==> recorderConfigs[i].mode == RecorderFactory.ManualMode) &&
                (r.value[i].Periodic? ==> r.value[i].config == recorderConfigs[i].config)
    ensures r.Failure? ==>
              exists i :: 0 <= i < |recorderConfigs| && !Buildable(recorderConfigs[i], suppliers) &&
                          (forall j :: 0 <= j < i ==> Buildable(recorderConfigs[j], suppliers)) &&
                          r.error == BuildError(recorderConfigs[i], suppliers)
  {
    var build := (config: RecorderConfig) => BuildRecorder(config, suppliers, measurementDb);
    var r := MapAll(recorderConfigs, build);
    if r.Failure? then
      assert forall i :: FirstFailure(recorderConfigs, build, i) ==>
               forall j :: 0 <= j < i ==> Buildable(recorderConfigs[j], suppliers);
      r
    else
      r
  }

  // ---------------------------------------------------------------------------
  // run

  /** The suppliers and recorders a successful start-up serves. */
  datatype Wiring = Wiring(suppliers: seq<MeasurementSupplier>, recorders: seq<Recorder>)

  /**
   * The wiring steps of `run`: suppliers, then recorders, then routes. A failing
   * step throws before any route is registered, so the server never runs half-wired.
   */
  method Wire(web: Web, measurementConfigs: seq<MeasurementSupplierConfig>, sensors: seq<Sensor>,
              recorderConfigs: seq<RecorderConfig>, database: MeasurementsDatabase)
    returns (r: Result<Wiring, Error>)
    modifies web
    ensures var suppliers := SetupMeasurementSuppliers(measurementConfigs, sensors);
            if suppliers.Failure? then r == Failure(suppliers.error)
            else
              var recorders := SetupRecorders(recorderConfigs, suppliers.value, database);
              if recorders.Failure? then r == Failure(recorders.error)
              else r == Success(Wiring(suppliers.value, recorders.value))
    ensures r.Failure? ==> web.routes == old(web.routes)
    ensures r.Success? ==> web.routes == old(web.routes) + ApiRoutes(r.value.suppliers, r.value.recorders)
  {
    var suppliers := SetupMeasurementSuppliers(measurementConfigs, sensors);
    if suppliers.Failure? {
      return Failure(suppliers.error);
    }
    var recorders := SetupRecorders(recorderConfigs, suppliers.value, database);
    if recorders.Failure? {
      return Failure(recorders.error);
    }
    SetupApiRoutes(web, suppliers.value, recorders.value);
    r := Success(Wiring(suppliers.value, recorders.value));
  }

  /** Sensor "temp1" reads "celsius", supplier "s1" binds it, recorder "r1" records "s1" manually. */
  lemma StartUpExample(database: MeasurementsDatabase)
    ensures var temp1 := Sensor("temp1", {"celsius"});
            var s1 := MeasurementSupplier("s1", temp1, "celsius");
            SetupMeasurementSuppliers([MeasurementSupplierConfig("s1", "temp1", "celsius")], [temp1]) == Success([s1])
            && SetupRecorders([RecorderConfig("r1", "s1", "manual", RecorderModeConfig(map[]))], [s1], database)
               == Success([Manual("r1", s1, database)])
  {
    var temp1 := Sensor("temp1", {"celsius"});
    var s1 := MeasurementSupplier("s1", temp1, "celsius");
    assert Sensors.FindById([temp1], "temp1") == Success(temp1);
    assert Measurements.FindById([s1], "s1") == Success(s1);

    var good := MeasurementSupplierConfig("s1", "temp1", "celsius");
    assert KeyKnown(good, [temp1]);
    var ok := SetupMeasurementSuppliers([good], [temp1]);
    assert ok.value == [ok.value[0]] && ok.value[0] == s1;

    var manual := RecorderConfig("r1", "s1", "manual", RecorderModeConfig(map[]));
    assert Buildable(manual, [s1]);
    var recorders := SetupRecorders([manual], [s1], database);
    assert recorders.value == [recorders.value[0]] && recorders.value[0] == Manual("r1", s1, database);
  }

  /** A supplier asking sensor "temp1" for a key it does not read stops the start-up with the source's message. */
  lemma UnknownKeyExample()
    ensures var temp1 := Sensor("temp1", {"celsius"});
            SetupMeasurementSuppliers([MeasurementSupplierConfig("s1", "temp1", "fahrenheit")], [temp1])
            == Failure(Thrown("Measurement s1 wants unknown sensor-key fahrenheit"))
  {
    var temp1 := Sensor("temp1", {"celsius"});
    assert Sensors.FindById([temp1], "temp1") == Success(temp1);
    var bad := MeasurementSupplierConfig("s1", "temp1", "fahrenheit");
    assert !KeyKnown(bad, [temp1]);
    assert UnknownKeyMessage(bad) == "Measurement s1 wants unknown sensor-key fahrenheit" by {
      assert "Measurement " + "s1" == "Measurement s1";
      assert "Measurement s1" + " wants unknown sensor-key " == "Measurement s1 wants unknown sensor-key ";
    }
    var failed := SetupMeasurementSuppliers([bad], [temp1]);
    assert failed.Failure? && failed.error == BindError(bad, [temp1]);
  }

  /** A recorder entry in mode "hourly" stops the start-up with the factory's message. */
  lemma UnknownModeExample(database: MeasurementsDatabase)
    ensures var s1 := MeasurementSupplier("s1", Sensor("temp1", {"celsius"}), "celsius");
            SetupRecorders([RecorderConfig("r1", "s1", "hourly", RecorderModeConfig(map[]))], [s1], database)
            == Failure(Thrown("unknown recorder mode hourly"))
  {
    var s1 := MeasurementSupplier("s1", Sensor("temp1", {"celsius"}), "celsius");
    assert Measurements.FindById([s1], "s1") == Success(s1);
    var hourly := RecorderConfig("r1", "s1", "hourly", RecorderModeConfig(map[]));
    assert !Buildable(hourly, [s1]);
    assert "unknown recorder mode " + hourly.mode == "unknown recorder mode hourly";
    var refused := SetupRecorders([hourly], [s1], database);
    assert refused.Failure? && refused.error == BuildError(hourly, [s1]);
  }
}
