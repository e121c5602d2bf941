# Measurement API wiring and manual recording, in Dafny

This project models the start-up wiring and the on-demand recording of the
measurements API (`packages/api`). At start-up `run` picks a configuration
from the command line, binds every measurement supplier to a value key of a
sensor, binds every recorder to a supplier and the shared measurements
database, and registers the HTTP routes. A manual recorder then records one
measurement per request: it reads its supplier and appends the reading to the
database.

Modules, one per component:

- `Wrappers`, `Errors`: the `Result` type and the errors the wiring raises. A
  `throw new Error(msg)` becomes `Failure(Thrown(msg))` with the same text.
- `Config`: the parsed supplier and recorder entries.
- `Sensors`, `Measurements`: a sensor is its id and its set of value keys. A
  supplier is `(id, sensor, sensorKey)`. Both have a `FindById` over the
  collection.
- `Mapping.MapAll`: JavaScript's `Array.map` with a callback that may throw. The
  results come back in input order, or the exception of the first element whose
  callback throws escapes.
  Both setup functions are this map.
- `Database.MeasurementsDatabase`: a class whose `log` sequence only grows.
- `Recorders.Recorder`: the abstract `Recorder` class with its two subclasses. It
  is a datatype `Manual(id, measurementSupplier, database) | Periodic(id,
  measurementSupplier, database, config)`. There is no base-only variant,
  because the base class is abstract and its constructor is protected. The
  three shared fields are immutable, as the `readonly` fields are. `Manual(...)`
  is the `ManualRecorder` constructor, which passes its three arguments to the
  base class unchanged (`recorders/Recorder.ts:4-14`,
  `recorders/ManualRecorder.ts:7-9`).
- `RecorderFactory.Create`: the dispatch on `mode`.
- `ManualRecorder.RecordOneMeasurement`: get, then append, then return.
- `WebServer.Web`: the route table. Each `recordGetRoute` or `recordPostRoute`
  call appends one `(verb, path, handler)` route.
- `Routes`: `setupApiRoutes` as a method with one loop over the suppliers and
  one over the recorders. `ApiRoutes` is the route list it must produce, and
  lemmas state what is in that list.
- `Run`: `processArgv`, `setupMeasurementSuppliers`, `setupRecorders`, and the
  wiring part of `run`.

Notes on how the code behaves:

- Every configuration error is a plain `Error` carrying the messages modelled
  here. A failed supplier read reaches the caller of `recordOneMeasurement`
  unchanged.
- Every recorder gets its "latest" route through one path pattern,
  `/api/recorder/<id>/measurements/latest(?:/:count([0-9]+))?`. The model keeps
  that pattern literally as one route, not two.

## Model

| member | source | states |
|---|---|---|
| `Run.ProcessArgv` | packages/api/src/Run.ts:104-117 | Two arguments give the default configuration. Three fail with "Missing argument: ./path/to/config.json". Four load from file `argv[3]` exactly when `argv[2]` is `--config`. Every other case fails with "Bad argument". Each case is stated in both directions. |
| `Mapping.MapAll` | packages/api/src/Run.ts:51-57 | A map with a throwing callback succeeds iff the callback succeeds on every element. The results keep input order and length. On failure, the error is the one from the first failing element, and every earlier element succeeded. |
| `Run.BindSupplier` | packages/api/src/Run.ts:52-56 | Binding one supplier entry succeeds iff its sensor is found and has `sensor-key`. It then returns the supplier with the entry's id, the sensor found and the key. Otherwise the error is not-found or "Measurement <id> wants unknown sensor-key <key>". |
| `Run.SetupMeasurementSuppliers` | packages/api/src/Run.ts:50-58 | It succeeds iff every entry's sensor exists and has the entry's key. Then there is one supplier per entry, in entry order. Each carries the entry's id and key and the sensor `findById` returns, and that sensor has the key. On failure, the error is that of the first bad entry. |
| `Sensors.FindById` | packages/api/src/Run.ts:52 | A sensor is returned only if it is in the collection and has the id. A not-found error comes only when no sensor has the id. |
| `Run.BuildRecorder` | packages/api/src/Run.ts:61-63 | Building one recorder succeeds iff its `measurement-id` names a supplier and its mode is known. The recorder then has the entry's id, the supplier found and the shared database. It is Manual iff the mode is "manual", and a Periodic one carries the entry's `config`. Otherwise the error is the lookup's or the factory's. |
| `Run.SetupRecorders` | packages/api/src/Run.ts:60-65 | It succeeds iff every entry names an existing supplier and a known mode. Then there is one recorder per entry, in entry order. Each has the entry's id, is bound to the supplier `findById` returns for `measurement-id`, and uses the shared database. It is Manual exactly for mode "manual", and a Periodic one carries the entry's `config`. On failure, the error is that of the first bad entry. |
| `Measurements.FindById` | packages/api/src/Run.ts:62 | A supplier is returned only if it is in the collection and has the id. A not-found error comes only when no supplier has the id. |
| `RecorderFactory.Create` | packages/api/src/recorders/RecorderFactory.ts:9-23 | It succeeds exactly for modes "manual" and "periodic", and there is no third outcome. The recorder has the entry's id, the given supplier and the given database. It is Manual iff the mode is "manual", and a Periodic one carries the entry's `config`. Any other mode fails with "unknown recorder mode <mode>". |
| `ManualRecorder.RecordOneMeasurement` | packages/api/src/recorders/ManualRecorder.ts:11-17 | The result is the outcome of the single `get()`. On success, the log gains exactly that measurement at its end. On failure, the log is unchanged and the failure propagates. Nothing else is modified. |
| `Database.MeasurementsDatabase.Record` | packages/api/src/recorders/ManualRecorder.ts:14 | `record` appends the measurement at the end of the log and keeps everything before it. |
| `WebServer.Web.RecordGetRoute` | packages/api/src/Run.ts:74 | Registering a GET route appends exactly that route to the table. |
| `WebServer.Web.RecordPostRoute` | packages/api/src/Run.ts:87-89 | Registering a POST route appends exactly that route to the table. |
| `Routes.SetupApiRoutes` | packages/api/src/Run.ts:67-102 | The table grows by exactly `ApiRoutes(suppliers, recorders)`, in this order: the version route, one current route per supplier, then each recorder's routes. |
| `Routes.ApiRoutesCount` | packages/api/src/Run.ts:73-101 | It registers 1 + #suppliers + #recorders + #manual + 2·#periodic routes. |
| `Routes.VersionRouteUnique` | packages/api/src/Run.ts:73-74 | The first route is GET `/api/version` with version "0.0.1", and no other route uses that path. |
| `Routes.CurrentRouteRegistered` | packages/api/src/Run.ts:76-79 | GET `/api/measurement/<id>/current` for a supplier is registered iff the supplier is in the collection. |
| `Routes.RecorderRouteRegistered` | packages/api/src/Run.ts:81-101 | A route handled by a recorder is registered iff some listed recorder contributes it. |
| `Routes.RecorderRoutesRegistered` | packages/api/src/Run.ts:81-101 | A recorder's "latest" GET is registered iff the recorder is listed. Its `recordOneMeasurement` POST is registered iff it is listed and Manual. Its `startRecording` and `stopRecording` POSTs are registered iff it is listed and Periodic. |
| `Routes.ApiRoutesAccounted` | packages/api/src/Run.ts:67-102 | Every registered route is the version route, the current route of a listed supplier, or a route of a listed recorder. |
| `Routes.InRecorderRoutes` | packages/api/src/Run.ts:81-101 | The recorder loop registers a route iff some recorder's own routes contain it. |
| `Run.Wire` | packages/api/src/Run.ts:31-39 | Suppliers are set up, then recorders, then routes. If either setup fails, its error is returned and no route is registered. Otherwise the table grows by exactly `ApiRoutes` of the suppliers and recorders built. |
| `Run.StartUpExample` | packages/api/src/Run.ts:50-65 | Sensor "temp1" with key "celsius", supplier "s1" and manual recorder "r1" wire to exactly that supplier and that recorder. |
| `Run.UnknownKeyExample` | packages/api/src/Run.ts:53-54 | Asking "temp1" for "fahrenheit" fails with "Measurement s1 wants unknown sensor-key fahrenheit". |
| `Run.UnknownModeExample` | packages/api/src/recorders/RecorderFactory.ts:21 | A recorder in mode "hourly" fails with "unknown recorder mode hourly". |

## Left out

- Reading and parsing the configuration file (`fs.readFileSync`, `JSON.parse`) and the default configuration's contents: `ProcessArgv` only says which source to load.
- `Logger.create`, the database's own configuration, `new Web(port)`, `web.startOn()`, the `'Ready!'` log line and `run`'s return value 0. These are I/O and server start-up. The web server is only its route table.
- `setUpSensors` and `SensorFactory`: sensor construction is not part of this model. `Run.Wire` takes the sensors already built.
- `SensorCollection.findById` and `MeasurementSupplierCollection.findById`: their implementations are not shown. `FindById` assumes the first element with the id is returned, and that a miss raises a not-found error whose message is not modelled.
- `MeasurementSupplierCollection` and `RecorderCollection` are sequences, iterated in configuration order.
- The handler adapters (`SupplierHandler`, `PromiseSupplierHandler`, `RecorderLatestMeasurementsHandler`, `RunnableHandler`) and Express's path matching. A route records which handler kind serves it and for which supplier or recorder, and the path is a plain string.
- `PeriodicRecorder` (timer, start and stop, overlap policy) and `PeriodicRecorderFactory`: their sources are not shown. A periodic recorder is only the `Periodic(id, supplier, database, config)` the factory is given. `PeriodicRecorderFactory.create` is assumed never to throw and to keep `recordingConfig.id`. `RecorderFactory.Create` succeeding for mode "periodic" rests on that assumption.
- `MeasurementsDatabase` retrieval of the latest N measurements, its ordering and concurrent access. The database is only its append-only log.
- Measurement timestamps and value types. A measurement is a supplier id and a text value.
- Promises. Asynchronous results are synchronous `Result`s, and the outcome of the supplier's `get()` is a parameter of `RecordOneMeasurement`.
- The UI `Footer` component: presentation, with no wiring logic.
