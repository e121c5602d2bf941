/**
 * The HTTP facade, reduced to its route table: `recordGetRoute` and
 * `recordPostRoute` each add one route. Listening and serving are not modelled.
 */
module WebServer {
  import opened Measurements
  import opened Recorders

  datatype Verb = Get | Post

  /** Which handler a route is bound to, and the entity behind it. */
  datatype Handler =
    | VersionInfo(version: string)
    | CurrentMeasurement(supplier: MeasurementSupplier)
    | LatestMeasurements(recorder: Recorder)
    | RecordOne(recorder: Recorder)
    | StartRecording(recorder: Recorder)
    | StopRecording(recorder: Recorder)

  datatype Route = Route(verb: Verb, path: string, handler: Handler)

  class Web {
    /** The routes registered so far, in registration order. */
    var routes: seq<Route>

    constructor ()
      ensures routes == []
    {
      routes := [];
    }

    method RecordGetRoute(path: string, handler: Handler)
      modifies this
      ensures routes == old(routes) + [Route(Get, path, handler)]
    {
      routes := routes + [Route(Get, path, handler)];
    }

    method RecordPostRoute(path: string, handler: Handler)
      modifies this
      ensures routes == old(routes) + [Route(Post, path, handler)]
    {
      routes := routes + [Route(Post, path, handler)];
    }
  }
}
