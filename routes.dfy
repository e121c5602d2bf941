/**
 * `setupApiRoutes`: the version route, one route per supplier, and per recorder
 * a "latest" route plus the routes its kind supports.
 */
module Routes {
  import opened Measurements
  import opened Recorders
  import opened WebServer

  const ApiVersion := "0.0.1"
  const VersionPath := "/api/version"

  function CurrentPath(supplierId: string): string
  {
    "/api/measurement/" + supplierId + "/current"
  }

  function RecorderPath(recorderId: string, action: string): string
  {
    "/api/recorder/" + recorderId + "/" + action
  }

  const LatestAction := "measurements/latest(?:/:count([0-9]+))?"
  const RecordOneAction := "recordOneMeasurement"
  const StartAction := "startRecording"
  const StopAction := "stopRecording"

  function VersionRoute(): Route
  {
    Route(Get, VersionPath, VersionInfo(ApiVersion))
  }

  function CurrentRoute(supplier: MeasurementSupplier): Route
  {
    Route(Get, CurrentPath(supplier.id), CurrentMeasurement(supplier))
  }

  function LatestRoute(recorder: Recorder): Route
  {
    Route(Get, RecorderPath(recorder.id, LatestAction), LatestMeasurements(recorder))
  }

  function RecordOneRoute(recorder: Recorder): Route
  {
    Route(Post, RecorderPath(recorder.id, RecordOneAction), RecordOne(recorder))
  }

  function StartRoute(recorder: Recorder): Route
  {
    Route(Post, RecorderPath(recorder.id, StartAction), StartRecording(recorder))
  }

  function StopRoute(recorder: Recorder): Route
  {
    Route(Post, RecorderPath(recorder.id, StopAction), StopRecording(recorder))
  }

  /** The routes one recorder contributes, in registration order. */
  function RoutesOf(recorder: Recorder): seq<Route>
  {
    [LatestRoute(recorder)]
    + (if recorder.Manual? then [RecordOneRoute(recorder)] else [])
    + (if recorder.Periodic? then [StartRoute(recorder), StopRoute(recorder)] else [])
  }

  function SupplierRoutes(suppliers: seq<MeasurementSupplier>): seq<Route>
  {
    seq(|suppliers|, i requires 0 <= i < |suppliers| => CurrentRoute(suppliers[i]))
  }

  function RecorderRoutes(recorders: seq<Recorder>): seq<Route>
  {
    if recorders == [] then []
    else RecorderRoutes(recorders[..|recorders| - 1]) + RoutesOf(recorders[|recorders| - 1])
  }

  /** Everything `setupApiRoutes` registers, in order. */
  function ApiRoutes(suppliers: seq<MeasurementSupplier>, recorders: seq<Recorder>): seq<Route>
  {
    [VersionRoute()] + SupplierRoutes(suppliers) + RecorderRoutes(recorders)
  }

  method SetupApiRoutes(web: Web, suppliers: seq<MeasurementSupplier>, recorders: seq<Recorder>)
    modifies web
    ensures web.routes == old(web.routes) + ApiRoutes(suppliers, recorders)
  {
    web.RecordGetRoute(VersionPath, VersionInfo(ApiVersion));

    var i := 0;
    while i < |suppliers|
      invariant 0 <= i <= |suppliers|
      invariant web.routes == old(web.routes) + [VersionRoute()] + SupplierRoutes(suppliers[..i])
    {
      var supplier := suppliers[i];
      web.RecordGetRoute(CurrentPath(supplier.id), CurrentMeasurement(supplier));
      i := i + 1;
    }
    assert suppliers[..i] == suppliers;

    var j := 0;
    while j < |recorders|
      invariant 0 <= j <= |recorders|
      invariant web.routes == old(web.routes) + [VersionRoute()] + SupplierRoutes(suppliers)
                              + RecorderRoutes(recorders[..j])
    {
      var recorder := recorders[j];
      web.RecordGetRoute(RecorderPath(recorder.id, LatestAction), LatestMeasurements(recorder));
      if recorder.Manual? {
        web.RecordPostRoute(RecorderPath(recorder.id, RecordOneAction), RecordOne(recorder));
      }
      if recorder.Periodic? {
        web.RecordPostRoute(RecorderPath(recorder.id, StartAction), StartRecording(recorder));
        web.RecordPostRoute(RecorderPath(recorder.id, StopAction), StopRecording(recorder));
      }
      assert recorders[..j + 1][..j] == recorders[..j];
      j := j + 1;
    }
    assert recorders[..j] == recorders;
  }

  function CountManual(recorders: seq<Recorder>): nat
  {
    if recorders == [] then 0
    else CountManual(recorders[..|recorders| - 1]) + (if recorders[|recorders| - 1].Manual? then 1 else 0)
  }

  function CountPeriodic(recorders: seq<Recorder>): nat
  {
    if recorders == [] then 0
    else CountPeriodic(recorders[..|recorders| - 1]) + (if recorders[|recorders| - 1].Periodic? then 1 else 0)
  }

  /** One version route, one per supplier, one per recorder, one more per manual and two more per periodic recorder. */
  lemma {:induction false} ApiRoutesCount(suppliers: seq<MeasurementSupplier>, recorders: seq<Recorder>)
    ensures |ApiRoutes(suppliers, recorders)|
            == 1 + |suppliers| + |recorders| + CountManual(recorders) + 2 * CountPeriodic(recorders)
  {
    RecorderRoutesCount(recorders);
  }

  lemma {:induction false} RecorderRoutesCount(recorders: seq<Recorder>)
    ensures |RecorderRoutes(recorders)| == |recorders| + CountManual(recorders) + 2 * CountPeriodic(recorders)
  {
    if recorders != [] {
      RecorderRoutesCount(recorders[..|recorders| - 1]);
    }
  }

  /** A route is registered for the recorders exactly when one of them contributes it. */
  lemma {:induction false} InRecorderRoutes(recorders: seq<Recorder>, route: Route)
    ensures route in RecorderRoutes(recorders) <==> exists r :: r in recorders && route in RoutesOf(r)
  {
    if recorders != [] {
      var init, last := recorders[..|recorders| - 1], recorders[|recorders| - 1];
      assert recorders == init + [last];
      InRecorderRoutes(init, route);
      if route in RoutesOf(last) {
        assert last in recorders;
      } else if exists r :: r in recorders && route in RoutesOf(r) {
        var r :| r in recorders && route in RoutesOf(r);
        assert r in init;
      }
    }
  }

  /** Every registered route is the version route, a supplier's current route, or a route of one recorder. */
  lemma ApiRoutesAccounted(suppliers: seq<MeasurementSupplier>, recorders: seq<Recorder>, route: Route)
    requires route in ApiRoutes(suppliers, recorders)
    ensures route == VersionRoute()
            || (exists s :: s in suppliers && route == CurrentRoute(s))
            || (exists r :: r in recorders && route in RoutesOf(r))
  {
    if route in SupplierRoutes(suppliers) {
      var i :| 0 <= i < |suppliers| && SupplierRoutes(suppliers)[i] == route;
      assert route == CurrentRoute(suppliers[i]);
    } else if route != VersionRoute() {
      InRecorderRoutes(recorders, route);
    }
  }

  /** Apart from the version route, a registered route is a supplier's or a recorder's. */
  lemma InApiRoutes(suppliers: seq<MeasurementSupplier>, recorders: seq<Recorder>, route: Route)
    requires route != VersionRoute()
    ensures route in ApiRoutes(suppliers, recorders)
            <==> route in SupplierRoutes(suppliers) || route in RecorderRoutes(recorders)
  {
  }

  lemma SupplierRoutesAreCurrent(suppliers: seq<MeasurementSupplier>, route: Route)
    requires route in SupplierRoutes(suppliers)
    ensures route.handler.CurrentMeasurement? && route == CurrentRoute(route.handler.supplier)
  {
    var i :| 0 <= i < |suppliers| && SupplierRoutes(suppliers)[i] == route;
  }

  lemma RecorderPathsStartWithRecorder(recorder: Recorder, route: Route)
    requires route in RoutesOf(recorder)
    ensures exists action :: route.path == RecorderPath(recorder.id, action)
  {
  }

  lemma VersionPathDiffers(id: string, action: string)
    ensures CurrentPath(id) != VersionPath && RecorderPath(id, action) != VersionPath
  {
    assert CurrentPath(id)[5] == 'm' && VersionPath[5] == 'v';
    assert RecorderPath(id, action)[5] == 'r';
  }

  /** The version route comes first and no other route is registered at its path. */
  lemma VersionRouteUnique(suppliers: seq<MeasurementSupplier>, recorders: seq<Recorder>)
    ensures ApiRoutes(suppliers, recorders)[0] == Route(Get, VersionPath, VersionInfo(ApiVersion))
    ensures forall k :: 0 < k < |ApiRoutes(suppliers, recorders)| ==> ApiRoutes(suppliers, recorders)[k].path != VersionPath
  {
    var routes := ApiRoutes(suppliers, recorders);
    forall k | 0 < k < |routes|
      ensures routes[k].path != VersionPath
    {
      var route := routes[k];
      assert route in SupplierRoutes(suppliers) + RecorderRoutes(recorders) by {
        assert route == (SupplierRoutes(suppliers) + RecorderRoutes(recorders))[k - 1];
      }
      if route in SupplierRoutes(suppliers) {
        SupplierRoutesAreCurrent(suppliers, route);
        VersionPathDiffers(route.handler.supplier.id, "");
      } else {
        InRecorderRoutes(recorders, route);
        var r :| r in recorders && route in RoutesOf(r);
        RecorderPathsStartWithRecorder(r, route);
        var action :| route.path == RecorderPath(r.id, action);
        VersionPathDiffers(r.id, action);
      }
    }
  }

  /** Each supplier has its current-measurement route, and only the suppliers do. */
  lemma CurrentRouteRegistered(suppliers: seq<MeasurementSupplier>, recorders: seq<Recorder>, supplier: MeasurementSupplier)
    ensures CurrentRoute(supplier) in ApiRoutes(suppliers, recorders) <==> supplier in suppliers
  {
    var route := CurrentRoute(supplier);
    InApiRoutes(suppliers, recorders, route);
    if supplier in suppliers {
      var i :| 0 <= i < |suppliers| && suppliers[i] == supplier;
      assert SupplierRoutes(suppliers)[i] == route;
    }
    InRecorderRoutes(recorders, route);
  }

  /** A recorder-handled route is registered exactly when some listed recorder contributes it. */
  lemma RecorderRouteRegistered(suppliers: seq<MeasurementSupplier>, recorders: seq<Recorder>, route: Route)
    requires route.handler.LatestMeasurements? || route.handler.RecordOne?
             || route.handler.StartRecording? || route.handler.StopRecording?
    ensures route in ApiRoutes(suppliers, recorders) <==> exists r :: r in recorders && route in RoutesOf(r)
  {
    InApiRoutes(suppliers, recorders, route);
    if route in SupplierRoutes(suppliers) {
      SupplierRoutesAreCurrent(suppliers, route);
    }
    InRecorderRoutes(recorders, route);
  }

  /**
   * The routes of a recorder: "latest" for every listed recorder, the trigger route
   * exactly for the listed manual ones, start and stop exactly for the listed periodic ones.
   */
  lemma RecorderRoutesRegistered(suppliers: seq<MeasurementSupplier>, recorders: seq<Recorder>, recorder: Recorder)
    ensures LatestRoute(recorder) in ApiRoutes(suppliers, recorders) <==> recorder in recorders
    ensures RecordOneRoute(recorder) in ApiRoutes(suppliers, recorders) <==> recorder in recorders && recorder.Manual?
    ensures StartRoute(recorder) in ApiRoutes(suppliers, recorders) <==> recorder in recorders && recorder.Periodic?
    ensures StopRoute(recorder) in ApiRoutes(suppliers, recorders) <==> recorder in recorders && recorder.Periodic?
  {
    RecorderRouteRegistered(suppliers, recorders, LatestRoute(recorder));
    RecorderRouteRegistered(suppliers, recorders, RecordOneRoute(recorder));
    RecorderRouteRegistered(suppliers, recorders, StartRoute(recorder));
    RecorderRouteRegistered(suppliers, recorders, StopRoute(recorder));
    assert LatestRoute(recorder) in RoutesOf(recorder);
    assert recorder.Manual? ==> RecordOneRoute(recorder) in RoutesOf(recorder);
    assert recorder.Periodic? ==> StartRoute(recorder) in RoutesOf(recorder) && StopRoute(recorder) in RoutesOf(recorder);
  }
}
