/** The navigation plugin of the 2D world map: the start, waypoint and
    destination slots that map clicks and marker clicks fill, the route built
    from them, the rows a saved route consists of, the menu that re-binds the
    map's click handlers, and the "route from data" sequencer. */
module Navigation {
  import opened Values
  import Features
  import opened Worldmap2d

  /** A navigation point `{lat, lng}`; a fresh waypoint is `{lat: null, lng: null}`. */
  datatype Point = Point(lat: Value, lng: Value)

  /** The values of `activeInputType`. */
  datatype InputType = StartInput | DestinationInput | WaypointInput

  /** The navigation form: `navigationobj`'s start, waypoints and destination
      (`null` is None), and which input the next map click fills. */
  datatype Form = Form(
    start: Option<Point>,
    waypoints: seq<Point>,
    destination: Option<Point>,
    inputType: Option<InputType>,
    waypointIndex: Option<nat>)

  /** A waypoint index is set exactly while a waypoint input has the focus,
      and it names an existing waypoint. */
  predicate FocusValid(f: Form) {
    && (f.waypointIndex.Some? <==> f.inputType == Some(WaypointInput))
    && (f.waypointIndex.Some? ==> f.waypointIndex.value < |f.waypoints|)
  }

  /** The test `wp.lat !== null && wp.lng !== null`: strict, so an
      `undefined` coordinate passes it. */
  predicate Complete(p: Point) {
    !p.lat.Null? && !p.lng.Null?
  }

  /** The waypoints a route goes through: the complete ones, in order. */
  function CompleteWaypoints(ws: seq<Point>): (r: seq<Point>)
    ensures |r| <= |ws|
    ensures forall p :: p in r ==> Complete(p) && p in ws
  {
    if ws == [] then []
    else (if Complete(ws[0]) then [ws[0]] else []) + CompleteWaypoints(ws[1..])
  }

  /** Filtering commutes with concatenation, so the filter keeps the order of
      the waypoints it keeps. */
  lemma {:induction false} CompleteConcat(a: seq<Point>, b: seq<Point>)
    ensures CompleteWaypoints(a + b) == CompleteWaypoints(a) + CompleteWaypoints(b)
    decreases |a|
  {
    if a != [] {
      assert (a + b)[0] == a[0];
      assert (a + b)[1..] == a[1..] + b;
      CompleteConcat(a[1..], b);
    } else {
      assert a + b == b;
    }
  }

  /** Every complete waypoint is kept; when all are complete, all are kept. */
  lemma {:induction false} CompleteKeepsComplete(ws: seq<Point>)
    ensures forall i :: 0 <= i < |ws| && Complete(ws[i]) ==> ws[i] in CompleteWaypoints(ws)
    ensures (forall i :: 0 <= i < |ws| ==> Complete(ws[i])) ==> CompleteWaypoints(ws) == ws
    ensures (forall i :: 0 <= i < |ws| ==> !Complete(ws[i])) ==> CompleteWaypoints(ws) == []
    decreases |ws|
  {
    if ws != [] {
      CompleteKeepsComplete(ws[1..]);
      assert forall i :: 1 <= i < |ws| ==> ws[i] == ws[1..][i - 1];
      assert ws == [ws[0]] + ws[1..];
    }
  }

  /** The loop both `startNavigation` and `buildRoutingWaypoints` run over the
      waypoints: keep each complete one. */
  method CompletePoints(ws: seq<Point>) returns (kept: seq<Point>)
    ensures kept == CompleteWaypoints(ws)
  {
    kept := [];
    var i := 0;
    while i < |ws|
      invariant 0 <= i <= |ws|
      invariant kept == CompleteWaypoints(ws[..i])
    {
      CompleteConcat(ws[..i], [ws[i]]);
      assert ws[..i + 1] == ws[..i] + [ws[i]];
      if Complete(ws[i]) {
        kept := kept + [ws[i]];
      }
      i := i + 1;
    }
    assert ws[..i] == ws;
  }

  /** The points of a route: the start if set, the complete waypoints, the
      destination if set. */
  function RoutePoints(start: Option<Point>, ws: seq<Point>, destination: Option<Point>): (r: seq<Point>)
    ensures |r| == (if start.Some? then 1 else 0) + |CompleteWaypoints(ws)| + (if destination.Some? then 1 else 0)
    ensures forall p :: p in r ==> Some(p) == start || Some(p) == destination || (Complete(p) && p in ws)
  {
    (if start.Some? then [start.value] else []) + CompleteWaypoints(ws)
    + (if destination.Some? then [destination.value] else [])
  }

  /** A route between a set start and destination has at least two points,
      starts at the start, ends at the destination, and passes exactly the
      complete waypoints in between. */
  lemma RouteEnds(start: Point, ws: seq<Point>, destination: Point)
    ensures var r := RoutePoints(Some(start), ws, Some(destination));
      && |r| == |CompleteWaypoints(ws)| + 2
      && r[0] == start && r[|r| - 1] == destination
      && r[1..|r| - 1] == CompleteWaypoints(ws)
  {
    var r := RoutePoints(Some(start), ws, Some(destination));
    assert r == [start] + CompleteWaypoints(ws) + [destination];
  }

  /** Without a start or a destination the route is just the complete
      waypoints plus whichever end is set. */
  lemma RouteWithoutEnds(ws: seq<Point>, start: Point, destination: Point)
    ensures RoutePoints(None, ws, None) == CompleteWaypoints(ws)
    ensures RoutePoints(Some(start), ws, None) == [start] + CompleteWaypoints(ws)
    ensures RoutePoints(None, ws, Some(destination)) == CompleteWaypoints(ws) + [destination]
    ensures (forall i :: 0 <= i < |ws| ==> !Complete(ws[i])) ==> RoutePoints(None, ws, None) == []
  {
    var kept := CompleteWaypoints(ws);
    assert RoutePoints(None, ws, None) == [] + kept + [] == kept;
    assert RoutePoints(Some(start), ws, None) == [start] + kept + [] == [start] + kept;
    assert RoutePoints(None, ws, Some(destination)) == [] + kept + [destination] == kept + [destination];
    CompleteKeepsComplete(ws);
  }

  // Saved routes

  /** The `description` column of a saved row. */
  datatype Description = Startpunkt | Zielpunkt | Zwischenstopp(index: nat)

  /** One saved row: `route_id`, `step`, and the point of `pos`, whose text
      `POINT(lng lat)` takes the longitude first. */
  datatype Row = Row(routeId: string, step: nat, lng: Value, lat: Value, description: Description)

  /** The description of the row at `index` among `count`: the first row is
      the start, otherwise the last is the destination. */
  function Describe(index: nat, count: nat): (d: Description)
    ensures index == 0 <==> d == Startpunkt
    ensures d == Zielpunkt <==> 0 < index && index + 1 == count
    ensures d.Zwischenstopp? ==> d.index == index
  {
    if index == 0 then Startpunkt
    else if index == count - 1 then Zielpunkt
    else Zwischenstopp(index)
  }

  /** `points.map((p, index) => ...)` */
  function RouteRows(routeId: string, points: seq<Point>): (rows: seq<Row>)
    ensures |rows| == |points|
  {
    seq(|points|, i requires 0 <= i < |points| =>
      Row(routeId, i, points[i].lng, points[i].lat, Describe(i, |points|)))
  }

  /** A saved route numbers its rows 0..n-1: the start as `Startpunkt`, each
      complete waypoint k (from 1) as `Zwischenstopp k`, the destination as
      `Zielpunkt`; incomplete waypoints get no row. */
  lemma SavedRows(routeId: string, start: Point, ws: seq<Point>, destination: Point)
    ensures var rows := RouteRows(routeId, RoutePoints(Some(start), ws, Some(destination)));
      var kept := CompleteWaypoints(ws);
      && |rows| == |kept| + 2
      && (forall i :: 0 <= i < |rows| ==> rows[i].step == i && rows[i].routeId == routeId)
      && rows[0] == Row(routeId, 0, start.lng, start.lat, Startpunkt)
      && rows[|rows| - 1] == Row(routeId, |rows| - 1, destination.lng, destination.lat, Zielpunkt)
      && (forall k :: 0 <= k < |kept| ==>
            rows[k + 1] == Row(routeId, k + 1, kept[k].lng, kept[k].lat, Zwischenstopp(k + 1)))
  {
    RouteEnds(start, ws, destination);
    var points := RoutePoints(Some(start), ws, Some(destination));
    var kept := CompleteWaypoints(ws);
    assert forall k :: 0 <= k < |kept| ==> points[k + 1] == kept[k] by {
      assert points == [start] + kept + [destination];
    }
  }

  /** What `saveRoute` does: nothing when saving is not enabled, a TypeError
      when the start or destination is `null` (its `pos` is read), otherwise
      the data capsule handed to the model. */
  datatype SaveOutcome = NotSaved | Threw(fault: Fault) | Saved(fromName: Value, rows: seq<Row>)

  // The form's transitions

  /** The navigation map click at `p`: fills the focused slot and clears the
      focus. A waypoint is filled only when the index names one; otherwise, and
      when no input is focused, nothing changes. */
  function Clicked(f: Form, p: Point): (r: Form)
    ensures FocusValid(f) ==> FocusValid(r)
  {
    if f.inputType == Some(StartInput) then
      f.(start := Some(p), inputType := None, waypointIndex := None)
    else if f.inputType == Some(WaypointInput) && f.waypointIndex.Some?
            && f.waypointIndex.value < |f.waypoints| then
      f.(waypoints := f.waypoints[f.waypointIndex.value := p], inputType := None, waypointIndex := None)
    else if f.inputType == Some(DestinationInput) then
      f.(destination := Some(p), inputType := None, waypointIndex := None)
    else f
  }

  /** With a consistent focus, a click fills exactly the focused slot and
      leaves no input focused; without a focus it changes nothing. */
  lemma ClickFillsFocused(f: Form, p: Point)
    requires FocusValid(f)
    ensures f.inputType.None? ==> Clicked(f, p) == f
    ensures Clicked(f, p).inputType.None? && Clicked(f, p).waypointIndex.None?
    ensures Clicked(f, p).start == if f.inputType == Some(StartInput) then Some(p) else f.start
    ensures Clicked(f, p).destination == if f.inputType == Some(DestinationInput) then Some(p) else f.destination
    ensures |Clicked(f, p).waypoints| == |f.waypoints|
    ensures forall k :: 0 <= k < |f.waypoints| ==>
              Clicked(f, p).waypoints[k] == if f.waypointIndex == Some(k) then p else f.waypoints[k]
  {
    if f.inputType == Some(WaypointInput) {
      assert f.waypointIndex.Some? && f.waypointIndex.value < |f.waypoints|;
    } else if f.inputType.Some? {
      assert f.inputType.value.StartInput? || f.inputType.value.DestinationInput?;
    }
  }

  /** The source's own guard: a waypoint index past the waypoints (or no
      index) makes a click with waypoint focus do nothing. */
  lemma StaleWaypointIgnored(f: Form, p: Point)
    requires f.inputType == Some(WaypointInput)
    requires f.waypointIndex.None? || f.waypointIndex.value >= |f.waypoints|
    ensures Clicked(f, p) == f
  {
  }

  /** The navigation marker click on a marker at `p`: fills the start if it
      is empty, else the destination if that is empty, else nothing. */
  function Picked(f: Form, p: Point): (r: Form)
    ensures r.waypoints == f.waypoints && r.inputType == f.inputType && r.waypointIndex == f.waypointIndex
  {
    if f.start.None? && f.destination.None? then f.(start := Some(p))
    else if f.start.None? then f.(start := Some(p))
    else if f.destination.None? then f.(destination := Some(p))
    else f
  }

  /** A marker click never overwrites a set slot, and fills the start
      before the destination; two clicks on an empty form fill both. */
  lemma PickNeverOverwrites(f: Form, p: Point, q: Point)
    ensures f.start.Some? ==> Picked(f, p).start == f.start
    ensures f.destination.Some? ==> Picked(f, p).destination == f.destination
    ensures f.start.Some? && f.destination.Some? ==> Picked(f, p) == f
    ensures f.start.None? ==> Picked(f, p) == f.(start := Some(p))
    ensures f.start.None? && f.destination.None? ==>
              Picked(Picked(f, p), q) == f.(start := Some(p), destination := Some(q))
  {
  }

  /** The switch button. */
  function Switched(f: Form): (r: Form)
    ensures r.start == f.destination && r.destination == f.start
    ensures r.waypoints == f.waypoints && r.inputType == f.inputType && r.waypointIndex == f.waypointIndex
  {
    f.(start := f.destination, destination := f.start)
  }

  /** Switching twice restores the form. */
  lemma SwitchTwice(f: Form)
    ensures Switched(Switched(f)) == f
  {
  }

  /** `addWaypointInput`: one more waypoint `{lat: null, lng: null}`, whose
      input then takes the focus (`input.focus()` runs its `focusin`
      listener), so the next map click belongs to it. */
  function WithWaypoint(f: Form): (r: Form)
    ensures FocusValid(r)
    ensures r.inputType == Some(WaypointInput) && r.waypointIndex == Some(|f.waypoints|)
  {
    f.(waypoints := f.waypoints + [Point(Null, Null)],
       inputType := Some(WaypointInput), waypointIndex := Some(|f.waypoints|))
  }

  /** The new waypoint sits at the old length, every other waypoint and both
      ends are kept, and the new one is left out of any route until a click
      fills it. */
  lemma NewWaypointIsEmpty(f: Form)
    ensures var r := WithWaypoint(f);
      && |r.waypoints| == |f.waypoints| + 1
      && r.waypoints[|f.waypoints|] == Point(Null, Null)
      && r.waypoints[..|f.waypoints|] == f.waypoints
      && r.start == f.start && r.destination == f.destination
      && CompleteWaypoints(r.waypoints) == CompleteWaypoints(f.waypoints)
  {
    var r := WithWaypoint(f);
    CompleteConcat(f.waypoints, [Point(Null, Null)]);
    assert CompleteWaypoints([Point(Null, Null)]) == [];
    assert r.waypoints[..|f.waypoints|] == f.waypoints;
  }

  /** Whatever input had the focus before, the click after
      `addWaypointInput` fills exactly the new waypoint: the start and the
      destination stay as they were, and no input keeps the focus. */
  lemma NewWaypointTakesClick(f: Form, p: Point)
    ensures var c := Clicked(WithWaypoint(f), p);
      && c.waypoints == f.waypoints + [p]
      && c.start == f.start && c.destination == f.destination
      && c.inputType.None? && c.waypointIndex.None?
  {
    var w := WithWaypoint(f);
    assert w.waypoints[|f.waypoints| := p] == f.waypoints + [p];
  }

  /** The point `afterAddSet` reads from a dataset in line mode: the embedded
      GeoJSON coordinates when a GeoJSON attribute is configured (reading them
      throws on a missing attribute or missing coordinates), else the flat
      attributes. None when they do not form a position. */
  function SetPoint(ds: DataSet, cfg: Features.CoordinateConfig): (r: Result<Option<Pos>, Fault>)
    ensures r.Err? <==> cfg.geoJSONAttr != ""
                        && (Nullish(Attr(ds, cfg.geoJSONAttr))
                            || Nullish(Prop(Attr(ds, cfg.geoJSONAttr), "coordinates").value))
  {
    if cfg.geoJSONAttr != "" then
      match Prop(Attr(ds, cfg.geoJSONAttr), "coordinates")
      case Err(e) => Err(e)
      case Ok(c) => Features.FeaturePosition(c)
    else Ok(LatLng(Attr(ds, cfg.latAttr), Attr(ds, cfg.lonAttr)))
  }

  /** For a source without a per-source mapping, a polyline segment ends
      where the dataset's marker stands. */
  lemma SegmentEndIsMarkerPosition(ds: DataSet, cfg: Features.CoordinateConfig)
    requires !Features.HasMapping(cfg, ds.fromName)
    requires SetPoint(ds, cfg).Ok?
    ensures SetPoint(ds, cfg).value == Features.PlacedAt(ds, cfg)
  {
  }

  /** For a mapped source the segment ignores the mapping: without a GeoJSON
      attribute it reads the flat latitude and longitude attributes, although
      the source's markers stand at the mapped position. */
  lemma SegmentIgnoresMapping(ds: DataSet, cfg: Features.CoordinateConfig, lat: int, lng: int)
    requires Features.HasMapping(cfg, ds.fromName) && cfg.geoJSONAttr == ""
    requires Attr(ds, cfg.latAttr) == Num(lat) && Attr(ds, cfg.lonAttr) == Num(lng)
    ensures SetPoint(ds, cfg) == Ok(Some(Pos(lat, lng)))
    ensures Features.StrategyFor(cfg, ds.fromName) == Features.Mapped
  {
  }

  /** What `afterAddSet` adds to the map: a routing control between two
      (possibly invalid) positions, or a coloured polyline segment. */
  datatype Drawing = RoutingControl(waypointFrom: Option<Pos>, waypointTo: Option<Pos>) | Segment(from: Pos, to: Pos, color: string)

  /** One marker click re-bound from `off` to `on`. */
  function Swap(mk: Marker, off: Handler, on: Handler): Marker {
    mk.(handlers := mk.handlers - {off} + {on})
  }

  /** Visiting one more marker re-binds just that one. */
  lemma ReboundStep(data: map<MarkerId, Marker>, visited: set<MarkerId>, m: MarkerId, off: Handler, on: Handler)
    requires m in data && m !in visited
    ensures Rebound(data, visited, off, on)[m] == data[m]
    ensures Rebound(data, visited + {m}, off, on)
            == Rebound(data, visited, off, on)[m := Swap(data[m], off, on)]
  {
  }

  /** The nested loop of `overwriteLeafletEvents` over every keyed marker of
      every source: `marker.off('click', off)` then `marker.on('click', on)`. */
  method ReboundAmong(data: map<MarkerId, Marker>, keyed: set<MarkerId>, off: Handler, on: Handler)
    returns (rebound: map<MarkerId, Marker>)
    requires keyed <= data.Keys
    ensures rebound == Rebound(data, keyed, off, on)
  {
    rebound := data;
    var todo := keyed;
    assert keyed - todo == {};
    while todo != {}
      invariant todo <= keyed
      invariant rebound == Rebound(data, keyed - todo, off, on)
      decreases todo
    {
      var m :| m in todo;
      ReboundStep(data, keyed - todo, m, off, on);
      VisitOne(keyed, todo, m);
      rebound := rebound[m := Swap(rebound[m], off, on)];
      todo := todo - {m};
    }
    assert keyed - todo == keyed;
  }

  class NavigationPlugin {
    /** The map component the plugin is attached to. */
    const worldmap: Worldmap

    // Options
    const createRouteFromData: bool
    const connectWithLine: bool
    const enableRouteSave: Value
    const routeSaveTarget: Value

    // navigationobj and the focus
    var start: Option<Point>
    var waypoints: seq<Point>
    var destination: Option<Point>
    var activeInputType: Option<InputType>
    var activeWaypointIndex: Option<nat>

    /** The routing control `startNavigation` shows, by its waypoints. */
    var route: Option<seq<Point>>
    /** The pulse markers of the waypoints and of the destination. */
    var waypointIcons: seq<Point>
    var destinationIcon: Option<Point>

    var menuOpened: bool
    var lastaddedset: Option<DataSet>
    /** Routing controls and polylines `afterAddSet` added to the map, in order. */
    var drawings: seq<Drawing>

    function FormState(): Form
      reads this
    {
      Form(start, waypoints, destination, activeInputType, activeWaypointIndex)
    }

    ghost predicate Valid()
      reads this
    {
      FocusValid(FormState())
    }

    /** The option defaults: the flags default to false unless given as
        booleans; the save target to `null`; and saving is switched off
        (`null`) whenever no route id generator is given. */
    constructor (worldmap: Worldmap, createRouteFromData: Value, enableRouteSave: Value,
                 routeSaveTarget: Value, routeIdGenerator: Value, connectWithLine: Value)
      ensures Valid()
      ensures this.worldmap == worldmap
      ensures this.createRouteFromData == (createRouteFromData == Bool(true))
      ensures this.connectWithLine == (connectWithLine == Bool(true))
      ensures Truthy(this.enableRouteSave) <==> enableRouteSave == Bool(true) && Truthy(routeIdGenerator)
      ensures Truthy(this.routeSaveTarget) <==> Truthy(routeSaveTarget)
      ensures FormState() == Form(None, [], None, None, None)
      ensures route.None? && waypointIcons == [] && destinationIcon.None?
      ensures !menuOpened && lastaddedset.None? && drawings == []
    {
      this.worldmap := worldmap;
      this.createRouteFromData := if createRouteFromData.Bool? then createRouteFromData.b else false;
      var save := if enableRouteSave.Bool? then enableRouteSave else Bool(false);
      this.routeSaveTarget := if Truthy(routeSaveTarget) then routeSaveTarget else Null;
      this.enableRouteSave := if Truthy(routeIdGenerator) then save else Null;
      this.connectWithLine := if connectWithLine.Bool? then connectWithLine.b else false;
      start, waypoints, destination := None, [], None;
      activeInputType, activeWaypointIndex := None, None;
      route, waypointIcons, destinationIcon := None, [], None;
      menuOpened, lastaddedset, drawings := false, None, [];
    }

    /** The start input's `focusin` listener. */
    method FocusStart()
      modifies this`activeInputType, this`activeWaypointIndex
      ensures Valid()
      ensures FormState() == old(FormState()).(inputType := Some(StartInput), waypointIndex := None)
    {
      activeInputType, activeWaypointIndex := Some(StartInput), None;
    }

    /** The destination input's `focusin` listener. */
    method FocusDestination()
      modifies this`activeInputType, this`activeWaypointIndex
      ensures Valid()
      ensures FormState() == old(FormState()).(inputType := Some(DestinationInput), waypointIndex := None)
    {
      activeInputType, activeWaypointIndex := Some(DestinationInput), None;
    }

    /** The `focusin` listener of the input `addWaypointInput` made for
        waypoint `index`; only such inputs exist, so the index is in range. */
    method FocusWaypoint(index: nat)
      requires index < |waypoints|
      modifies this`activeInputType, this`activeWaypointIndex
      ensures Valid()
      ensures FormState() == old(FormState()).(inputType := Some(WaypointInput), waypointIndex := Some(index))
    {
      activeInputType, activeWaypointIndex := Some(WaypointInput), Some(index);
    }

    /** `navigation_click_evts.click` for a click at `at`. */
    method HandleClick(at: Pos)
      modifies this`start, this`waypoints, this`destination, this`activeInputType, this`activeWaypointIndex
      ensures FormState() == Clicked(old(FormState()), Point(Num(at.lat), Num(at.lng)))
      ensures old(Valid()) ==> Valid()
    {
      var p := Point(Num(at.lat), Num(at.lng));
      if activeInputType == Some(StartInput) {
        start := Some(p);
        activeInputType, activeWaypointIndex := None, None;
        return;
      }
      if activeInputType == Some(WaypointInput) && activeWaypointIndex.Some?
         && activeWaypointIndex.value < |waypoints| {
        waypoints := waypoints[activeWaypointIndex.value := p];
        activeInputType, activeWaypointIndex := None, None;
        return;
      }
      if activeInputType == Some(DestinationInput) {
        destination := Some(p);
        activeInputType, activeWaypointIndex := None, None;
      }
    }

    /** `navigation_click_evts.markerclick` on a marker: the point is the
        marker's feature coordinates, read latitude from index 1. */
    method HandleMarkerClick(mk: Marker)
      modifies this`start, this`destination
      ensures FormState() == Picked(old(FormState()), Point(Num(mk.pos.lat), Num(mk.pos.lng)))
      ensures old(Valid()) ==> Valid()
    {
      var latlng := Point(Num(mk.pos.lat), Num(mk.pos.lng));
      if start.None? && destination.None? {
        start := Some(latlng);
        return;
      }
      if start.None? {
        start := Some(latlng);
        return;
      }
      if destination.None? {
        destination := Some(latlng);
        return;
      }
    }

    /** The switch button's listener. */
    method SwitchStartDestination()
      modifies this`start, this`destination
      ensures FormState() == Switched(old(FormState()))
      ensures old(Valid()) ==> Valid()
    {
      var tmp := start;
      start := destination;
      destination := tmp;
    }

    /** `addWaypointInput()`: appends the empty waypoint, then focuses its
        new input, whose `focusin` listener moves the focus to it. */
    method AddWaypointInput() returns (index: nat)
      modifies this`waypoints, this`activeInputType, this`activeWaypointIndex
      ensures index == |old(waypoints)|
      ensures FormState() == WithWaypoint(old(FormState()))
      ensures Valid()
    {
      index := |waypoints|;
      waypoints := waypoints + [Point(Null, Null)];
      FocusWaypoint(index);
    }

    /** `startNavigation()`: without a start or a destination nothing
        happens; otherwise the old route and pulse markers are replaced by a
        route through the route points, a pulse marker on each complete
        waypoint and one on the destination. The route always has at least
        two points, so the source's length guard never fires. */
    method StartNavigation()
      modifies this`route, this`waypointIcons, this`destinationIcon
      ensures start.None? || destination.None? ==>
                route == old(route) && waypointIcons == old(waypointIcons) && destinationIcon == old(destinationIcon)
      ensures start.Some? && destination.Some? ==>
                && route == Some(RoutePoints(start, waypoints, destination))
                && |route.value| >= 2
                && waypointIcons == CompleteWaypoints(waypoints)
                && destinationIcon == destination
    {
      if start.None? || destination.None? {
        return;
      }
      route := None;
      waypointIcons := [];
      destinationIcon := None;
      var complete := CompletePoints(waypoints);
      route := Some([start.value] + complete + [destination.value]);
      waypointIcons := complete;
      destinationIcon := destination;
    }

    /** `stopNavigation()`: clears the form, the route and the pulse markers. */
    method StopNavigation()
      modifies this`start, this`waypoints, this`destination, this`activeInputType, this`activeWaypointIndex
      modifies this`route, this`waypointIcons, this`destinationIcon
      ensures Valid()
      ensures FormState() == Form(None, [], None, None, None)
      ensures route.None? && waypointIcons == [] && destinationIcon.None?
    {
      route := None;
      start, destination := None, None;
      waypoints, waypointIcons := [], [];
      activeInputType, activeWaypointIndex := None, None;
      destinationIcon := None;
    }

    /** `buildRoutingWaypoints()` */
    method BuildRoutingWaypoints() returns (points: seq<Point>)
      ensures points == RoutePoints(start, waypoints, destination)
    {
      points := [];
      if start.Some? {
        points := points + [start.value];
      }
      var complete := CompletePoints(waypoints);
      points := points + complete;
      if destination.Some? {
        points := points + [destination.value];
      }
    }

    /** `saveRoute()` up to the call into the model, with `routeId` the
        generator's or the clock's id. */
    method SaveRoute(routeId: string) returns (outcome: SaveOutcome)
      ensures outcome == NotSaved <==> !Truthy(enableRouteSave) || !Truthy(routeSaveTarget)
      ensures outcome.Threw? <==> Truthy(enableRouteSave) && Truthy(routeSaveTarget)
                                  && (start.None? || destination.None?)
      ensures outcome.Saved? ==>
                outcome == Saved(routeSaveTarget, RouteRows(routeId, RoutePoints(start, waypoints, destination)))
    {
      if !Truthy(enableRouteSave) || !Truthy(routeSaveTarget) {
        return NotSaved;
      }
      var complete := CompletePoints(waypoints);
      if start.None? || destination.None? {
        return Threw(TypeError);
      }
      var points := [start.value] + complete + [destination.value];
      return Saved(routeSaveTarget, RouteRows(routeId, points));
    }

    /** `toggleMenu()` */
    method ToggleMenu()
      requires worldmap.Valid()
      modifies this`menuOpened, worldmap`clickHandlers, worldmap`markerData
      ensures worldmap.Valid()
      ensures menuOpened == !old(menuOpened)
      ensures menuOpened ==>
                && worldmap.clickHandlers == old(worldmap.clickHandlers) - {MapClick} + {NavigationClick}
                && worldmap.markerData == Rebound(old(worldmap.markerData), KeyedIn(worldmap.markers),
                                                  MarkerClick, NavigationMarkerClick)
      ensures !menuOpened ==>
                && worldmap.clickHandlers == old(worldmap.clickHandlers) - {NavigationClick} + {MapClick}
                && worldmap.markerData == Rebound(old(worldmap.markerData), KeyedIn(worldmap.markers),
                                                  NavigationMarkerClick, MarkerClick)
    {
      menuOpened := !menuOpened;
      OverwriteLeafletEvents();
    }

    /** `overwriteLeafletEvents()`: while the menu is open the viewer's click
        and every keyed marker's click go to the navigation handlers instead
        of the map's own; when it is closed, back. */
    method OverwriteLeafletEvents()
      requires worldmap.Valid()
      modifies worldmap`clickHandlers, worldmap`markerData
      ensures worldmap.Valid()
      ensures menuOpened ==>
                && worldmap.clickHandlers == old(worldmap.clickHandlers) - {MapClick} + {NavigationClick}
                && worldmap.markerData == Rebound(old(worldmap.markerData), KeyedIn(worldmap.markers),
                                                  MarkerClick, NavigationMarkerClick)
      ensures !menuOpened ==>
                && worldmap.clickHandlers == old(worldmap.clickHandlers) - {NavigationClick} + {MapClick}
                && worldmap.markerData == Rebound(old(worldmap.markerData), KeyedIn(worldmap.markers),
                                                  NavigationMarkerClick, MarkerClick)
    {
      var keyed := KeyedIn(worldmap.markers);
      KeyedAreListed(worldmap.Reg());
      var off, on := NavigationMarkerClick, MarkerClick;
      if menuOpened {
        off, on := MarkerClick, NavigationMarkerClick;
        worldmap.clickHandlers := worldmap.clickHandlers - {MapClick} + {NavigationClick};
      } else {
        worldmap.clickHandlers := worldmap.clickHandlers - {NavigationClick} + {MapClick};
      }
      worldmap.markerData := ReboundAmong(worldmap.markerData, keyed, off, on);
      ReboundKeepsValid(old(worldmap.Reg()), keyed, off, on);
      assert worldmap.Reg() == old(worldmap.Reg()).(markerData := Rebound(old(worldmap.markerData), keyed, off, on));
    }

    /** `afterAddSet(currentset)`: the "route from data" sequencer. The first
        dataset is only remembered. In routing mode every later one is routed
        to from the remembered one, which is never advanced. In line mode the
        remembered dataset advances to each new one, and a segment coloured by
        the data description (else `sienna`) is drawn when both come from the
        same measurement process and both points are valid. A property read
        on a missing GeoJSON attribute throws; nothing has changed then. */
    method AfterAddSet(currentset: DataSet, colorOf: DataSet -> string) returns (fault: Option<Fault>)
      modifies this`lastaddedset, this`drawings
      ensures !createRouteFromData ==> fault.None? && lastaddedset == old(lastaddedset) && drawings == old(drawings)
      ensures createRouteFromData && old(lastaddedset).None? ==>
                fault.None? && lastaddedset == Some(currentset) && drawings == old(drawings)
      ensures createRouteFromData && old(lastaddedset).Some? && !connectWithLine ==>
                var cfg, last := worldmap.coords, old(lastaddedset).value;
                && fault.None? && lastaddedset == old(lastaddedset)
                && drawings == old(drawings) + [RoutingControl(LatLng(Attr(last, cfg.latAttr), Attr(last, cfg.lonAttr)),
                                                               LatLng(Attr(currentset, cfg.latAttr), Attr(currentset, cfg.lonAttr)))]
      ensures createRouteFromData && old(lastaddedset).Some? && connectWithLine ==>
                var cfg, last := worldmap.coords, old(lastaddedset).value;
                var sameProcess := LooseEq(Attr(last, "measurement_process"), Attr(currentset, "measurement_process"));
                && (!sameProcess ==> fault.None? && lastaddedset == Some(currentset) && drawings == old(drawings))
                && (sameProcess && (SetPoint(last, cfg).Err? || SetPoint(currentset, cfg).Err?) ==>
                      fault == Some(TypeError) && lastaddedset == old(lastaddedset) && drawings == old(drawings))
                && (sameProcess && SetPoint(last, cfg).Ok? && SetPoint(currentset, cfg).Ok? ==>
                      var p1, p2 := SetPoint(last, cfg).value, SetPoint(currentset, cfg).value;
                      var col := if worldmap.datadescription then colorOf(currentset) else "sienna";
                      && fault.None? && lastaddedset == Some(currentset)
                      && drawings == old(drawings) + (if p1.Some? && p2.Some? then [Segment(p1.value, p2.value, col)] else []))
    {
      fault := None;
      if !createRouteFromData {
        return;
      }
      if lastaddedset.None? {
        lastaddedset := Some(currentset);
        return;
      }
      var cfg := worldmap.coords;
      var last := lastaddedset.value;
      if !connectWithLine {
        var from := LatLng(Attr(last, cfg.latAttr), Attr(last, cfg.lonAttr));
        var to := LatLng(Attr(currentset, cfg.latAttr), Attr(currentset, cfg.lonAttr));
        drawings := drawings + [RoutingControl(from, to)];
        return;
      }
      if !LooseEq(Attr(last, "measurement_process"), Attr(currentset, "measurement_process")) {
        lastaddedset := Some(currentset);
        return;
      }
      var point1 := SetPoint(last, cfg);
      if point1.Err? {
        return Some(point1.error);
      }
      var point2 := SetPoint(currentset, cfg);
      if point2.Err? {
        return Some(point2.error);
      }
      lastaddedset := Some(currentset);
      if point1.value.None? || point2.value.None? {
        return;
      }
      var col := "sienna";
      if worldmap.datadescription {
        col := colorOf(currentset);
      }
      drawings := drawings + [Segment(point1.value.value, point2.value.value, col)];
    }
  }

  /** Opening and closing the menu on a map with its default bindings gives
      the map its bindings back. */
  method ToggleTwiceRestores(plugin: NavigationPlugin)
    requires plugin.worldmap.Valid() && !plugin.menuOpened
    requires plugin.worldmap.clickHandlers == {MapClick}
    requires forall m :: m in plugin.worldmap.markerData ==> plugin.worldmap.markerData[m].handlers == {MarkerClick}
    modifies plugin`menuOpened, plugin.worldmap`clickHandlers, plugin.worldmap`markerData
    ensures plugin.worldmap.Valid() && !plugin.menuOpened
    ensures plugin.worldmap.clickHandlers == {MapClick}
    ensures plugin.worldmap.markerData == old(plugin.worldmap.markerData)
  {
    var keyed := KeyedIn(plugin.worldmap.markers);
    plugin.ToggleMenu();
    assert plugin.worldmap.clickHandlers == {NavigationClick};
    plugin.ToggleMenu();
    SwapBackRestores(old(plugin.worldmap.markerData), keyed);
  }

  /** In routing mode, once a first dataset is remembered every later
      dataset is routed to from that first one. */
  method RoutesFromFirst(plugin: NavigationPlugin, first: DataSet, second: DataSet, third: DataSet,
                         colorOf: DataSet -> string)
    requires plugin.createRouteFromData && !plugin.connectWithLine && plugin.lastaddedset.None?
    modifies plugin`lastaddedset, plugin`drawings
    ensures plugin.lastaddedset == Some(first)
    ensures var cfg := plugin.worldmap.coords;
      var from := LatLng(Attr(first, cfg.latAttr), Attr(first, cfg.lonAttr));
      plugin.drawings == old(plugin.drawings)
        + [RoutingControl(from, LatLng(Attr(second, cfg.latAttr), Attr(second, cfg.lonAttr))),
           RoutingControl(from, LatLng(Attr(third, cfg.latAttr), Attr(third, cfg.lonAttr)))]
  {
    var f1 := plugin.AfterAddSet(first, colorOf);
    var f2 := plugin.AfterAddSet(second, colorOf);
    var f3 := plugin.AfterAddSet(third, colorOf);
  }
}
