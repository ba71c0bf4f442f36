/** The map component's bookkeeping: the marker registry (a keyed index, an
    insertion-ordered list and one overlay layer per source), the type filter,
    the icon re-colouring (`rerenderIcons`) and the map interaction toggles.
    Leaflet objects are identified by number; what Leaflet would hold for them
    (layer members, icons, bound click handlers) is kept here as state. */
module Worldmap2d {
  import opened Values
  import Features
  import Tooltip
  import Colors

  /** A Leaflet marker object, by identity. */
  type MarkerId = nat

  /** The click callbacks of the component (`map_click_evts`) and of the
      navigation plugin (`navigation_click_evts`). */
  datatype Handler = MapClick | MarkerClick | NavigationClick | NavigationMarkerClick

  datatype Icon = Named(url: string) | Colored(color: string)

  /** A pin with its icon (None: the library's default icon) and tooltip, or
      a circle marker, which has neither. */
  datatype Shape = Pin(icon: Option<Icon>, tooltip: Option<string>) | Circle

  /** A marker: the dataset it shows (`marker.feature.set`), its position, its
      shape and the handlers bound to its `click` event. */
  datatype Marker = Marker(ds: DataSet, pos: Pos, shape: Shape, handlers: set<Handler>)

  /** An overlay layer: its members, whether it is attached to the viewer, and
      whether it is a marker-cluster group. */
  datatype Layer = Layer(members: set<MarkerId>, attached: bool, clustered: bool)

  /** The GeoJSON feature `addMarker` receives: its geometry's coordinates
      (None when it has no geometry), its dataset and its properties. */
  datatype Feature = Feature(coordinates: Option<Value>, ds: DataSet, properties: Option<map<string, Value>>)

  /** The markers held in the keyed index `markers[source][id]`. */
  function KeyedIn(markers: map<string, map<nat, MarkerId>>): set<MarkerId> {
    set s, i | s in markers && i in markers[s] :: markers[s][i]
  }

  predicate Distinct(xs: seq<MarkerId>) {
    forall i, j :: 0 <= i < j < |xs| ==> xs[i] != xs[j]
  }

  /** `xs.indexOf(x)`. */
  function IndexOf(xs: seq<MarkerId>, x: MarkerId): (k: int)
    ensures -1 <= k < |xs|
    ensures k == -1 <==> x !in xs
    ensures k >= 0 ==> xs[k] == x && forall j :: 0 <= j < k ==> xs[j] != x
  {
    if xs == [] then -1
    else if xs[0] == x then 0
    else
      var k := IndexOf(xs[1..], x);
      if k == -1 then -1 else k + 1
  }

  /** `idx = xs.indexOf(x); if (idx !== -1) xs.splice(idx, 1)`. */
  function RemoveFirst(xs: seq<MarkerId>, x: MarkerId): (r: seq<MarkerId>)
    ensures x !in xs ==> r == xs
    ensures forall y :: y in r ==> y in xs
  {
    var k := IndexOf(xs, x);
    if k == -1 then xs else xs[..k] + xs[k + 1..]
  }

  /** Removing an element that occurs takes out exactly one occurrence. */
  lemma RemoveFirstCount(xs: seq<MarkerId>, x: MarkerId)
    requires x in xs
    ensures |RemoveFirst(xs, x)| == |xs| - 1
    ensures multiset(RemoveFirst(xs, x)) == multiset(xs) - multiset{x}
  {
    var k := IndexOf(xs, x);
    assert xs == xs[..k] + [x] + xs[k + 1..];
    assert multiset(xs) == multiset(xs[..k]) + multiset{x} + multiset(xs[k + 1..]);
  }

  /** Removing one element keeps every other one. */
  lemma RemoveFirstKeepsOthers(xs: seq<MarkerId>, x: MarkerId, y: MarkerId)
    requires y != x
    ensures y in RemoveFirst(xs, x) <==> y in xs
  {
    if x in xs {
      RemoveFirstCount(xs, x);
      assert y in xs <==> multiset(xs)[y] > 0;
      assert y in RemoveFirst(xs, x) <==> multiset(RemoveFirst(xs, x))[y] > 0;
    }
  }

  /** From a list without repeats the element is gone afterwards. */
  lemma RemoveFirstDistinct(xs: seq<MarkerId>, x: MarkerId)
    requires Distinct(xs)
    ensures Distinct(RemoveFirst(xs, x)) && x !in RemoveFirst(xs, x)
  {
    var k := IndexOf(xs, x);
    if k != -1 {
      var r := xs[..k] + xs[k + 1..];
      forall i, j | 0 <= i < j < |r| ensures r[i] != r[j] {
        var i' := if i < k then i else i + 1;
        var j' := if j < k then j else j + 1;
        assert r[i] == xs[i'] && r[j] == xs[j'];
      }
      forall i | 0 <= i < |r| ensures r[i] != x {
        var i' := if i < k then i else i + 1;
        assert r[i] == xs[i'];
      }
    }
  }

  /** Whether `filterMarker(typeId)` shows a marker: every marker for a null
      `typeId`, else those whose dataset has `type_id == typeId`. */
  predicate Shows(mk: Marker, typeId: Value) {
    Nullish(typeId) || LooseEq(Attr(mk.ds, "type_id"), typeId)
  }

  /** The keyed markers of `source` that the filter shows. */
  function ShownFrom(source: string, among: set<MarkerId>, data: map<MarkerId, Marker>, typeId: Value): set<MarkerId> {
    set m | m in among && m in data && data[m].ds.fromName == source && Shows(data[m], typeId)
  }

  /** `shown` is `layers` with the shown markers among `done` added. */
  ghost predicate ShownSoFar(shown: map<string, Layer>, layers: map<string, Layer>, done: set<MarkerId>,
                             data: map<MarkerId, Marker>, typeId: Value) {
    && shown.Keys == layers.Keys
    && forall s :: s in shown ==>
         shown[s] == layers[s].(members := layers[s].members + ShownFrom(s, done, data, typeId))
  }

  lemma ShownNone(layers: map<string, Layer>, data: map<MarkerId, Marker>, typeId: Value)
    ensures ShownSoFar(layers, layers, {}, data, typeId)
  {
    forall s | s in layers ensures layers[s] == layers[s].(members := layers[s].members + ShownFrom(s, {}, data, typeId)) {
      assert ShownFrom(s, {}, data, typeId) == {};
    }
  }

  lemma ShownAll(shown: map<string, Layer>, layers: map<string, Layer>, done: set<MarkerId>,
                 data: map<MarkerId, Marker>, typeId: Value)
    requires ShownSoFar(shown, layers, done, data, typeId)
    ensures shown == WithShown(layers, done, data, typeId)
  {
    assert forall s :: s in shown ==> shown[s] == WithShown(layers, done, data, typeId)[s];
  }

  /** One step of the loop of `filterMarker`, for a marker it shows. */
  lemma ShowOne(shown: map<string, Layer>, layers: map<string, Layer>, done: set<MarkerId>, m: MarkerId,
                data: map<MarkerId, Marker>, typeId: Value)
    requires m in data && data[m].ds.fromName in layers && ShownSoFar(shown, layers, done, data, typeId)
    requires Shows(data[m], typeId)
    ensures var s := data[m].ds.fromName;
      ShownSoFar(shown[s := shown[s].(members := shown[s].members + {m})], layers, done + {m}, data, typeId)
  {
    var s := data[m].ds.fromName;
    var next := shown[s := shown[s].(members := shown[s].members + {m})];
    forall s' | s' in next
      ensures next[s'] == layers[s'].(members := layers[s'].members + ShownFrom(s', done + {m}, data, typeId))
    {
      ShownStep(s', done, m, data, typeId);
    }
  }

  /** One step of the loop of `filterMarker`, for a marker it hides. */
  lemma HideOne(shown: map<string, Layer>, layers: map<string, Layer>, done: set<MarkerId>, m: MarkerId,
                data: map<MarkerId, Marker>, typeId: Value)
    requires m in data && ShownSoFar(shown, layers, done, data, typeId)
    requires !Shows(data[m], typeId)
    ensures ShownSoFar(shown, layers, done + {m}, data, typeId)
  {
    forall s' | s' in shown
      ensures shown[s'] == layers[s'].(members := layers[s'].members + ShownFrom(s', done + {m}, data, typeId))
    {
      ShownStep(s', done, m, data, typeId);
    }
  }

  /** Taking one element out of the to-do set adds it to the visited ones. */
  lemma VisitOne(all: set<MarkerId>, todo: set<MarkerId>, m: MarkerId)
    requires m in todo && todo <= all
    ensures all - (todo - {m}) == (all - todo) + {m}
  {
  }

  /** Visiting one more marker adds it to its own source's shown set only. */
  lemma ShownStep(source: string, done: set<MarkerId>, m: MarkerId, data: map<MarkerId, Marker>, typeId: Value)
    requires m in data
    ensures ShownFrom(source, done + {m}, data, typeId)
            == ShownFrom(source, done, data, typeId)
               + (if data[m].ds.fromName == source && Shows(data[m], typeId) then {m} else {})
  {
  }

  /** Every layer emptied (`clearLayers`). */
  function Cleared(layers: map<string, Layer>): (r: map<string, Layer>)
    ensures r.Keys == layers.Keys
  {
    map s | s in layers :: layers[s].(members := {})
  }

  /** Every layer with the shown markers among `among` added. */
  function WithShown(layers: map<string, Layer>, among: set<MarkerId>, data: map<MarkerId, Marker>, typeId: Value): (r: map<string, Layer>)
    ensures r.Keys == layers.Keys
  {
    map s | s in layers :: layers[s].(members := layers[s].members + ShownFrom(s, among, data, typeId))
  }

  /** Filtering is clearing and then showing the keyed markers. */
  lemma FilteredIsClearThenShow(layers: map<string, Layer>, markers: map<string, map<nat, MarkerId>>,
                                data: map<MarkerId, Marker>, typeId: Value)
    ensures Filtered(layers, markers, data, typeId) == WithShown(Cleared(layers), KeyedIn(markers), data, typeId)
  {
    var keyed := KeyedIn(markers);
    forall s | s in layers
      ensures Filtered(layers, markers, data, typeId)[s] == WithShown(Cleared(layers), keyed, data, typeId)[s]
    {
      assert {} + ShownFrom(s, keyed, data, typeId) == ShownFrom(s, keyed, data, typeId);
    }
  }

  /** The layers after `filterMarker(typeId)`: every layer is emptied and then
      holds the keyed markers of its source that the filter shows. */
  function Filtered(layers: map<string, Layer>, markers: map<string, map<nat, MarkerId>>,
                    data: map<MarkerId, Marker>, typeId: Value): (r: map<string, Layer>)
    ensures r.Keys == layers.Keys
  {
    map s | s in layers :: layers[s].(members := ShownFrom(s, KeyedIn(markers), data, typeId))
  }

  /** Filtering with a fixed argument twice is filtering once. */
  lemma FilterIdempotent(layers: map<string, Layer>, markers: map<string, map<nat, MarkerId>>,
                         data: map<MarkerId, Marker>, typeId: Value)
    ensures Filtered(Filtered(layers, markers, data, typeId), markers, data, typeId)
            == Filtered(layers, markers, data, typeId)
  {
  }

  /** A null filter puts every keyed marker back into its own source's layer,
      and any other filter shows a subset of that. */
  lemma FilterNullRestoresAll(layers: map<string, Layer>, markers: map<string, map<nat, MarkerId>>,
                              data: map<MarkerId, Marker>, typeId: Value)
    requires forall m :: m in KeyedIn(markers) ==> m in data && data[m].ds.fromName in layers
    ensures forall m :: m in KeyedIn(markers) ==> m in Filtered(layers, markers, data, Null)[data[m].ds.fromName].members
    ensures forall s :: s in layers ==>
              Filtered(layers, markers, data, typeId)[s].members <= Filtered(layers, markers, data, Null)[s].members
  {
  }

  /** The colour an icon carries (`icon.options.color`); pins with the default
      icon or a named icon carry none. */
  function IconColor(shape: Shape): Option<string> {
    if shape.Pin? && shape.icon.Some? && shape.icon.value.Colored? then Some(shape.icon.value.color) else None
  }

  /** Whether `rerenderIcons` replaces a marker's icon for colour `col`. */
  predicate NeedsIcon(mk: Marker, col: string) {
    mk.shape.Pin? && IconColor(mk.shape) != Some(col)
  }

  function Recolor(mk: Marker, col: string): (r: Marker)
    ensures r.ds == mk.ds && r.pos == mk.pos && r.handlers == mk.handlers
    ensures !NeedsIcon(r, col)
    ensures !NeedsIcon(mk, col) ==> r == mk
    ensures mk.shape.Pin? ==> r.shape.Pin? && r.shape.tooltip == mk.shape.tooltip
  {
    if NeedsIcon(mk, col) then mk.(shape := Pin(Some(Colored(col)), mk.shape.tooltip)) else mk
  }

  /** The markers after `rerenderIcons` has visited those in `visited`. */
  function Recolored(data: map<MarkerId, Marker>, visited: set<MarkerId>, colorOf: DataSet -> string): (r: map<MarkerId, Marker>)
    ensures r.Keys == data.Keys
  {
    map m | m in data :: if m in visited then Recolor(data[m], Colors.RerenderColor(colorOf(data[m].ds))) else data[m]
  }

  /** Visiting one more marker re-colours just that one. */
  lemma RecoloredStep(data: map<MarkerId, Marker>, visited: set<MarkerId>, m: MarkerId, colorOf: DataSet -> string)
    requires m in data && m !in visited
    ensures Recolored(data, visited, colorOf)[m] == data[m]
    ensures Recolored(data, visited + {m}, colorOf)
            == Recolored(data, visited, colorOf)[m := Recolor(data[m], Colors.RerenderColor(colorOf(data[m].ds)))]
  {
  }

  /** After a re-render no visited marker needs a new icon, so a second
      re-render with unchanged colours changes nothing. */
  lemma {:induction false} RerenderStable(data: map<MarkerId, Marker>, visited: set<MarkerId>, colorOf: DataSet -> string)
    ensures forall m :: m in visited && m in data ==>
              !NeedsIcon(Recolored(data, visited, colorOf)[m], Colors.RerenderColor(colorOf(data[m].ds)))
    ensures Recolored(Recolored(data, visited, colorOf), visited, colorOf) == Recolored(data, visited, colorOf)
  {
    var once := Recolored(data, visited, colorOf);
    forall m | m in once
      ensures Recolored(once, visited, colorOf)[m] == once[m]
    {
      if m in visited {
        assert once[m].ds == data[m].ds;
      }
    }
  }

  /** Re-binds one click handler in place of another on the given markers. */
  function Rebound(data: map<MarkerId, Marker>, which: set<MarkerId>, off: Handler, on: Handler): (r: map<MarkerId, Marker>)
    ensures r.Keys == data.Keys
    ensures forall m :: m in r ==> r[m].ds == data[m].ds && r[m].pos == data[m].pos && r[m].shape == data[m].shape
  {
    map m | m in data :: if m in which then data[m].(handlers := data[m].handlers - {off} + {on}) else data[m]
  }

  /** Swapping the navigation handlers in and out again restores every
      marker that had only the default handler bound. */
  lemma SwapBackRestores(data: map<MarkerId, Marker>, which: set<MarkerId>)
    requires forall m :: m in which && m in data ==> data[m].handlers == {MarkerClick}
    ensures Rebound(Rebound(data, which, MarkerClick, NavigationMarkerClick), which, NavigationMarkerClick, MarkerClick) == data
  {
    var there := Rebound(data, which, MarkerClick, NavigationMarkerClick);
    var back := Rebound(there, which, NavigationMarkerClick, MarkerClick);
    forall m | m in data ensures back[m] == data[m] {
      if m in which {
        assert there[m].handlers == {NavigationMarkerClick};
        assert back[m].handlers == {MarkerClick};
      }
    }
  }

  /** The loop of `filterMarker` that re-adds the shown markers, one at a
      time, each to its own source's layer. */
  method ShowAmong(layers: map<string, Layer>, keyed: set<MarkerId>, data: map<MarkerId, Marker>, typeId: Value)
    returns (shown: map<string, Layer>)
    requires forall m :: m in keyed ==> m in data && data[m].ds.fromName in layers
    ensures shown == WithShown(layers, keyed, data, typeId)
  {
    shown := layers;
    var todo := keyed;
    ShownNone(layers, data, typeId);
    assert keyed - todo == {};
    while todo != {}
      invariant todo <= keyed && ShownSoFar(shown, layers, keyed - todo, data, typeId)
      decreases todo
    {
      var m :| m in todo;
      var s := data[m].ds.fromName;
      if Shows(data[m], typeId) {
        ShowOne(shown, layers, keyed - todo, m, data, typeId);
        shown := shown[s := shown[s].(members := shown[s].members + {m})];
      } else {
        HideOne(shown, layers, keyed - todo, m, data, typeId);
      }
      VisitOne(keyed, todo, m);
      todo := todo - {m};
    }
    assert keyed - todo == keyed;
    ShownAll(shown, layers, keyed, data, typeId);
  }

  /** The loop of `rerenderIcons`: each visited marker gets the icon of its
      dataset's current colour unless it already has it. */
  method RecolorAmong(data: map<MarkerId, Marker>, keyed: set<MarkerId>, colorOf: DataSet -> string)
    returns (recolored: map<MarkerId, Marker>)
    requires keyed <= data.Keys
    ensures recolored == Recolored(data, keyed, colorOf)
  {
    recolored := data;
    var todo := keyed;
    assert keyed - todo == {};
    while todo != {}
      invariant todo <= keyed
      invariant recolored == Recolored(data, keyed - todo, colorOf)
      decreases todo
    {
      var m :| m in todo;
      RecoloredStep(data, keyed - todo, m, colorOf);
      VisitOne(keyed, todo, m);
      recolored := recolored[m := Recolor(recolored[m], Colors.RerenderColor(colorOf(recolored[m].ds)))];
      todo := todo - {m};
    }
    assert keyed - todo == keyed;
  }

  /** The marker registry: the keyed index `markers[source][id]`, the list
      `markersArray`, the overlay layers by source, the markers themselves, and
      the next fresh marker identity. */
  datatype Registry = Registry(
    markers: map<string, map<nat, MarkerId>>,
    markersArray: seq<MarkerId>,
    layers: map<string, Layer>,
    markerData: map<MarkerId, Marker>,
    nextMarker: nat)

  /** The keyed slot (s, i) holds a listed marker whose dataset is (s, i). */
  ghost predicate KeyedAt(r: Registry, s: string, i: nat)
    requires s in r.markers && i in r.markers[s]
  {
    var m := r.markers[s][i];
    m in r.markersArray && m in r.markerData && r.markerData[m].ds.fromName == s && r.markerData[m].ds.id == i
  }

  /** The registry invariant: every keyed marker is also in `markersArray`,
      which has no repeats; every marker's source has a keyed index and a
      layer; layers hold known markers. */
  ghost predicate RegistryValid(r: Registry) {
    && (forall m :: m in r.markerData ==> m < r.nextMarker)
    && (forall m :: m in r.markersArray ==> m in r.markerData)
    && Distinct(r.markersArray)
    && (forall s, i :: s in r.markers && i in r.markers[s] ==> KeyedAt(r, s, i))
    && (forall s :: s in r.markers ==> s in r.layers)
    && (forall s :: s in r.layers ==> r.layers[s].members <= r.markerData.Keys)
    && (forall m :: m in r.markerData ==> r.markerData[m].ds.fromName in r.markers)
  }

  /** Every keyed marker is listed, and lives in a source that has a layer. */
  lemma KeyedAreListed(r: Registry)
    requires RegistryValid(r)
    ensures forall m :: m in KeyedIn(r.markers) ==>
              m in r.markersArray && m in r.markerData && r.markerData[m].ds.fromName in r.layers
  {
    forall m | m in KeyedIn(r.markers)
      ensures m in r.markersArray && m in r.markerData && r.markerData[m].ds.fromName in r.layers
    {
      var s, i :| s in r.markers && i in r.markers[s] && r.markers[s][i] == m;
      assert KeyedAt(r, s, i);
    }
  }

  /** The registration at the end of `addMarker`: the new marker takes the
      next identity, the keyed slot of its dataset (replacing whatever was
      there), the end of `markersArray`, and a place in its source's layer,
      which is `newLayer` on the source's first marker. */
  function Register(r: Registry, mk: Marker, newLayer: Layer): (q: Registry)
    ensures q.nextMarker == r.nextMarker + 1 && q.markerData == r.markerData[r.nextMarker := mk]
    ensures KeyedIn(q.markers) <= KeyedIn(r.markers) + {r.nextMarker}
    ensures q.markersArray == r.markersArray + [r.nextMarker]
    ensures var s, i := mk.ds.fromName, mk.ds.id;
      && q.markers.Keys == r.markers.Keys + {s}
      && q.markers[s].Keys == (if s in r.markers then r.markers[s].Keys else {}) + {i}
      && q.markers[s][i] == r.nextMarker
      && forall s', i' :: s' in r.markers && i' in r.markers[s'] && (s' != s || i' != i) ==>
           i' in q.markers[s'] && q.markers[s'][i'] == r.markers[s'][i']
    ensures var s := mk.ds.fromName;
      var layer := if s in r.layers then r.layers[s] else newLayer;
      && q.layers.Keys == r.layers.Keys + {s}
      && q.layers[s] == layer.(members := layer.members + {r.nextMarker})
      && forall s' :: s' in r.layers && s' != s ==> q.layers[s'] == r.layers[s']
  {
    var m, s := r.nextMarker, mk.ds.fromName;
    var slots := if s in r.markers then r.markers[s] else map[];
    var layer := if s in r.layers then r.layers[s] else newLayer;
    Registry(r.markers[s := slots[mk.ds.id := m]], r.markersArray + [m],
             r.layers[s := layer.(members := layer.members + {m})], r.markerData[m := mk], m + 1)
  }

  lemma RegisterKeepsValid(r: Registry, mk: Marker, newLayer: Layer)
    requires RegistryValid(r) && newLayer.members == {}
    ensures RegistryValid(Register(r, mk, newLayer))
  {
    var q := Register(r, mk, newLayer);
    var m, s := r.nextMarker, mk.ds.fromName;
    RegisterKeepsKeyed(r, mk, newLayer);
    forall i, j | 0 <= i < j < |q.markersArray| ensures q.markersArray[i] != q.markersArray[j] {
      if j == |r.markersArray| {
        assert r.markersArray[i] in r.markerData;
      }
    }
    forall s' | s' in q.layers ensures q.layers[s'].members <= q.markerData.Keys {
      if s' != s { assert q.layers[s'] == r.layers[s']; }
    }
  }

  lemma RegisterKeepsKeyed(r: Registry, mk: Marker, newLayer: Layer)
    requires RegistryValid(r)
    ensures var q := Register(r, mk, newLayer);
      forall s, i :: s in q.markers && i in q.markers[s] ==> KeyedAt(q, s, i)
  {
    var q := Register(r, mk, newLayer);
    forall s, i | s in q.markers && i in q.markers[s] ensures KeyedAt(q, s, i) {
      if s != mk.ds.fromName || i != mk.ds.id {
        assert q.markers[s][i] == r.markers[s][i];
        assert KeyedAt(r, s, i);
      }
    }
  }

  /** The new marker becomes the keyed one for its dataset and is listed
      last; a marker the slot held before stays listed but is no longer
      keyed, so the list keeps markers the index has forgotten. */
  lemma RegisterDisplaces(r: Registry, mk: Marker, newLayer: Layer)
    requires RegistryValid(r)
    ensures var q := Register(r, mk, newLayer);
      && q.markers[mk.ds.fromName][mk.ds.id] == r.nextMarker
      && q.markersArray[|q.markersArray| - 1] == r.nextMarker
      && r.nextMarker in q.layers[mk.ds.fromName].members
    ensures var s, i, q := mk.ds.fromName, mk.ds.id, Register(r, mk, newLayer);
      s in r.markers && i in r.markers[s] ==>
        r.markers[s][i] in q.markersArray && r.markers[s][i] !in KeyedIn(q.markers)
  {
    var s, i, q := mk.ds.fromName, mk.ds.id, Register(r, mk, newLayer);
    if s in r.markers && i in r.markers[s] {
      var old_ := r.markers[s][i];
      assert KeyedAt(r, s, i);
      forall s', i' | s' in q.markers && i' in q.markers[s'] ensures q.markers[s'][i'] != old_ {
        if s' != s || i' != i {
          assert KeyedAt(r, s', i');
        }
      }
    }
  }

  /** `removeMarker`'s bookkeeping: out of its source's layer, the keyed slot
      of its dataset deleted (whichever marker it holds), and its first
      occurrence spliced out of `markersArray`. */
  function Unregister(r: Registry, m: MarkerId): (q: Registry)
    requires RegistryValid(r) && m in r.markerData
    ensures q.markerData == r.markerData && q.nextMarker == r.nextMarker
    ensures q.markers.Keys == r.markers.Keys && q.layers.Keys == r.layers.Keys
    ensures var s, i := r.markerData[m].ds.fromName, r.markerData[m].ds.id;
      && i !in q.markers[s]
      && forall s', i' :: s' in r.markers && i' in r.markers[s'] && (s' != s || i' != i) ==>
           i' in q.markers[s'] && q.markers[s'][i'] == r.markers[s'][i']
    ensures var s := r.markerData[m].ds.fromName;
      && q.layers[s] == r.layers[s].(members := r.layers[s].members - {m})
      && forall s' :: s' in r.layers && s' != s ==> q.layers[s'] == r.layers[s']
  {
    var s, i := r.markerData[m].ds.fromName, r.markerData[m].ds.id;
    r.(markers := r.markers[s := r.markers[s] - {i}],
       markersArray := RemoveFirst(r.markersArray, m),
       layers := r.layers[s := r.layers[s].(members := r.layers[s].members - {m})])
  }

  lemma UnregisterKeepsValid(r: Registry, m: MarkerId)
    requires RegistryValid(r) && m in r.markerData
    ensures RegistryValid(Unregister(r, m))
  {
    var q := Unregister(r, m);
    RemoveFirstDistinct(r.markersArray, m);
    forall k | k in q.markersArray ensures k in q.markerData {
      if k != m { RemoveFirstKeepsOthers(r.markersArray, m, k); }
    }
    forall s, i | s in q.markers && i in q.markers[s] ensures KeyedAt(q, s, i) {
      assert KeyedAt(r, s, i);
      RemoveFirstKeepsOthers(r.markersArray, m, r.markers[s][i]);
    }
  }

  /** After removal the marker is neither listed, keyed nor shown in its
      layer; if it was the keyed one, exactly it has left the index. */
  lemma UnregisterForgets(r: Registry, m: MarkerId)
    requires RegistryValid(r) && m in r.markerData
    ensures var q, s := Unregister(r, m), r.markerData[m].ds.fromName;
      m !in q.markersArray && m !in KeyedIn(q.markers) && m !in q.layers[s].members
    ensures m in KeyedIn(r.markers) ==> KeyedIn(Unregister(r, m).markers) == KeyedIn(r.markers) - {m}
  {
    var q := Unregister(r, m);
    var s, i := r.markerData[m].ds.fromName, r.markerData[m].ds.id;
    RemoveFirstDistinct(r.markersArray, m);
    forall s', i' | s' in q.markers && i' in q.markers[s'] ensures q.markers[s'][i'] != m {
      assert KeyedAt(r, s', i');
    }
    if m in KeyedIn(r.markers) {
      var s0, i0 :| s0 in r.markers && i0 in r.markers[s0] && r.markers[s0][i0] == m;
      assert KeyedAt(r, s0, i0);
      forall k | k in KeyedIn(r.markers) && k != m ensures k in KeyedIn(q.markers) {
        var s', i' :| s' in r.markers && i' in r.markers[s'] && r.markers[s'][i'] == k;
        assert s' in q.markers && i' in q.markers[s'] && q.markers[s'][i'] == k;
      }
    }
  }

  /** Removing a marker clears its dataset's keyed slot, whatever the slot
      holds: when a newer marker for the same dataset has displaced `m`, it is
      that newer marker that leaves the index, while `m` itself was not keyed. */
  lemma UnregisterClearsSlot(r: Registry, m: MarkerId)
    requires RegistryValid(r) && m in r.markerData
    ensures var s, i := r.markerData[m].ds.fromName, r.markerData[m].ds.id;
      KeyedIn(Unregister(r, m).markers) ==
        KeyedIn(r.markers) - (if i in r.markers[s] then {r.markers[s][i]} else {})
  {
    var q := Unregister(r, m);
    var s, i := r.markerData[m].ds.fromName, r.markerData[m].ds.id;
    var gone := if i in r.markers[s] then {r.markers[s][i]} else {};
    forall k | k in KeyedIn(q.markers) ensures k in KeyedIn(r.markers) - gone {
      var s', i' :| s' in q.markers && i' in q.markers[s'] && q.markers[s'][i'] == k;
      assert r.markers[s'][i'] == k;
      assert KeyedAt(r, s', i');
      if i in r.markers[s] {
        assert KeyedAt(r, s, i);
      }
    }
    forall k | k in KeyedIn(r.markers) - gone ensures k in KeyedIn(q.markers) {
      var s', i' :| s' in r.markers && i' in r.markers[s'] && r.markers[s'][i'] == k;
      assert q.markers[s'][i'] == k;
    }
  }

  /** Filtering changes only what the layers show. */
  lemma FilterKeepsValid(r: Registry, typeId: Value)
    requires RegistryValid(r)
    ensures RegistryValid(r.(layers := Filtered(r.layers, r.markers, r.markerData, typeId)))
  {
  }

  /** Re-colouring changes only icons. */
  lemma RecolorKeepsValid(r: Registry, colorOf: DataSet -> string)
    requires RegistryValid(r)
    ensures RegistryValid(r.(markerData := Recolored(r.markerData, KeyedIn(r.markers), colorOf)))
  {
    var q := r.(markerData := Recolored(r.markerData, KeyedIn(r.markers), colorOf));
    forall s, i | s in q.markers && i in q.markers[s] ensures KeyedAt(q, s, i) {
      assert KeyedAt(r, s, i);
    }
  }

  /** Re-binding handlers changes only handlers. */
  lemma ReboundKeepsValid(r: Registry, which: set<MarkerId>, off: Handler, on: Handler)
    requires RegistryValid(r)
    ensures RegistryValid(r.(markerData := Rebound(r.markerData, which, off, on)))
  {
    var q := r.(markerData := Rebound(r.markerData, which, off, on));
    forall s, i | s in q.markers && i in q.markers[s] ensures KeyedAt(q, s, i) {
      assert KeyedAt(r, s, i);
    }
  }

  /** The tooltip template used when none is configured. */
  const DefaultTooltip: string :=
    "<b>{name}{title}</b><br><span class=\"displayval_name\"></span><span class=\"displayval_value\"></span><br><img swac_hideOnEmpty=\"{icon}\" src=\"{icon}\" widht=\"200\" height=\"100\">"

  /** The state the map interaction toggles change, and the log of
      dispatched events. */
  datatype Gate = Gate(mapInteractions: bool, mapClickInteraction: bool, clickHandlers: set<Handler>, events: seq<string>)

  /** The marker an `addMarker` outcome registered, if any. */
  function Added(r: Result<Option<MarkerId>, Fault>): Option<MarkerId> {
    if r.Ok? then r.value else None
  }

  class Worldmap {
    // Options
    const coords: Features.CoordinateConfig
    const clusterMarkers: bool
    const circleMarkers: bool          // customCircleMarkerOptions is set
    const customMarkerOptions: bool    // customMarkerOptions is set
    const visitedIcon: Option<Icon>
    const unvisitedIcon: Option<Icon>
    const datadescription: bool        // a data description component is linked
    const tooltips: map<string, string>

    // Registry
    var markers: map<string, map<nat, MarkerId>>
    var markersArray: seq<MarkerId>
    var layers: map<string, Layer>
    var markerData: map<MarkerId, Marker>
    var nextMarker: nat
    /** `options.customMarkerOptions.icon`, which `addMarker` writes through. */
    var sharedIcon: Option<Icon>

    // Interaction gate
    var mapInteractions: bool
    var mapClickInteraction: bool
    /** The handlers bound to the viewer's `click` event. */
    var clickHandlers: set<Handler>
    var events: seq<string>

    /** Loaded model files by name; `delete` leaves a hole (None). */
    var models: seq<Option<string>>

    function Reg(): Registry
      reads this
    {
      Registry(markers, markersArray, layers, markerData, nextMarker)
    }

    ghost function GateState(): Gate
      reads this
    {
      Gate(mapInteractions, mapClickInteraction, clickHandlers, events)
    }

    ghost predicate Valid()
      reads this
    {
      RegistryValid(Reg())
    }

    /** A source configured with `displayed: false` gets a detached layer. */
    predicate Hidden(source: string) {
      source in coords.datasources && coords.datasources[source].displayed == Some(false)
    }

    /** The constructor with `init`'s effect on the registry and the gate:
        defaults for the coordinate attributes and the tooltip templates, the
        icon `prepareIcons` makes, and the map click handler bound. */
    constructor (coordOptions: Features.CoordinateConfig, clusterMarkers: bool, circleMarkers: bool,
                 customMarkerOptions: bool, customIcon: Option<Icon>, visitedIcon: Option<Icon>,
                 unvisitedIcon: Option<Icon>, datadescription: bool, tooltipOptions: Option<map<string, string>>)
      ensures Valid()
      ensures coords.latAttr == (if coordOptions.latAttr == "" then "latitude" else coordOptions.latAttr)
      ensures coords.lonAttr == (if coordOptions.lonAttr == "" then "longitude" else coordOptions.lonAttr)
      ensures coords.datasources == coordOptions.datasources && coords.geoJSONAttr == coordOptions.geoJSONAttr
      ensures tooltips == (if tooltipOptions.None? then map["default" := DefaultTooltip] else tooltipOptions.value)
      ensures this.clusterMarkers == clusterMarkers && this.circleMarkers == circleMarkers
      ensures this.customMarkerOptions == customMarkerOptions && this.datadescription == datadescription
      ensures this.visitedIcon == visitedIcon && this.unvisitedIcon == unvisitedIcon
      ensures Reg() == Registry(map[], [], map[], map[], 0)
      ensures sharedIcon == customIcon && models == []
      ensures GateState() == Gate(true, true, {MapClick}, [])
    {
      this.coords := coordOptions.(
        latAttr := if coordOptions.latAttr == "" then "latitude" else coordOptions.latAttr,
        lonAttr := if coordOptions.lonAttr == "" then "longitude" else coordOptions.lonAttr);
      this.clusterMarkers := clusterMarkers;
      this.circleMarkers := circleMarkers;
      this.customMarkerOptions := customMarkerOptions;
      this.visitedIcon := visitedIcon;
      this.unvisitedIcon := unvisitedIcon;
      this.datadescription := datadescription;
      this.tooltips := if tooltipOptions.None? then map["default" := DefaultTooltip] else tooltipOptions.value;
      markers := map[];
      markersArray := [];
      layers := map[];
      markerData := map[];
      nextMarker := 0;
      sharedIcon := customIcon;
      mapInteractions := true;
      mapClickInteraction := true;
      clickHandlers := {MapClick};
      events := [];
      models := [];
    }

    /** The icon `addMarker` picks before it touches the marker options: the
        given one, replaced by the visited/unvisited icon when the feature has
        properties, replaced by the data description's colour. */
    function ChosenIcon(feature: Feature, icon: Option<Icon>, colorOf: DataSet -> string): (r: Option<Icon>)
      ensures datadescription ==> r == Some(Colored(Colors.MarkerColor(colorOf(feature.ds))))
      ensures !datadescription && feature.properties.None? ==> r == icon
      ensures !datadescription && feature.properties.Some? ==>
                r == (if "completed" in feature.properties.value
                         && LooseEq(feature.properties.value["completed"], Bool(true))
                      then visitedIcon else unvisitedIcon)
    {
      var byProperties :=
        if feature.properties.None? then icon
        else if "completed" in feature.properties.value
                && LooseEq(feature.properties.value["completed"], Bool(true)) then visitedIcon
        else unvisitedIcon;
      if datadescription then Some(Colored(Colors.MarkerColor(colorOf(feature.ds)))) else byProperties
    }

    /** Where the feature goes, when `addMarker` gets that far. */
    static function Placement(feature: Feature): Option<Pos> {
      if feature.coordinates.None? then None
      else
        match Features.FeaturePosition(feature.coordinates.value)
        case Err(_) => None
        case Ok(p) => p
    }

    /** The marker `addMarker` creates for a placeable feature, given the
        shared marker options' icon before the call: a circle marker, or a pin
        with the chosen icon (the shared one when none is chosen and the shared
        options are in use) and its tooltip. */
    function NewMarker(feature: Feature, pos: Pos, icon: Option<Icon>, colorOf: DataSet -> string,
                       dataValue: (DataSet, string) -> Option<string>, shared: Option<Icon>): (mk: Marker)
      ensures mk.ds == feature.ds && mk.pos == pos && mk.handlers == {MarkerClick}
      ensures mk.shape.Circle? <==> circleMarkers
      ensures !circleMarkers ==>
                mk.shape.icon == (var c := ChosenIcon(feature, icon, colorOf);
                                  if customMarkerOptions && c.None? then shared else c)
      ensures !circleMarkers && Tooltip.TooltipText(feature.ds, tooltips, dataValue).Ok? ==>
                mk.shape.tooltip == Tooltip.TooltipText(feature.ds, tooltips, dataValue).value
    {
      var chosen := ChosenIcon(feature, icon, colorOf);
      var tip := match Tooltip.TooltipText(feature.ds, tooltips, dataValue)
                 case Ok(t) => t
                 case Err(_) => None;
      var shape := if circleMarkers then Circle
                   else Pin(if customMarkerOptions && chosen.None? then shared else chosen, tip);
      Marker(feature.ds, pos, shape, {MarkerClick})
    }

    /** Whether `addMarker` throws a TypeError on the feature: its geometry's
        coordinates cannot be indexed, or a pin for a dataset with something
        to show finds no tooltip template. */
    predicate AddThrows(feature: Feature, dataValue: (DataSet, string) -> Option<string>) {
      || (feature.coordinates.Some? && Features.FeaturePosition(feature.coordinates.value).Err?)
      || (Placement(feature).Some? && !circleMarkers
          && Tooltip.TooltipText(feature.ds, tooltips, dataValue).Err?)
    }

    /** `addMarker(geoJSON, icon)`: creates a marker and registers it. It
        returns quietly without a geometry or when the coordinates do not form
        a position, and throws when the coordinates cannot be indexed or the
        tooltip template is missing; in all these cases nothing is registered,
        though the tooltip throw comes after the shared icon is written. */
    method AddMarker(feature: Feature, icon: Option<Icon>, colorOf: DataSet -> string,
                     dataValue: (DataSet, string) -> Option<string>) returns (r: Result<Option<MarkerId>, Fault>)
      requires Valid()
      modifies this`markers, this`markersArray, this`layers, this`markerData, this`nextMarker, this`sharedIcon
      ensures Valid()
      ensures r.Err? <==> AddThrows(feature, dataValue)
      ensures Added(r).Some? <==> Placement(feature).Some?
                                  && (circleMarkers || Tooltip.TooltipText(feature.ds, tooltips, dataValue).Ok?)
      ensures Added(r).None? ==> Reg() == old(Reg())
      ensures Added(r).Some? ==> Added(r).value == old(nextMarker) && Added(r).value !in old(markerData)
      ensures Added(r).Some? ==>
        Reg() == Register(old(Reg()),
                          NewMarker(feature, Placement(feature).value, icon, colorOf, dataValue, old(sharedIcon)),
                          Layer({}, !Hidden(feature.ds.fromName), clusterMarkers))
      ensures sharedIcon == (if Placement(feature).Some? && !circleMarkers && customMarkerOptions
                                && ChosenIcon(feature, icon, colorOf).Some?
                             then ChosenIcon(feature, icon, colorOf) else old(sharedIcon))
    {
      if feature.coordinates.None? {
        return Ok(None);
      }
      var position := Features.FeaturePosition(feature.coordinates.value);
      if position.Err? {
        return Err(position.error);
      }
      if position.value.None? {
        return Ok(None);
      }
      var pos := position.value.value;
      assert pos == Placement(feature).value;
      var mk := NewMarker(feature, pos, icon, colorOf, dataValue, sharedIcon);
      if !circleMarkers {
        var chosen := ChosenIcon(feature, icon, colorOf);
        if customMarkerOptions && chosen.Some? {
          sharedIcon := chosen;
        }
        var text := Tooltip.TooltipText(feature.ds, tooltips, dataValue);
        if text.Err? {
          return Err(text.error);
        }
      }
      var m := nextMarker;
      Enroll(mk, Layer({}, !Hidden(feature.ds.fromName), clusterMarkers));
      r := Ok(Some(m));
    }

    /** The registration step of `addMarker`: keyed slot, list, layer. */
    method Enroll(mk: Marker, newLayer: Layer)
      requires Valid() && newLayer.members == {}
      modifies this`markers, this`markersArray, this`layers, this`markerData, this`nextMarker
      ensures Valid()
      ensures Reg() == Register(old(Reg()), mk, newLayer)
    {
      RegisterKeepsValid(Reg(), mk, newLayer);
      var next := Register(Reg(), mk, newLayer);
      markers, markersArray, layers := next.markers, next.markersArray, next.layers;
      markerData, nextMarker := next.markerData, next.nextMarker;
      assert Reg() == next;
    }

    /** `removeMarker(marker)` */
    method RemoveMarker(m: MarkerId)
      requires Valid() && m in markerData
      modifies this`markers, this`markersArray, this`layers
      ensures Valid()
      ensures Reg() == Unregister(old(Reg()), m)
    {
      ghost var before := Reg();
      var s, i := markerData[m].ds.fromName, markerData[m].ds.id;
      layers := layers[s := layers[s].(members := layers[s].members - {m})];
      markers := markers[s := markers[s] - {i}];
      markersArray := RemoveFirst(markersArray, m);
      UnregisterKeepsValid(before, m);
    }

    /** `afterRemoveSet(set)`: removes the marker keyed by the dataset. The
        slot is read unchecked: when no marker is keyed for the dataset (it
        was never placed, or was removed before) the lookup or `removeMarker`
        throws a TypeError before anything changes. */
    method AfterRemoveSet(ds: DataSet) returns (fault: Option<Fault>)
      requires Valid()
      modifies this`markers, this`markersArray, this`layers
      ensures Valid()
      ensures fault == if ds.fromName in old(markers) && ds.id in old(markers)[ds.fromName] then None
                       else Some(TypeError)
      ensures fault.Some? ==> Reg() == old(Reg())
      ensures fault.None? ==>
        && Reg() == Unregister(old(Reg()), old(markers)[ds.fromName][ds.id])
        && ds.fromName in markers && ds.id !in markers[ds.fromName]
        && KeyedIn(markers) == old(KeyedIn(markers)) - {old(markers)[ds.fromName][ds.id]}
    {
      if ds.fromName !in markers || ds.id !in markers[ds.fromName] {
        return Some(TypeError);
      }
      var m := markers[ds.fromName][ds.id];
      assert KeyedAt(Reg(), ds.fromName, ds.id);
      UnregisterForgets(Reg(), m);
      RemoveMarker(m);
      fault := None;
    }

    /** The feature `afterAddSet` hands to `addMarker`, or why it does not
        get that far. */
    function FeatureOf(ds: DataSet): Result<Feature, Features.BuildError> {
      match Features.ResolveCoordinates(ds, coords)
      case Err(e) => Err(e)
      case Ok(c) => Ok(Feature(Some(c.value), ds, None))
    }

    /** `afterAddSet(set)`: resolves the dataset's coordinates and adds its
        marker. A mapped path that cannot be evaluated is caught and the call
        returns; a missing GeoJSON attribute and the throws of `addMarker`
        leave it. `handedOn` says whether it reached `super.afterAddSet(set)`. */
    method AfterAddSet(ds: DataSet, colorOf: DataSet -> string, dataValue: (DataSet, string) -> Option<string>)
      returns (r: Result<Option<MarkerId>, Fault>, handedOn: bool)
      requires Valid()
      modifies this`markers, this`markersArray, this`layers, this`markerData, this`nextMarker, this`sharedIcon
      ensures Valid()
      ensures handedOn <==> r.Ok? && FeatureOf(ds).Ok?
      ensures FeatureOf(ds) == Err(Features.PathNotFound) ==> r == Ok(None)
      ensures r.Err? <==> FeatureOf(ds) == Err(Features.GeometryMissing)
                          || (FeatureOf(ds).Ok? && AddThrows(FeatureOf(ds).value, dataValue))
      ensures Added(r).Some? <==> Features.PlacedAt(ds, coords).Some?
                                  && (circleMarkers || Tooltip.TooltipText(ds, tooltips, dataValue).Ok?)
      ensures Added(r).None? ==> Reg() == old(Reg())
      ensures Added(r).Some? ==> Added(r).value in markerData && ds.fromName in markers
                                 && ds.id in markers[ds.fromName] && ds.fromName in layers
      ensures Added(r).Some? ==>
        && markerData[Added(r).value].pos == Features.PlacedAt(ds, coords).value
        && markerData[Added(r).value].ds == ds
        && markers[ds.fromName][ds.id] == Added(r).value
        && markersArray == old(markersArray) + [Added(r).value]
        && Added(r).value in layers[ds.fromName].members
      ensures Added(r).Some? ==>
        Reg() == Register(old(Reg()), markerData[Added(r).value], Layer({}, !Hidden(ds.fromName), clusterMarkers))
    {
      var resolved := Features.ResolveCoordinates(ds, coords);
      if resolved.Err? {
        if resolved.error == Features.PathNotFound {
          return Ok(None), false;
        }
        return Err(TypeError), false;
      }
      var feature := Feature(Some(resolved.value.value), ds, None);
      assert Placement(feature) == Features.PlacedAt(ds, coords);
      r := AddMarker(feature, None, colorOf, dataValue);
      handedOn := r.Ok?;
    }

    /** `filterMarker(typeId)`: empties every layer, then re-adds each keyed
        marker the filter shows to its source's layer. */
    method FilterMarker(typeId: Value)
      requires Valid()
      modifies this`layers
      ensures Valid()
      ensures layers == Filtered(old(layers), markers, markerData, typeId)
    {
      ClearLayers();
      KeyedAreListed(old(Reg()));
      ShowKeyed(typeId);
      FilteredIsClearThenShow(old(layers), markers, markerData, typeId);
      FilterKeepsValid(old(Reg()), typeId);
      assert Reg() == old(Reg()).(layers := Filtered(old(layers), markers, markerData, typeId));
    }

    /** `overlayLayers[key].clearLayers()` for every layer. */
    method ClearLayers()
      modifies this`layers
      ensures layers == Cleared(old(layers))
    {
      var keys := layers.Keys;
      while keys != {}
        invariant keys <= layers.Keys && layers.Keys == old(layers).Keys
        invariant forall s :: s in layers ==>
                    layers[s] == if s in keys then old(layers)[s] else old(layers)[s].(members := {})
        decreases keys
      {
        var s :| s in keys;
        layers := layers[s := layers[s].(members := {})];
        keys := keys - {s};
      }
      assert forall s :: s in layers ==> layers[s] == Cleared(old(layers))[s];
    }

    /** Adds each keyed marker the filter shows to its source's layer. */
    method ShowKeyed(typeId: Value)
      requires forall m :: m in KeyedIn(markers) ==> m in markerData && markerData[m].ds.fromName in layers
      modifies this`layers
      ensures layers == WithShown(old(layers), KeyedIn(markers), markerData, typeId)
    {
      layers := ShowAmong(layers, KeyedIn(markers), markerData, typeId);
    }

    /** `rerenderIcons()`: gives each keyed pin the icon of its dataset's
        current colour, unless its icon already has that colour. Only called
        when a data description is linked. */
    method RerenderIcons(colorOf: DataSet -> string)
      requires Valid() && datadescription
      modifies this`markerData
      ensures Valid()
      ensures markerData == Recolored(old(markerData), KeyedIn(markers), colorOf)
    {
      KeyedAreListed(Reg());
      markerData := RecolorAmong(markerData, KeyedIn(markers), colorOf);
      RecolorKeepsValid(old(Reg()), colorOf);
    }

    /** `toggleMapClickInteraction()` */
    method ToggleMapClickInteraction()
      modifies this`mapClickInteraction, this`clickHandlers, this`events
      ensures mapClickInteraction == !old(mapClickInteraction)
      ensures clickHandlers == if old(mapClickInteraction) then {} else old(clickHandlers) + {MapClick}
      ensures events == old(events) + [if old(mapClickInteraction) then "mapClickInteractionDisabled"
                                      else "mapClickInteractionEnabled"]
    {
      if mapClickInteraction {
        DisableMapClickInteraction();
      } else {
        EnableMapClickInteraction();
      }
    }

    /** `disableMapClickInteraction()`: `viewer.off('click')` unbinds every
        click handler of the viewer. */
    method DisableMapClickInteraction()
      modifies this`mapClickInteraction, this`clickHandlers, this`events
      ensures !mapClickInteraction && clickHandlers == {}
      ensures events == old(events) + ["mapClickInteractionDisabled"]
    {
      clickHandlers := {};
      mapClickInteraction := false;
      events := events + ["mapClickInteractionDisabled"];
    }

    /** `enableMapClickInteraction()` */
    method EnableMapClickInteraction()
      modifies this`mapClickInteraction, this`clickHandlers, this`events
      ensures mapClickInteraction && clickHandlers == old(clickHandlers) + {MapClick}
      ensures events == old(events) + ["mapClickInteractionEnabled"]
    {
      clickHandlers := clickHandlers + {MapClick};
      mapClickInteraction := true;
      events := events + ["mapClickInteractionEnabled"];
    }

    /** `disableMapInteractions()`: click interaction off, then every gesture
        handler off (the `mapInteractions` flag). */
    method DisableMapInteractions()
      modifies this`mapInteractions, this`mapClickInteraction, this`clickHandlers, this`events
      ensures !mapInteractions && !mapClickInteraction && clickHandlers == {}
      ensures events == old(events) + ["mapClickInteractionDisabled", "mapInteractionDisabled"]
    {
      DisableMapClickInteraction();
      mapInteractions := false;
      events := events + ["mapInteractionDisabled"];
    }

    /** `enableMapInteractions()` */
    method EnableMapInteractions()
      modifies this`mapInteractions, this`mapClickInteraction, this`clickHandlers, this`events
      ensures mapInteractions && mapClickInteraction && clickHandlers == old(clickHandlers) + {MapClick}
      ensures events == old(events) + ["mapClickInteractionEnabled", "mapInteractionEnabled"]
    {
      EnableMapClickInteraction();
      mapInteractions := true;
      events := events + ["mapInteractionEnabled"];
    }

    /** `removeModelFile(name)`: erases and deletes the first loaded model of
        that name, leaving a hole; nothing happens when there is none. */
    method RemoveModelFile(name: string)
      modifies this`models
      ensures |models| == |old(models)|
      ensures Some(name) !in old(models) ==> models == old(models)
      ensures Some(name) in old(models) ==>
        exists k :: 0 <= k < |models| && old(models)[k] == Some(name)
                    && (forall j :: 0 <= j < k ==> old(models)[j] != Some(name))
                    && models == old(models)[k := None]
    {
      var i := 0;
      while i < |models|
        invariant 0 <= i <= |models| && models == old(models)
        invariant forall j :: 0 <= j < i ==> models[j] != Some(name)
      {
        if models[i] == Some(name) {
          models := models[i := None];
          return;
        }
        i := i + 1;
      }
    }
  }

  /** Inserting a dataset and removing it again leaves no marker keyed or
      listed, and the source's layer in place but empty; removing it a second
      time throws and changes nothing. */
  method InsertThenRemove(map2d: Worldmap, ds: DataSet, lat: int, lng: int,
                          colorOf: DataSet -> string, dataValue: (DataSet, string) -> Option<string>)
    returns (again: Option<Fault>)
    requires map2d.Valid() && map2d.markers == map[] && map2d.markersArray == [] && map2d.layers == map[]
    requires map2d.circleMarkers || Tooltip.TooltipText(ds, map2d.tooltips, dataValue).Ok?
    requires Features.StrategyFor(map2d.coords, ds.fromName) == Features.Flat
    requires Attr(ds, map2d.coords.latAttr) == Num(lat) && Attr(ds, map2d.coords.lonAttr) == Num(lng)
    modifies map2d
    ensures map2d.Valid()
    ensures KeyedIn(map2d.markers) == {} && map2d.markersArray == []
    ensures ds.fromName in map2d.layers && map2d.layers[ds.fromName].members == {}
    ensures again == Some(TypeError)
  {
    Features.FlatPlacesAtAttributes(ds, map2d.coords, lat, lng);
    var r, handedOn := map2d.AfterAddSet(ds, colorOf, dataValue);
    var m := Added(r).value;
    assert map2d.markers == map[ds.fromName := map[ds.id := m]];
    assert KeyedIn(map2d.markers) == {m};
    var first := map2d.AfterRemoveSet(ds);
    assert first.None?;
    assert map2d.markersArray == RemoveFirst([m], m) == [];
    again := map2d.AfterRemoveSet(ds);
  }
}
