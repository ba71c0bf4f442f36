/** How `afterAddSet` turns a dataset into the
    coordinates of a GeoJSON point, and where `addMarker` then places it. */
module Features {
  import opened Values

  /** Per-source configuration (`options.datasources.get(fromName)`). The
      attribute names are dotted paths, kept here as their segments; an empty
      path stands for an attribute name that is not configured. */
  datatype DatasourceConfig = DatasourceConfig(
    latitudeAttr: seq<string>,
    longitudeAttr: seq<string>,
    displayed: Option<bool>)

  /** The options the builder reads. An empty `geoJSONAttr` is the option's
      `null` default; `latAttr` and `lonAttr` default to `latitude` and
      `longitude`. */
  datatype CoordinateConfig = CoordinateConfig(
    datasources: map<string, DatasourceConfig>,
    geoJSONAttr: string,
    latAttr: string,
    lonAttr: string)

  /** Which of the three strategies applies to a source. */
  datatype Strategy = Mapped | Embedded | Flat

  /** The coordinates stored in the feature, the strategy that produced them,
      and whether the flat strategy logged its missing-attribute warning. */
  datatype Coordinates = Coordinates(value: Value, strategy: Strategy, warned: bool)

  /** `PathNotFound`: the mapped attribute path could not be evaluated (caught,
      logged, no marker). `GeometryMissing`: the embedded geometry attribute is
      absent (the property read throws out of `afterAddSet`). */
  datatype BuildError = PathNotFound | GeometryMissing

  /** `ds.a.b.c` for the path [a, b, c]: every step but the first reads a
      property of the previous value and throws on `undefined` or `null`. */
  function EvalPath(ds: DataSet, path: seq<string>): (r: Result<Value, Fault>)
    requires path != []
    ensures |path| == 1 ==> r == Ok(Attr(ds, path[0]))
  {
    Follow(Attr(ds, path[0]), path[1..])
  }

  function Follow(v: Value, rest: seq<string>): (r: Result<Value, Fault>)
    ensures rest != [] && Nullish(v) ==> r.Err?
    decreases |rest|
  {
    if rest == [] then Ok(v)
    else match Prop(v, rest[0])
      case Err(e) => Err(e)
      case Ok(w) => Follow(w, rest[1..])
  }

  /** Reading one more property after a path: the path's failure propagates,
      otherwise the last step is a property read of the path's value. */
  lemma {:induction false} FollowSnoc(v: Value, rest: seq<string>, k: string)
    ensures Follow(v, rest + [k]) ==
              match Follow(v, rest)
              case Err(e) => Err(e)
              case Ok(w) => Prop(w, k)
    decreases |rest|
  {
    if rest == [] {
      assert rest + [k] == [k];
      assert [k][1..] == [];
    } else {
      assert (rest + [k])[0] == rest[0];
      assert (rest + [k])[1..] == rest[1..] + [k];
      match Prop(v, rest[0])
      case Err(_) =>
      case Ok(w) => FollowSnoc(w, rest[1..], k);
    }
  }

  /** `ds.a.b.c` is `(ds.a.b).c`: evaluating a path one segment longer reads
      one more property of the shorter path's value, and fails where the
      shorter path fails. */
  lemma EvalPathSnoc(ds: DataSet, path: seq<string>, k: string)
    requires path != []
    ensures EvalPath(ds, path + [k]) ==
              match EvalPath(ds, path)
              case Err(e) => Err(e)
              case Ok(v) => Prop(v, k)
  {
    assert (path + [k])[0] == path[0];
    assert (path + [k])[1..] == path[1..] + [k];
    FollowSnoc(Attr(ds, path[0]), path[1..], k);
  }

  predicate HasMapping(cfg: CoordinateConfig, source: string) {
    source in cfg.datasources
    && cfg.datasources[source].latitudeAttr != []
    && cfg.datasources[source].longitudeAttr != []
  }

  /** The resolution order: the per-source mapping, then the embedded GeoJSON
      attribute, then the two flat attributes. */
  function StrategyFor(cfg: CoordinateConfig, source: string): (s: Strategy)
    ensures s == Mapped <==> HasMapping(cfg, source)
    ensures s == Embedded <==> !HasMapping(cfg, source) && cfg.geoJSONAttr != ""
  {
    if HasMapping(cfg, source) then Mapped
    else if cfg.geoJSONAttr != "" then Embedded
    else Flat
  }

  /** The coordinates `afterAddSet` stores in `geoJSON.geometry.coordinates`. */
  function ResolveCoordinates(ds: DataSet, cfg: CoordinateConfig): (r: Result<Coordinates, BuildError>)
    ensures r.Ok? ==> r.value.strategy == StrategyFor(cfg, ds.fromName)
    ensures r.Ok? && r.value.warned ==> r.value.strategy == Flat
    ensures StrategyFor(cfg, ds.fromName) == Flat ==> r.Ok?
    ensures r == Err(PathNotFound) ==> StrategyFor(cfg, ds.fromName) == Mapped
    ensures StrategyFor(cfg, ds.fromName) == Mapped ==>
              var conf := cfg.datasources[ds.fromName];
              var lat := EvalPath(ds, conf.latitudeAttr);
              var lon := EvalPath(ds, conf.longitudeAttr);
              && (r == Err(PathNotFound) <==> lat.Err? || lon.Err?)
              && (r.Ok? ==> r.value.value == Arr([lat.value, lon.value]) && !r.value.warned)
    ensures r == Err(GeometryMissing) <==>
              StrategyFor(cfg, ds.fromName) == Embedded && Nullish(Attr(ds, cfg.geoJSONAttr))
  {
    match StrategyFor(cfg, ds.fromName)
    case Mapped =>
      var conf := cfg.datasources[ds.fromName];
      var lat := EvalPath(ds, conf.latitudeAttr);
      var lon := EvalPath(ds, conf.longitudeAttr);
      if lat.Err? || lon.Err? then Err(PathNotFound)
      else Ok(Coordinates(Arr([lat.value, lon.value]), Mapped, false))
    case Embedded =>
      (match Prop(Attr(ds, cfg.geoJSONAttr), "coordinates")
       case Err(_) => Err(GeometryMissing)
       case Ok(c) => Ok(Coordinates(c, Embedded, false)))
    case Flat =>
      var lon := Attr(ds, cfg.lonAttr);
      var lat := Attr(ds, cfg.latAttr);
      Ok(Coordinates(Arr([lon, lat]), Flat, !Truthy(lon) || !Truthy(lat)))
  }

  /** `addMarker`'s `L.latLng(coordinates[1], coordinates[0])`: GeoJSON order,
      longitude first. Err when the coordinates cannot be indexed; None when
      they do not form a position (the marker is skipped with a warning). */
  function FeaturePosition(coordinates: Value): (r: Result<Option<Pos>, Fault>)
    ensures r.Err? <==> Nullish(coordinates)
  {
    match At(coordinates, 1)
    case Err(e) => Err(e)
    case Ok(lat) =>
      match At(coordinates, 0)
      case Err(e) => Err(e)
      case Ok(lng) => Ok(LatLng(lat, lng))
  }

  /** Where a dataset ends up on the map when `afterAddSet` hands it to
      `addMarker`, or None when no marker is made. */
  function PlacedAt(ds: DataSet, cfg: CoordinateConfig): (r: Option<Pos>)
    ensures r.Some? ==> ResolveCoordinates(ds, cfg).Ok?
                        && FeaturePosition(ResolveCoordinates(ds, cfg).value.value).Ok?
  {
    match ResolveCoordinates(ds, cfg)
    case Err(_) => None
    case Ok(c) =>
      match FeaturePosition(c.value)
      case Err(_) => None
      case Ok(p) => p
  }

  /** Flat attributes survive the trip through GeoJSON's [longitude, latitude]
      order: the marker's latitude is the latitude attribute. */
  lemma FlatPlacesAtAttributes(ds: DataSet, cfg: CoordinateConfig, lat: int, lng: int)
    requires StrategyFor(cfg, ds.fromName) == Flat
    requires Attr(ds, cfg.latAttr) == Num(lat) && Attr(ds, cfg.lonAttr) == Num(lng)
    ensures PlacedAt(ds, cfg) == Some(Pos(lat, lng))
  {
  }

  /** Embedded GeoJSON coordinates are used verbatim, longitude first. */
  lemma EmbeddedReadsLongitudeFirst(ds: DataSet, cfg: CoordinateConfig, lng: int, lat: int, rest: seq<Value>)
    requires StrategyFor(cfg, ds.fromName) == Embedded
    requires Attr(ds, cfg.geoJSONAttr).Obj?
    requires Prop(Attr(ds, cfg.geoJSONAttr), "coordinates") == Ok(Arr([Num(lng), Num(lat)] + rest))
    ensures PlacedAt(ds, cfg) == Some(Pos(lat, lng))
  {
  }

  /** The mapped strategy stores [latitude, longitude], which `addMarker` reads
      as [longitude, latitude]: the axes come out swapped. */
  lemma MappedSourceSwapsAxes(ds: DataSet, cfg: CoordinateConfig, lat: int, lng: int)
    requires StrategyFor(cfg, ds.fromName) == Mapped
    requires EvalPath(ds, cfg.datasources[ds.fromName].latitudeAttr) == Ok(Num(lat))
    requires EvalPath(ds, cfg.datasources[ds.fromName].longitudeAttr) == Ok(Num(lng))
    ensures PlacedAt(ds, cfg) == Some(Pos(lng, lat))
  {
  }

  /** The flat strategy warns on a falsy attribute but still builds the
      feature; a missing attribute then yields no marker, while a zero
      coordinate yields a marker despite the warning. */
  lemma FlatWarningDoesNotStop(ds: DataSet, cfg: CoordinateConfig)
    requires StrategyFor(cfg, ds.fromName) == Flat
    ensures ResolveCoordinates(ds, cfg).Ok?
    ensures ResolveCoordinates(ds, cfg).value.warned
            <==> !Truthy(Attr(ds, cfg.latAttr)) || !Truthy(Attr(ds, cfg.lonAttr))
    ensures PlacedAt(ds, cfg).Some?
            <==> Attr(ds, cfg.latAttr).Num? && Attr(ds, cfg.lonAttr).Num?
  {
  }

  /** The strategies are tried in order: when a mapping is configured neither
      the GeoJSON attribute nor the flat attributes are read, so datasets that
      agree on the mapped paths are placed alike. */
  lemma MappingTakesPrecedence(a: DataSet, b: DataSet, cfg: CoordinateConfig)
    requires a.fromName == b.fromName && HasMapping(cfg, a.fromName)
    requires EvalPath(a, cfg.datasources[a.fromName].latitudeAttr)
             == EvalPath(b, cfg.datasources[a.fromName].latitudeAttr)
    requires EvalPath(a, cfg.datasources[a.fromName].longitudeAttr)
             == EvalPath(b, cfg.datasources[a.fromName].longitudeAttr)
    ensures ResolveCoordinates(a, cfg) == ResolveCoordinates(b, cfg)
  {
  }
}
