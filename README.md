# Worldmap2d marker registry and navigation plugin, modelled in Dafny

This project models two parts of the SWAC `Worldmap2d` component. Leaflet objects are kept as opaque records, and their effects are tracked as model state.

**The marker registry and map interaction toggles of `Worldmap2d`.**
- `afterAddSet` turns a dataset into a GeoJSON point by one of three coordinate strategies (`features.dfy`).
- `addMarker` places the marker, picks its icon and builds its tooltip by `{field}` substitution (`tooltip.dfy`). It normalises colour tokens (`colors.dfy`).
- `addMarker` also registers the marker in three structures that must stay in step:
  - the keyed index `markers[source][id]`;
  - the insertion-ordered `markersArray`;
  - one overlay layer per source, created on the source's first marker.
- `removeMarker` and `afterRemoveSet` undo the registration.
- `filterMarker` re-populates the layers by `type_id`.
- `rerenderIcons` recolours the markers whose colour changed.
- The two interaction flags have their enable, disable and toggle transitions, and each dispatched event is logged.
- `removeModelFile` deletes a loaded model.

All of this is in `worldmap.dfy`. The registry is a value (`Registry`) with an invariant (`RegistryValid`). Every state change of the `Worldmap` class is stated as a function of the old registry, and lemmas prove that the invariant is kept.

**The navigation plugin `NavigationSPL`** (`navigation.dfy`).
- The start, waypoint and destination slots of `navigationobj` are filled by the focused input's map click, by marker clicks and by the switch button. They are grouped with the focus as a `Form` value.
- `startNavigation` and `buildRoutingWaypoints` build the route points.
- `stopNavigation` clears the form and the route.
- `saveRoute` numbers the rows it saves.
- The menu toggle re-binds the viewer's and every keyed marker's click handler.
- The "route from data" sequencer reacts to each added dataset.

`values.dfy` holds the JavaScript values the code inspects and the rules it relies on:
- truthiness;
- property reads that throw on `undefined` or `null`;
- loose `==`;
- `L.latLng`.

## Model

| member | source | states |
|---|---|---|
| Features.EvalPath | swac/components/Worldmap2d/Worldmap2d.js:743 | a configured attribute of one segment reads that attribute of the dataset |
| Features.Follow | swac/components/Worldmap2d/Worldmap2d.js:743 | a further property read on `undefined` or `null` throws |
| Features.FollowSnoc | swac/components/Worldmap2d/Worldmap2d.js:743 | following one more property fails where the shorter chain fails, and otherwise reads that property of its value |
| Features.EvalPathSnoc | swac/components/Worldmap2d/Worldmap2d.js:743 | `set.a.b.c` is `(set.a.b).c`: a path one segment longer fails where the shorter one fails, and otherwise reads one more property |
| Features.StrategyFor | swac/components/Worldmap2d/Worldmap2d.js:740-756 | the per-source mapping applies exactly when both attributes are configured; the GeoJSON attribute applies exactly when there is no mapping and it is set; otherwise the flat attributes apply |
| Features.ResolveCoordinates | swac/components/Worldmap2d/Worldmap2d.js:738-756 | coordinates come from the strategy in force; the flat strategy always succeeds and is the only one that warns; under the mapping the result fails exactly when the latitude or the longitude path throws, and otherwise holds `[latitude value, longitude value]` without a warning; an unreadable mapped path fails only under the mapping; a missing GeoJSON attribute fails exactly under the embedded strategy |
| Features.FeaturePosition | swac/components/Worldmap2d/Worldmap2d.js:793-798 | reading the coordinates throws exactly when they are `undefined`/`null` |
| Features.PlacedAt | swac/components/Worldmap2d/Worldmap2d.js:736-798 | a dataset gets a marker position only when its coordinates resolve and can be indexed |
| Features.FlatPlacesAtAttributes | swac/components/Worldmap2d/Worldmap2d.js:751-755 | with flat attributes the marker's latitude is the latitude attribute, despite the [longitude, latitude] storage order |
| Features.EmbeddedReadsLongitudeFirst | swac/components/Worldmap2d/Worldmap2d.js:749-750 | embedded GeoJSON coordinates are read longitude first |
| Features.MappedSourceSwapsAxes | swac/components/Worldmap2d/Worldmap2d.js:741-743 | a mapped source stores [latitude, longitude], so its marker stands at (longitude, latitude) |
| Features.FlatWarningDoesNotStop | swac/components/Worldmap2d/Worldmap2d.js:751-756 | the flat strategy warns exactly when an attribute is falsy but builds the feature anyway; a marker results exactly when both attributes are numbers |
| Features.MappingTakesPrecedence | swac/components/Worldmap2d/Worldmap2d.js:740-748 | with a mapping, only the mapped paths decide the coordinates |
| Colors.FindFirst | swac/components/Worldmap2d/Worldmap2d.js:820-822 | `replace` with a string pattern acts at the first occurrence: the index found holds the pattern and no earlier index does; None exactly when it occurs nowhere |
| Colors.ReplaceFirst | swac/components/Worldmap2d/Worldmap2d.js:820-822 | only the first occurrence is replaced, the text around it is kept, and a string without the pattern is unchanged |
| Colors.MarkerColor | swac/components/Worldmap2d/Worldmap2d.js:816-822 | `addMarker`'s colour is the data description's colour with `#`, `GREY` and `808080` each replaced once; a colour with none of their first characters is used as it is |
| Colors.Upper | swac/components/Worldmap2d/Worldmap2d.js:1363 | upper-casing keeps the length and every non-letter, and turns each lower-case letter into the same letter in upper case |
| Colors.RerenderColor | swac/components/Worldmap2d/Worldmap2d.js:1357-1363 | the colour `rerenderIcons` derives contains no lower-case letter |
| Colors.StripHash | swac/components/Worldmap2d/Worldmap2d.js:820 | the first `replace` removes a leading `#` |
| Colors.MarkerOfHash | swac/components/Worldmap2d/Worldmap2d.js:816-822 | for `#h` without `G`, `addMarker`'s colour is `h` with the grey hex replaced |
| Colors.RerenderOfHash | swac/components/Worldmap2d/Worldmap2d.js:1357-1363 | for `#h` without `G` other than `#808080`, `rerenderIcons`'s colour is `h` upper-cased |
| Colors.GreySynonyms | swac/components/Worldmap2d/Worldmap2d.js:1357-1362 | `#808080` and `GREY` both become `7B7B7B`, in `addMarker` and in `rerenderIcons` |
| Colors.UpperHexUnchanged | swac/components/Worldmap2d/Worldmap2d.js:1357-1363 | `#` plus six upper-case hex digits (not the grey hex) yields those digits in both paths |
| Colors.UpperHexColorsAgree | swac/components/Worldmap2d/Worldmap2d.js:1364-1367 | for upper-case hex colours both paths agree, so a re-render keeps `addMarker`'s icon |
| Colors.LowerHexColorsDiffer | swac/components/Worldmap2d/Worldmap2d.js:819-822 | for `#` plus six lower-case hex digits with a letter among them, `addMarker` keeps the digits as they are while `rerenderIcons` upper-cases them, so the two colours differ |
| Tooltip.CloseBrace | swac/components/Worldmap2d/Worldmap2d.js:847 | a placeholder closes at the first `}`, with no line terminator before it |
| Tooltip.Substitute | swac/components/Worldmap2d/Worldmap2d.js:847-848 | the global replace of `/\{(.*?)\}/g`; its meaning is stated by SubstituteLiteral, SubstitutePlaceholder and SubstituteFills |
| Tooltip.HasTooltipData | swac/components/Worldmap2d/Worldmap2d.js:841 | a tooltip is made only for a dataset whose `name`, `title` or `icon` is truthy |
| Tooltip.SubstituteLiteral | swac/components/Worldmap2d/Worldmap2d.js:847-848 | text without `{` is copied unchanged |
| Tooltip.SubstitutePlaceholder | swac/components/Worldmap2d/Worldmap2d.js:847-848 | `{name}` is replaced by the looked-up value, or by nothing when it is null |
| Tooltip.SubstituteFills | swac/components/Worldmap2d/Worldmap2d.js:847-848 | on a well-formed template, substitution equals the reference fill: literals kept, every placeholder replaced, in order |
| Tooltip.PlainTemplateIsVerbatim | swac/components/Worldmap2d/Worldmap2d.js:848 | a template without placeholders is shown as is |
| Tooltip.NameExample | swac/components/Worldmap2d/Worldmap2d.js:847-848 | `<b>{name}</b>` becomes `<b>X</b>`, or `<b></b>` when the name is null |
| Tooltip.TooltipText | swac/components/Worldmap2d/Worldmap2d.js:841-849 | no tooltip without name, title or icon; otherwise the source's template, else `default`; a throw exactly when neither exists |
| Worldmap2d.IndexOf | swac/components/Worldmap2d/Worldmap2d.js:948 | `indexOf` is -1 exactly when absent, else the first occurrence |
| Worldmap2d.RemoveFirst | swac/components/Worldmap2d/Worldmap2d.js:948-949 | a marker that is not listed leaves the list unchanged, and the splice never adds a marker |
| Worldmap2d.RemoveFirstCount | swac/components/Worldmap2d/Worldmap2d.js:948-949 | the splice removes one occurrence when present, and nothing when absent |
| Worldmap2d.RemoveFirstKeepsOthers | swac/components/Worldmap2d/Worldmap2d.js:948-949 | no other marker is removed from the list |
| Worldmap2d.RemoveFirstDistinct | swac/components/Worldmap2d/Worldmap2d.js:948-949 | a repeat-free list stays repeat-free and loses the marker |
| Worldmap2d.Filtered | swac/components/Worldmap2d/Worldmap2d.js:1140-1154 | filtering keeps the set of layers |
| Worldmap2d.FilteredIsClearThenShow | swac/components/Worldmap2d/Worldmap2d.js:1141-1153 | the filtered layers are the cleared layers plus each shown keyed marker in its own source's layer |
| Worldmap2d.FilterIdempotent | swac/components/Worldmap2d/Worldmap2d.js:1140-1154 | filtering twice by the same type equals filtering once |
| Worldmap2d.FilterNullRestoresAll | swac/components/Worldmap2d/Worldmap2d.js:1142-1147 | a null type shows every keyed marker in its layer; any type shows a subset of that |
| Worldmap2d.ShowAmong | swac/components/Worldmap2d/Worldmap2d.js:1149-1153 | the re-adding loop puts exactly the shown markers into their layers |
| Worldmap2d.Recolor | swac/components/Worldmap2d/Worldmap2d.js:1364-1377 | re-colouring changes only the icon (dataset, position, handlers and a pin's tooltip are kept), afterwards the marker has the colour, and a marker whose icon already has the colour is left as it is |
| Worldmap2d.Recolored | swac/components/Worldmap2d/Worldmap2d.js:1351-1381 | re-rendering keeps the set of markers |
| Worldmap2d.RerenderStable | swac/components/Worldmap2d/Worldmap2d.js:1364-1367 | after a re-render no visited marker needs a new icon, so a second re-render with the same colours changes nothing |
| Worldmap2d.RecolorAmong | swac/components/Worldmap2d/Worldmap2d.js:1352-1379 | the loop yields the re-rendered markers |
| Worldmap2d.Rebound | swac/components/Worldmap2d/plugins/Navigation/NavigationSPL.js:766-772 | re-binding a click handler keeps every marker's dataset, position and shape |
| Worldmap2d.SwapBackRestores | swac/components/Worldmap2d/plugins/Navigation/NavigationSPL.js:761-786 | swapping in the navigation marker handler and back restores markers that had the default handler |
| Worldmap2d.KeyedAreListed | swac/components/Worldmap2d/Worldmap2d.js:857-872 | under the invariant every keyed marker is in `markersArray` and its source has a layer |
| Worldmap2d.Register | swac/components/Worldmap2d/Worldmap2d.js:857-872 | registration takes the next marker identity and records the marker under it; at most that marker joins the keyed markers; it is appended to `markersArray`; it takes its dataset's keyed slot and every other slot keeps its marker; its source's layer (the existing one, else the new one) gains it and every other layer is unchanged |
| Worldmap2d.RegisterKeepsKeyed | swac/components/Worldmap2d/Worldmap2d.js:857-860 | after registration every keyed slot still holds a listed marker of that very dataset |
| Worldmap2d.RegisterKeepsValid | swac/components/Worldmap2d/Worldmap2d.js:857-872 | registering a new marker keeps the registry invariant |
| Worldmap2d.RegisterDisplaces | swac/components/Worldmap2d/Worldmap2d.js:860-861 | re-adding a key overwrites the keyed slot; the displaced marker stays in `markersArray` but is no longer keyed |
| Worldmap2d.Unregister | swac/components/Worldmap2d/Worldmap2d.js:944-950 | removal forgets no marker record and reuses no identity, and keeps the set of sources in the index and in the layers; the marker's dataset slot is deleted and every other slot keeps its marker; the marker leaves its source's layer, whose other members stay, and every other layer is unchanged |
| Worldmap2d.UnregisterClearsSlot | swac/components/Worldmap2d/Worldmap2d.js:946 | the keyed markers lose exactly the marker the dataset's slot held, if any: removing a displaced marker unkeys the newer marker that displaced it |
| Worldmap2d.UnregisterKeepsValid | swac/components/Worldmap2d/Worldmap2d.js:944-950 | removing a marker keeps the registry invariant |
| Worldmap2d.UnregisterForgets | swac/components/Worldmap2d/Worldmap2d.js:944-950 | a removed marker is no longer listed, keyed or in its layer; the keyed markers shrink by exactly it |
| Worldmap2d.FilterKeepsValid | swac/components/Worldmap2d/Worldmap2d.js:1140-1154 | filtering keeps the registry invariant |
| Worldmap2d.RecolorKeepsValid | swac/components/Worldmap2d/Worldmap2d.js:1351-1381 | re-rendering keeps the registry invariant |
| Worldmap2d.ReboundKeepsValid | swac/components/Worldmap2d/plugins/Navigation/NavigationSPL.js:761-786 | re-binding handlers keeps the registry invariant |
| Worldmap2d.Worldmap.constructor | swac/components/Worldmap2d/Worldmap2d.js:515-536 | empty registry, both interaction flags on, the map click bound, and the option defaults for the coordinate attributes and the tooltip template |
| Worldmap2d.Worldmap.ChosenIcon | swac/components/Worldmap2d/Worldmap2d.js:810-836 | with a data description the icon is the one of the dataset's colour; otherwise, when the feature has properties, the visited icon exactly when `properties.completed == true` and the unvisited icon else; without properties the icon passed in |
| Worldmap2d.Worldmap.Placement | swac/components/Worldmap2d/Worldmap2d.js:789-798 | where `addMarker` places the feature: nothing without a geometry or when the coordinates make no position |
| Worldmap2d.Worldmap.NewMarker | swac/components/Worldmap2d/Worldmap2d.js:799-854 | the new marker shows the feature's dataset at the position, has only the map's marker click bound, and is a circle exactly when circle markers are configured; a pin carries the chosen icon (the shared icon when none is chosen and the shared marker options are in use) and the tooltip text `TooltipText` gives |
| Worldmap2d.Worldmap.AddThrows | swac/components/Worldmap2d/Worldmap2d.js:794-848 | `addMarker` throws exactly when the coordinates cannot be indexed, or when a pin for a dataset with tooltip data finds no template |
| Worldmap2d.Worldmap.AddMarker | swac/components/Worldmap2d/Worldmap2d.js:788-875 | returns quietly without a geometry or position, throws exactly as AddThrows says, and registers a marker exactly when the feature has a position and (for pins) a tooltip template exists; the new registry is the old one with it registered; otherwise the registry is unchanged; the invariant is kept |
| Worldmap2d.Worldmap.Enroll | swac/components/Worldmap2d/Worldmap2d.js:857-872 | keyed slot, list and layer are updated together, keeping the invariant |
| Worldmap2d.Worldmap.RemoveMarker | swac/components/Worldmap2d/Worldmap2d.js:944-950 | the registry after removal is the old one with the marker unregistered, and the invariant is kept |
| Worldmap2d.Worldmap.AfterRemoveSet | swac/components/Worldmap2d/Worldmap2d.js:775-778 | a TypeError, with nothing changed, exactly when no marker is keyed for the dataset; otherwise the slot is emptied, the keyed markers shrink by that marker, and the registry is the old one with it unregistered |
| Worldmap2d.Worldmap.AfterAddSet | swac/components/Worldmap2d/Worldmap2d.js:736-768 | an unreadable mapped path ends the call quietly; a missing GeoJSON attribute or a throw of `addMarker` ends it with a TypeError; `super.afterAddSet` is reached exactly when neither happens; a marker is made exactly when the dataset has a position (and a template, for pins); then it is keyed by the dataset, appended to the list, in its layer, and at that position |
| Worldmap2d.Worldmap.FeatureOf | swac/components/Worldmap2d/Worldmap2d.js:738-759 | the feature `afterAddSet` builds, or why it stops before `addMarker` |
| Worldmap2d.Worldmap.FilterMarker | swac/components/Worldmap2d/Worldmap2d.js:1140-1154 | the layers become the filtered layers; the keyed index and the list are untouched |
| Worldmap2d.Worldmap.ClearLayers | swac/components/Worldmap2d/Worldmap2d.js:1141 | every layer is emptied |
| Worldmap2d.Worldmap.ShowKeyed | swac/components/Worldmap2d/Worldmap2d.js:1142-1153 | every keyed marker the filter shows is added to its source's layer |
| Worldmap2d.Worldmap.RerenderIcons | swac/components/Worldmap2d/Worldmap2d.js:1351-1381 | every keyed pin gets the icon of its current colour unless it already has it; the invariant is kept |
| Worldmap2d.Worldmap.ToggleMapClickInteraction | swac/components/Worldmap2d/Worldmap2d.js:1187-1189 | the flag flips, and the matching event is logged |
| Worldmap2d.Worldmap.DisableMapClickInteraction | swac/components/Worldmap2d/Worldmap2d.js:1194-1198 | flag off, every viewer click handler unbound, the event logged even when already off |
| Worldmap2d.Worldmap.EnableMapClickInteraction | swac/components/Worldmap2d/Worldmap2d.js:1203-1207 | flag on, the map click bound, the event logged even when already on |
| Worldmap2d.Worldmap.DisableMapInteractions | swac/components/Worldmap2d/Worldmap2d.js:1212-1226 | both flags off, both events logged in order |
| Worldmap2d.Worldmap.EnableMapInteractions | swac/components/Worldmap2d/Worldmap2d.js:1231-1245 | both flags on, both events logged in order |
| Worldmap2d.Worldmap.RemoveModelFile | swac/components/Worldmap2d/Worldmap2d.js:1028-1040 | the first loaded model with that name is deleted, leaving a hole; nothing changes when there is none |
| Worldmap2d.InsertThenRemove | swac/components/Worldmap2d/Worldmap2d.js:736-778 | for pins with a template or for circle markers, adding a dataset and removing it again leaves no marker keyed or listed and its layer empty, and a second removal throws |
| Navigation.CompleteWaypoints | swac/components/Worldmap2d/plugins/Navigation/NavigationSPL.js:673-677 | only complete waypoints (neither coordinate `=== null`) are kept, and only waypoints that were there |
| Navigation.CompleteConcat | swac/components/Worldmap2d/plugins/Navigation/NavigationSPL.js:673-677 | the filter distributes over concatenation, so it keeps the waypoints' order |
| Navigation.CompleteKeepsComplete | swac/components/Worldmap2d/plugins/Navigation/NavigationSPL.js:673-677 | every complete waypoint is kept; all complete means all kept; none complete means none kept |
| Navigation.CompletePoints | swac/components/Worldmap2d/plugins/Navigation/NavigationSPL.js:516-520 | the waypoint loop yields exactly the complete waypoints in order |
| Navigation.RoutePoints | swac/components/Worldmap2d/plugins/Navigation/NavigationSPL.js:659-690 | a route holds the set ends and the complete waypoints, and only those points |
| Navigation.RouteEnds | swac/components/Worldmap2d/plugins/Navigation/NavigationSPL.js:505-532 | a route between start and destination has at least two points, starts at the start, ends at the destination, and passes the complete waypoints in between |
| Navigation.RouteWithoutEnds | swac/components/Worldmap2d/plugins/Navigation/NavigationSPL.js:659-690 | without start and destination the route points are only the complete waypoints; with one end set, that end is added before or after them |
| Navigation.Describe | swac/components/Worldmap2d/plugins/Navigation/NavigationSPL.js:733-738 | row 0 is `Startpunkt`; the last row after it is `Zielpunkt`; the others are `Zwischenstopp` with their own index |
| Navigation.RouteRows | swac/components/Worldmap2d/plugins/Navigation/NavigationSPL.js:727-740 | one row per point |
| Navigation.SavedRows | swac/components/Worldmap2d/plugins/Navigation/NavigationSPL.js:712-740 | saved rows are numbered 0..n-1: start as `Startpunkt`, complete waypoint k as `Zwischenstopp k`, destination as `Zielpunkt`, each with the point's longitude and latitude |
| Navigation.Clicked | swac/components/Worldmap2d/plugins/Navigation/NavigationSPL.js:249-312 | a map click keeps the focus consistent |
| Navigation.ClickFillsFocused | swac/components/Worldmap2d/plugins/Navigation/NavigationSPL.js:249-312 | with a consistent focus a click fills exactly the focused slot and clears the focus; with no focus nothing changes |
| Navigation.StaleWaypointIgnored | swac/components/Worldmap2d/plugins/Navigation/NavigationSPL.js:272-276 | with waypoint focus but no existing waypoint at the index, a click changes nothing |
| Navigation.Picked | swac/components/Worldmap2d/plugins/Navigation/NavigationSPL.js:313-331 | a marker click touches only start and destination |
| Navigation.PickNeverOverwrites | swac/components/Worldmap2d/plugins/Navigation/NavigationSPL.js:313-331 | a marker click never overwrites a set slot and fills the start first; two clicks on an empty form fill start then destination |
| Navigation.Switched | swac/components/Worldmap2d/plugins/Navigation/NavigationSPL.js:228-235 | start and destination are exchanged, nothing else changes |
| Navigation.SwitchTwice | swac/components/Worldmap2d/plugins/Navigation/NavigationSPL.js:228-235 | switching twice is the identity |
| Navigation.WithWaypoint | swac/components/Worldmap2d/plugins/Navigation/NavigationSPL.js:338-377 | after `addWaypointInput` the new waypoint's input has the focus, so the focus is consistent |
| Navigation.NewWaypointIsEmpty | swac/components/Worldmap2d/plugins/Navigation/NavigationSPL.js:338-342 | exactly one `{lat: null, lng: null}` is appended at the old length, other waypoints and both ends are unchanged, and the route is unaffected |
| Navigation.NewWaypointTakesClick | swac/components/Worldmap2d/plugins/Navigation/NavigationSPL.js:338-377 | whichever input had the focus before, the next map click fills exactly the new waypoint and leaves start and destination alone |
| Navigation.SetPoint | swac/components/Worldmap2d/plugins/Navigation/NavigationSPL.js:419-430 | reading a segment end throws exactly when a GeoJSON attribute is configured and the attribute or its coordinates are missing |
| Navigation.SegmentEndIsMarkerPosition | swac/components/Worldmap2d/plugins/Navigation/NavigationSPL.js:419-430 | for a source without a mapping a segment ends where the dataset's marker stands |
| Navigation.SegmentIgnoresMapping | swac/components/Worldmap2d/plugins/Navigation/NavigationSPL.js:428-430 | for a mapped source the segment reads the flat attributes, not the mapping |
| Navigation.ReboundAmong | swac/components/Worldmap2d/plugins/Navigation/NavigationSPL.js:766-772 | the nested loop re-binds exactly the keyed markers |
| Navigation.NavigationPlugin.constructor | swac/components/Worldmap2d/plugins/Navigation/NavigationSPL.js:31-114 | option defaults (saving switched off without a route id generator) and an empty form, no route, menu closed |
| Navigation.NavigationPlugin.FocusStart | swac/components/Worldmap2d/plugins/Navigation/NavigationSPL.js:205-210 | the start input takes the focus and the waypoint index is cleared |
| Navigation.NavigationPlugin.FocusDestination | swac/components/Worldmap2d/plugins/Navigation/NavigationSPL.js:211-216 | the destination input takes the focus and the waypoint index is cleared |
| Navigation.NavigationPlugin.FocusWaypoint | swac/components/Worldmap2d/plugins/Navigation/NavigationSPL.js:354-357 | the waypoint input takes the focus with its index |
| Navigation.NavigationPlugin.HandleClick | swac/components/Worldmap2d/plugins/Navigation/NavigationSPL.js:249-312 | the form becomes the clicked form, and a consistent focus stays consistent |
| Navigation.NavigationPlugin.HandleMarkerClick | swac/components/Worldmap2d/plugins/Navigation/NavigationSPL.js:313-331 | the form becomes the picked form at the marker's position |
| Navigation.NavigationPlugin.SwitchStartDestination | swac/components/Worldmap2d/plugins/Navigation/NavigationSPL.js:228-235 | start and destination are exchanged |
| Navigation.NavigationPlugin.AddWaypointInput | swac/components/Worldmap2d/plugins/Navigation/NavigationSPL.js:338-378 | the new waypoint's index is the old length, one empty waypoint is appended, and its input takes the focus |
| Navigation.NavigationPlugin.StartNavigation | swac/components/Worldmap2d/plugins/Navigation/NavigationSPL.js:470-598 | nothing happens without start or destination; otherwise the route is the route points (at least two), with one pulse marker per complete waypoint and one on the destination |
| Navigation.NavigationPlugin.StopNavigation | swac/components/Worldmap2d/plugins/Navigation/NavigationSPL.js:603-652 | form, route and pulse markers are cleared; the result does not depend on the prior state, so a second call changes nothing |
| Navigation.NavigationPlugin.BuildRoutingWaypoints | swac/components/Worldmap2d/plugins/Navigation/NavigationSPL.js:659-690 | the points are the start if set, then the complete waypoints in order, then the destination if set |
| Navigation.NavigationPlugin.SaveRoute | swac/components/Worldmap2d/plugins/Navigation/NavigationSPL.js:697-740 | nothing is saved unless saving is enabled and a target is set; a missing start or destination throws; otherwise the rows of the route points go to the target |
| Navigation.NavigationPlugin.ToggleMenu | swac/components/Worldmap2d/plugins/Navigation/NavigationSPL.js:457-465 | the menu flag flips and the click bindings follow it; the registry invariant is kept |
| Navigation.NavigationPlugin.OverwriteLeafletEvents | swac/components/Worldmap2d/plugins/Navigation/NavigationSPL.js:761-786 | open: viewer and every keyed marker use the navigation handlers instead of the map's; closed: the reverse |
| Navigation.NavigationPlugin.AfterAddSet | swac/components/Worldmap2d/plugins/Navigation/NavigationSPL.js:380-452 | no effect when off; the first dataset is only remembered; routing mode routes from the remembered dataset without advancing it; line mode advances it and draws a segment only for the same measurement process and two valid points; a throw changes nothing |
| Navigation.ToggleTwiceRestores | swac/components/Worldmap2d/plugins/Navigation/NavigationSPL.js:761-786 | opening and closing the menu on default bindings restores them |
| Navigation.RoutesFromFirst | swac/components/Worldmap2d/plugins/Navigation/NavigationSPL.js:385-410 | in routing mode every later dataset is routed from the first one |

The per-source attribute mapping stores `[latitude, longitude]` (`Worldmap2d.js:743`), and `addMarker` reads that array as `[longitude, latitude]` (`Worldmap2d.js:794`). The model follows the code as written: `Features.MappedSourceSwapsAxes` proves that the axes come out swapped.

## Left out

- Leaflet itself is not modelled: map and tile construction, controls, clustering, drawing, and the routing engine's result and instructions. Markers, layers and routing controls are records.
- `L.latLng` is modelled as making a position only from two numbers, and returning nothing otherwise (the marker is skipped quietly). Leaflet also makes a position when the longitude is `null` (read as 0), when a part is a numeric or empty string, or when a part is a boolean (read as 0 or 1); it also makes one from a two- or three-element array, or an object with a `lat` property, passed as the first argument; and it throws on non-numeric text. So the "exactly" claims of `Worldmap2d.Worldmap.AddThrows`, `Worldmap2d.Worldmap.AddMarker` and the second ensures of `Features.FlatWarningDoesNotStop` hold for this model of `L.latLng` only.
- Numbers are whole numbers: coordinates are opaque and no arithmetic is done on them. Float formatting of `POINT(lng lat)` and of input values is left out. A row keeps the longitude and latitude values themselves.
- Loose `==` does not coerce between strings and numbers.
- `toUpperCase` is modelled on ASCII letters only.
- Tooltip.Substitute: the lookup's `None` stands for `getDataValue` returning `null`, which becomes the empty string. A lookup that returns `undefined` would print `undefined`; that case is not modelled.
- `getDataValue` (in the `View` base class, which is not part of this model) and the data description's `getValueColor` are parameters of the model.
- The route id of `saveRoute` is a parameter: it is what the generator function or the clock produces. The call to `Model.save` and its notifications are left out.
- Network and persistence are left out (HTTP). This covers geocoding from the start, destination and waypoint input `change` handlers; `loadModelFile(s)`; and `loadDatasourcesFromOptions`.
- Some form updates outside the map clicks are not modelled: the user-location button, which copies the last received position into the start slot, and the empty-value branches of the start and destination `change` handlers, which set that slot to `null` at once.
- DOM effects are left out: input values, menu display, cursor styles, the `routeselected` instructions table, URL-parameter zoom, `zoomToSet`, and `Msg` logging.
- `addArea`/`removeArea` are left out.
- Worldmap2d.Worldmap.AfterAddSet: `super.afterAddSet(set)` (in the `View` base class) is not modelled beyond whether it is reached.
- Worldmap2d.Worldmap.RemoveModelFile: erasing the model from the viewer is not modelled; only the deletion from the model list is.
- Worldmap2d.Worldmap.RerenderIcons: requires a linked data description, and circle markers are left alone. In the source, a circle marker has no icon option, so reading its colour throws.
- Features.EvalPath: the per-source `eval` is modelled for dot-separated property names only, as property reads along the path. Bracket indexing and other JavaScript in the configured text are not modelled, and a property read on an array (`Prop` on `Arr`) gives `undefined`, so `length` is not modelled.
- Worldmap2d.Worldmap.AddMarker: the layer-control entry is not modelled.
- Worldmap2d.Worldmap.FilterMarker: a marker holds a copy of its dataset, taken when the marker was added, where the source keeps a reference to the dataset so that outside changes reach the marker. Filtering by `type_id` therefore sees the dataset as it was when the marker was added.
- Worldmap2d.Worldmap.RerenderIcons: for the same reason, the colour is looked up for the dataset as it was when the marker was added; later outside changes to the dataset are not seen.
- Iteration order over sources and sparse arrays is taken as an arbitrary order. The loops' results do not depend on it.
- Navigation.NavigationPlugin.StartNavigation: the removal of the old route and pulse markers from the map is modelled as their replacement. The guard `route.length < 2` is not written, because it can never fire.
- Navigation.NavigationPlugin.FocusWaypoint: requires an existing waypoint index. The `focusin` listener exists only on inputs that `addWaypointInput` created, and `stopNavigation` removes those inputs.
- The plugin options `minDistanceBetweenTwoPoints`, `searchurl`, `datapointDensity` and `travelmode` are not read by the modelled code and are left out. So are `name2Coordinates`, `coordinates2Name`, the distance and bearing computations, and the unused `setNavigationTargetObject`, `drawConnectionLine`, `drawRoute` and `getRoute`.
