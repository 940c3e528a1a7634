# OneBusAway iOS: map annotations, agency decoding and the regions service, in Dafny

This project models three small parts of the OneBusAway iOS app and proves what they promise.

- **Map view extensions** (`map_kit.dfy`, module `MapKit`). `updateAnnotations(with:)` reconciles the installed annotations of one class with a new batch. It removes only those that disappeared and adds only those that are new. `removeAllAnnotations(excludeUserLocation:)` clears the map. `setCenterCoordinate` clamps the zoom level to 28. `reuseIdentifier(for:)` names annotation-view classes by their unqualified type name, so two same-named classes declared in different modules or enclosing types share an identifier, and registering one replaces the other's registration. The map view is a class whose annotations form a set of values tagged with their class name.
- **Agency decoding** (`agency.dfy`, module `AgencyDecoding`). `Agency.init(from:)` is a pure function from a JSON value to `Result<Agency, DecodeError>`. Eight keys are required: a missing key, a `null` or a wrongly typed value fails. `email` and `fareUrl` are read with `try?`, so a problem with them only yields `nil`. Blank strings become `nil` for `disclaimer` and `email` only. Five properties are read from renamed wire keys: `lang`, `fareUrl`, `privateService`, `timezone` and `url`. URL parsing and `ModelHelpers.nilifyBlankValue`'s blank test are passed in as functions, so their exact rules stay open.
- **Regions service** (`regions.dfy`, module `Regions`; `regions_service_tests.dfy`, module `RegionsServiceTests`). The service's own source is not part of this model. Its behaviour is the one `RegionsServiceTests.swift` asserts:
  - it loads the stored regions list, or falls back to the 12 bundled regions;
  - it loads the stored current region, unless automatic selection (on by default) finds the region covering the user's location;
  - it downloads the list when the list was never downloaded or is at least a week old, or when the update is forced; otherwise it reports a cancelled update;
  - a successful download replaces the list wholesale and stores it.

  The behaviour is stated twice. Pure functions over a `ServiceState` value are the specification. The `RegionsService` class works on fields and a shared `UserDefaults` object, and each of its methods is proved to match the function for its step. The test delegate is a class too. Its four callback lists are fields, and each delegate method runs a loop that fires its list. Each test becomes a lemma. `PersistenceThroughService` replays `test_persistence` on the objects.

Modelling choices:
- Time is an integer count of seconds passed in by the caller.
- Selecting the region that covers a location is a function passed in by the caller.
- The download is asynchronous, so it takes two steps. A request marks a fetch as in flight. A later completion step carries the injected fetch result. A request made while a fetch is in flight starts no second fetch.
- Delegate calls are recorded, in order, in a `notifications` log. A callback is an identifier, and firing it appends the identifier to the delegate's `fired` log.

The code and its documentation disagree on `removeAllAnnotations`. Its doc comment (MapKitExtensions.swift:69-70) says `true` keeps the user-location marker. The code (line 72) removes every annotation when the flag is `true`, and keeps the marker only when it is `false`. The model follows the code, and `ExcludeUserLocationIsInverted` states the difference.

Automatic selection does not spare a stored current region. `test_init_loadsCurrentRegion_autoSelectEnabled` expects the location's region to replace a different stored one, and the model follows the test.

## Model

| member | source | states |
|---|---|---|
| MapKit.Reconcile | OBAKit/Extensions/MapKitExtensions.swift:53-63 | removed ⊆ old annotations of the class, added ⊆ new ones; overlap, removed and added are pairwise disjoint; everything in both sets lands in the overlap; removing and adding turns the old set into exactly the new one |
| MapKit.UpdateInstallsExactly | OBAKit/Extensions/MapKitExtensions.swift:53-66 | after `updateAnnotations(with:)` the installed annotations of the class are exactly `Set(newAnnotations)` |
| MapKit.UpdateKeepsOtherClasses | OBAKit/Extensions/MapKitExtensions.swift:53-66 | an annotation of another class is on the map after the update iff it was before |
| MapKit.UpdateKeepsOverlap | OBAKit/Extensions/MapKitExtensions.swift:57-63 | an annotation both installed and new is neither removed nor re-added, and stays on the map |
| MapKit.UpdateIgnoresDuplicates | OBAKit/Extensions/MapKitExtensions.swift:54 | two arrays with the same elements give the same plan; repeating the array changes nothing |
| MapKit.UpdateIsIdempotent | OBAKit/Extensions/MapKitExtensions.swift:57-66 | a second update with the same input removes nothing, adds nothing and leaves the map as it was |
| MapKit.AnnotationsToRemove | OBAKit/Extensions/MapKitExtensions.swift:71-73 | with `true` every annotation is removed; with `false` exactly the annotations that are not the user-location marker |
| MapKit.RemoveAllLeaves | OBAKit/Extensions/MapKitExtensions.swift:71-74 | what remains after `removeAllAnnotations` is nothing (`true`) or exactly the user-location markers (`false`) |
| MapKit.ExcludeUserLocationIsInverted | OBAKit/Extensions/MapKitExtensions.swift:69-73 | an installed user-location marker is removed with `true` and kept with `false`, the opposite of the doc comment |
| MapKit.ClampedZoomLevel | OBAKit/Extensions/MapKitExtensions.swift:81-82 | the effective zoom is never above 28, equals the input when that is at most 28, and is 28 otherwise |
| MapKit.SameNameSameIdentifier | OBAKit/Extensions/MapKitExtensions.swift:44-46 | two view classes share a reuse identifier iff their unqualified names agree, whatever module or enclosing type declares them |
| MapKit.SameNamedRegistrationReplaces | OBAKit/Extensions/MapKitExtensions.swift:36-46 | registering a same-named class declared elsewhere replaces the first class's registration |
| MapKit.MapView.RegisterAnnotationView | OBAKit/Extensions/MapKitExtensions.swift:36-38 | the class is registered under its reuse identifier; registrations under other identifiers are kept |
| MapKit.MapView.UpdateAnnotations | OBAKit/Extensions/MapKitExtensions.swift:52-67 | the map after the call is the old map minus `removed` plus `added`; its annotations of the class equal the new set; other classes are untouched |
| MapKit.MapView.RemoveAllAnnotations | OBAKit/Extensions/MapKitExtensions.swift:71-74 | the map loses exactly `AnnotationsToRemove`: everything with `true` (the default), all but the user-location markers with `false` |
| MapKit.MapView.SetCenterCoordinate | OBAKit/Extensions/MapKitExtensions.swift:80-89 | the new region is centred on the coordinate with the clamped zoom level, never above 28 |
| AgencyDecoding.KeyForWireName | Models/REST/References/Agency.swift:23-34 | a wire name maps back to a coding key only if that key's wire name is this string |
| AgencyDecoding.WireNamesRoundTrip | Models/REST/References/Agency.swift:23-34 | every coding key is recovered from its wire name (`lang`, `fareUrl`, `privateService`, `timezone`, `url` and the unrenamed ones), so no two keys share a wire name |
| AgencyDecoding.NilifyBlank | Models/REST/References/Agency.swift:39-40 | the result is present iff the input is present and not blank, and then equals it |
| AgencyDecoding.Decode | Models/REST/References/Agency.swift:36-50 | succeeds iff the input is an object whose eight required fields are present with the right kind; on success the agency is the one the wire fields describe, read from the renamed keys; a non-object fails as not keyed; any other failure names a required key |
| AgencyDecoding.MissingRequiredKeyFails | Models/REST/References/Agency.swift:39-49 | an absent required key makes decoding fail |
| AgencyDecoding.WrongTypedRequiredKeyFails | Models/REST/References/Agency.swift:39-49 | a required key holding `null` or a value of the wrong kind makes decoding fail |
| AgencyDecoding.DecodedValuesAreVerbatim | Models/REST/References/Agency.swift:39-49 | `id`, `language`, `name`, `phone`, `timeZone` are copied verbatim, blank or not; `disclaimer` is nil iff blank and verbatim otherwise |
| AgencyDecoding.MissingDisclaimerIsReportedFirst | Models/REST/References/Agency.swift:39 | a missing disclaimer is the error reported, whatever else is wrong, since it is decoded first |
| AgencyDecoding.EmailNeverFails | Models/REST/References/Agency.swift:40 | success does not depend on `email`; a missing or non-string email decodes to nil |
| AgencyDecoding.FareURLNeverFails | Models/REST/References/Agency.swift:41 | success does not depend on `fareUrl`; a missing or unparsable one decodes to nil |
| AgencyDecoding.DecodeEncode | Models/REST/References/Agency.swift:23-50 | decoding the wire object of any agency decoding can produce gives that agency back |
| Regions.AutomaticallySelectRegion | OBAKitTests/Location/RegionsServiceTests.swift:101-125 | automatic selection is off only when `false` is stored under its key; unset means on |
| Regions.WithCurrentRegion | OBAKitTests/Location/RegionsServiceTests.swift:122-124 | the new current region is set (asserted by the test), stored under the current-region key and announced (assumed, not asserted by the tests); list and fetch state unchanged |
| Regions.DueAfterAWeek | OBAKitTests/Location/RegionsServiceTests.swift:127-169 | a list stored with download time `t` is due for download iff at least a week (604800 s) has passed since `t` |
| Regions.DueListStaysDue | OBAKitTests/Location/RegionsServiceTests.swift:127-169 | once the list is due it stays due as time passes |
| Regions.UpdateGate | OBAKitTests/Location/RegionsServiceTests.swift:149-190 | on an idle service, `updateRegionsList(forceUpdate:)` starts exactly one download iff forced or the list is due; otherwise it cancels and the delegate hears `regionsServiceListUpdateCancelled`; the list, current region and stored keys are unchanged either way |
| Regions.UpdateRequested | OBAKitTests/Location/RegionsServiceTests.swift:160-167 | an update request only appends to the delegate calls already made |
| Regions.FetchCompleted | OBAKitTests/Location/RegionsServiceTests.swift:145-146 | a completed download only appends to the delegate calls already made |
| Regions.InitStartsFetchWhenStale | OBAKitTests/Location/RegionsServiceTests.swift:127-169 | initialisation starts exactly one download iff the list was never downloaded or is at least a week old |
| Regions.SelectionKeepsList | OBAKitTests/Location/RegionsServiceTests.swift:113-125 | location-based selection changes neither the regions list, nor the fetch state, nor any stored key but the current region's |
| Regions.RequestsCoalesce | OBAKitTests/Location/RegionsServiceTests.swift:181-188 | two update requests in a row start at most one download (assumed, not asserted by the tests) |
| Regions.FailedFetchKeepsState | OBAKitTests/Location/RegionsServiceTests.swift:145 | a failed download leaves the regions, current region, stored keys and delegate calls as they were (assumed, not asserted by the tests) |
| Regions.DownloadedListPersists | OBAKitTests/Location/RegionsServiceTests.swift:195-215 | after a download, loading from the stored keys gives the downloaded list, the stored current region is unchanged, and the list is no longer due for update (the stored download time behind this last clause is assumed, not asserted by the tests) |
| Regions.UserDefaults.Set | OBAKitTests/Location/RegionsServiceTests.swift:86 | the value is stored under the key, other keys unchanged |
| Regions.RegionsService.constructor | OBAKitTests/Location/RegionsServiceTests.swift:74-146 | the service's state after `init` is `Initialized`: loaded list or bundle, stored or location-selected current region, download requested if stale (the cancellation announced at init when the list is fresh is assumed, not asserted by the tests) |
| Regions.RegionsService.SetCurrentRegion | OBAKitTests/Location/RegionsServiceTests.swift:113-125 | the state afterwards is `WithCurrentRegion` of the state before |
| Regions.RegionsService.UpdateCurrentRegionFromLocation | OBAKitTests/Location/RegionsServiceTests.swift:113-125 | the state afterwards is `SelectedFromLocation` of the state before (announcing an unmatched location and ignoring an unknown one are assumed, not asserted by the tests) |
| Regions.RegionsService.UpdateRegionsList | OBAKitTests/Location/RegionsServiceTests.swift:149-190 | the state afterwards is `UpdateRequested`: joined, cancelled (fresh and not forced) or a download started |
| Regions.RegionsService.RegionsFetchCompleted | OBAKitTests/Location/RegionsServiceTests.swift:127-146 | the state afterwards is `FetchCompleted`: on success the list is replaced wholesale, stored, and announced; storing its download time is assumed, not asserted by the tests |
| RegionsServiceTests.LatestCallFiresItsCallbacks | OBAKitTests/Location/RegionsServiceTests.swift:31-53 | every callback registered for a delegate call fires when that call arrives |
| RegionsServiceTests.NothingRegisteredFiresNothing | OBAKitTests/Location/RegionsServiceTests.swift:18-53 | with all four lists empty, no delegate call fires anything |
| RegionsServiceTests.RegionsServiceTestDelegate.TearDown | OBAKitTests/Location/RegionsServiceTests.swift:24-29 | all four callback lists are empty afterwards, and no series of delegate calls fires anything |
| RegionsServiceTests.RegionsServiceTestDelegate.Invoke | OBAKitTests/Location/RegionsServiceTests.swift:32-34 | the given callbacks fire once each, in order |
| RegionsServiceTests.RegionsServiceTestDelegate.RegionsServiceUnableToSelectRegion | OBAKitTests/Location/RegionsServiceTests.swift:31-35 | exactly the unable-to-select callbacks fire, in append order |
| RegionsServiceTests.RegionsServiceTestDelegate.RegionsServiceUpdatedRegionsList | OBAKitTests/Location/RegionsServiceTests.swift:37-41 | exactly the updated-list callbacks fire, in append order |
| RegionsServiceTests.RegionsServiceTestDelegate.RegionsServiceUpdatedRegion | OBAKitTests/Location/RegionsServiceTests.swift:43-47 | exactly the updated-region callbacks fire, in append order |
| RegionsServiceTests.RegionsServiceTestDelegate.RegionsServiceListUpdateCancelled | OBAKitTests/Location/RegionsServiceTests.swift:49-53 | exactly the update-cancelled callbacks fire, in append order |
| RegionsServiceTests.RegionsServiceTestDelegate.Receive | OBAKitTests/Location/RegionsServiceTests.swift:31-53 | a delegate call fires the callbacks of its own list and no others |
| RegionsServiceTests.RegionsServiceTestDelegate.ReceiveAll | OBAKitTests/Location/RegionsServiceTests.swift:31-53 | a series of delegate calls fires their lists in call order |
| RegionsServiceTests.PersistenceThroughService | OBAKitTests/Location/RegionsServiceTests.swift:195-215 | on the service, defaults and delegate objects: after a forced update, the callback registered after init fires once, the stored list is the downloaded one, and the service's regions are that list |
| RegionsServiceTests.InitLoadsBundledRegions | OBAKitTests/Location/RegionsServiceTests.swift:74-80 | with nothing stored, the regions are the bundled list of 12 |
| RegionsServiceTests.InitLoadsSavedRegions | OBAKitTests/Location/RegionsServiceTests.swift:83-94 | a stored one-region list is loaded as-is instead of the bundle |
| RegionsServiceTests.InitLoadsCurrentRegionAutoSelectDisabled | OBAKitTests/Location/RegionsServiceTests.swift:97-111 | with automatic selection off, the current region is the stored one |
| RegionsServiceTests.InitLoadsCurrentRegionAutoSelectEnabled | OBAKitTests/Location/RegionsServiceTests.swift:113-125 | with automatic selection unset, the region covering the location becomes current even though another one is stored |
| RegionsServiceTests.InitUpdatesRegionsList | OBAKitTests/Location/RegionsServiceTests.swift:128-147 | a never-downloaded list is downloaded once at init; on completion the regions are the fetched list and the updated-list callback fires |
| RegionsServiceTests.SkipsUpdateOfFreshList | OBAKitTests/Location/RegionsServiceTests.swift:150-169 | with a list less than a week old, a non-forced update starts no download, the only delegate call after init is the cancellation, the callback registered after init fires, and the 12 bundled regions stay |
| RegionsServiceTests.ForcedUpdateReplacesAndStoresList | OBAKitTests/Location/RegionsServiceTests.swift:172-215 | a forced update downloads even a fresh list; the fetched list replaces the regions and is stored under the stored-regions key; the only delegate call after init is the new list, and the callback registered after init fires |

## Left out

- `MKDirections.walkingDirections(to:)` (MapKitExtensions.swift:20-26) is not modelled: it only builds a MapKit request.
- `MKMapRect.init(_:)` (MapKitExtensions.swift:93-113) is not modelled: it is floating-point Mercator projection.
- `MapView.SetCenterCoordinate` does not compute the span. `MapHelpers.coordinateSpanFrom` is not part of this model, so the region records the clamped zoom level the span would be computed from. The `animated` flag is not modelled.
- The map view's annotations are a set. MapKit keeps an array, but neither operation depends on its order.
- `is MKUserLocation` and `filter(type:)` are modelled as tests of the annotation's exact class name, without subclassing.
- Agency decoding does not fix the rules of URL parsing or of `ModelHelpers.nilifyBlankValue`: both are parameters. JSON numbers are integers, since only their kind matters here.
- `Encode` and the round-trip lemma are a specification device: the app never encodes an agency.
- `RegionsService`'s own source is not part of this model. Everything it does beyond what the tests assert is assumed; the tests do not assert it: coalescing of requests while a download is in flight, last-known-good on a failed download, storing and announcing a location-selected region, falling back to the bundled list when the stored list is unreadable, storing the download time of a successful download (so the list is no longer due), announcing `regionsServiceUnableToSelectRegion` when no region covers the location while an unknown location changes nothing, and announcing `regionsServiceListUpdateCancelled` from the initializer's own update request when the stored list is fresh. Among the commented-out test intentions, RegionsServiceTests.swift:217 describes the fallback to the bundle, :225 the stored download time, and :233 and :235 the unable-to-select announcement and the unknown location; nothing in the source describes the cancellation at init.
- A fetch result is not checked for emptiness. Parsing the directory response and dropping unparsable records belong to the network layer, which is not part of this model.
- A download that completes does not re-select the current region. No test asserts it, and the service's code is not available.
- Point-in-polygon region selection is a function supplied by the caller. The bundled region list and the Puget Sound region are parameters, because their data files are not part of this model.
- Networking stubs, `waitUntil`, real property-list encoding and the system clock are not modelled. Property-list data is a typed stored value, and an unreadable value reads as absent.
- The commented-out test intentions (RegionsServiceTests.swift:217-235) are not presented as tested behaviour; where the model follows one of them, the row or the line above marks it as assumed.
- `TableCells.swift` and the two REST model operations are presentation and networking glue outside this model.
