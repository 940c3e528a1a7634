/**
 * The regions service: the list of OneBusAway regions, the region currently
 * in use, and their persistence in the user defaults.
 *
 * Loading falls back to the regions bundled with the framework when nothing
 * usable is stored. With automatic selection on (the default), the region
 * that contains the user's location replaces the stored current region. The
 * list is downloaded again when it was never downloaded or is at least a
 * week old, or when an update is forced; a successful download replaces the
 * list wholesale and stores it.
 *
 * Time is a count of seconds passed in by the caller. Choosing the region
 * that contains a location is a function supplied by the caller. The download
 * is asynchronous: a request marks a fetch as in flight, and its completion
 * arrives later as a separate step carrying the fetch's result.
 */
module Regions {
  import opened Wrappers

  datatype Region = Region(identifier: int, name: string)

  datatype Location = Location(latitude: real, longitude: real)

  /** The four user-defaults keys the service owns. */
  datatype DefaultsKey =
    | StoredRegionsKey
    | CurrentRegionKey
    | RegionsUpdatedAtKey
    | AutomaticallySelectRegionKey

  /** What can be found under a key; anything of the wrong kind reads as absent. */
  datatype DefaultsValue =
    | RegionListData(regions: seq<Region>)
    | RegionData(region: Region)
    | DateValue(seconds: int)
    | BoolValue(flag: bool)
    | UnreadableData

  type Defaults = map<DefaultsKey, DefaultsValue>

  /** The delegate calls the service makes, in the order it makes them. */
  datatype Notification =
    | UnableToSelectRegion
    | UpdatedRegionsList(regions: seq<Region>)
    | UpdatedRegion(region: Region)
    | RegionUpdateCancelled

  /** The outcome of downloading the regions list. */
  datatype FetchResult = Fetched(regions: seq<Region>) | FetchFailed

  /** The region whose coverage contains a location, if any. */
  type RegionSelector = (seq<Region>, Location) -> Option<Region>

  /** A week, in seconds: the longest the regions list is trusted. */
  const RegionsListMaxAge: int := 604800

  /** How many regions ship with the framework. */
  const BundledRegionCount: nat := 12

  /** The stored regions list, or `None` when it is absent or unreadable. */
  function StoredRegionList(d: Defaults): Option<seq<Region>>
  {
    if StoredRegionsKey in d && d[StoredRegionsKey].RegionListData? then Some(d[StoredRegionsKey].regions) else None
  }

  /** The stored current region, or `None` when it is absent or unreadable. */
  function StoredCurrentRegion(d: Defaults): Option<Region>
  {
    if CurrentRegionKey in d && d[CurrentRegionKey].RegionData? then Some(d[CurrentRegionKey].region) else None
  }

  /** When the regions list was last downloaded, if it ever was. */
  function RegionsUpdatedAt(d: Defaults): Option<int>
  {
    if RegionsUpdatedAtKey in d && d[RegionsUpdatedAtKey].DateValue? then Some(d[RegionsUpdatedAtKey].seconds) else None
  }

  /** Automatic selection is on unless a stored `false` turns it off. */
  function AutomaticallySelectRegion(d: Defaults): (on: bool)
    ensures !on <==> AutomaticallySelectRegionKey in d && d[AutomaticallySelectRegionKey] == BoolValue(false)
  {
    if AutomaticallySelectRegionKey in d && d[AutomaticallySelectRegionKey].BoolValue? then d[AutomaticallySelectRegionKey].flag else true
  }

  /** The regions list is due for download when it never was downloaded, or at least a week ago. */
  predicate ShouldUpdateRegionsList(d: Defaults, now: int) {
    match RegionsUpdatedAt(d)
    case None => true
    case Some(updatedAt) => now - updatedAt >= RegionsListMaxAge
  }

  /** A list downloaded at time `t` is due again exactly once a full week has passed. */
  lemma DueAfterAWeek(d: Defaults, t: int, now: int)
    ensures ShouldUpdateRegionsList(d[RegionsUpdatedAtKey := DateValue(t)], now) <==> now >= t + RegionsListMaxAge
  {
  }

  /** A list that is due stays due as time goes on. */
  lemma DueListStaysDue(d: Defaults, now: int, later: int)
    requires now <= later && ShouldUpdateRegionsList(d, now)
    ensures ShouldUpdateRegionsList(d, later)
  {
  }

  /** Everything the service's behaviour depends on and changes. */
  datatype ServiceState = ServiceState(
    regions: seq<Region>,
    currentRegion: Option<Region>,
    fetchInFlight: bool,
    fetchCount: nat,
    notifications: seq<Notification>,
    defaults: Defaults)

  /** The state straight after reading the user defaults. */
  function Loaded(d: Defaults, bundledRegions: seq<Region>): ServiceState
  {
    ServiceState(StoredRegionList(d).GetOr(bundledRegions), StoredCurrentRegion(d), false, 0, [], d)
  }

  /** Makes `region` current: it is stored and the delegate is told. */
  function WithCurrentRegion(s: ServiceState, region: Region): (t: ServiceState)
    ensures t.currentRegion == Some(region)
    ensures StoredCurrentRegion(t.defaults) == Some(region)
    ensures t.notifications == s.notifications + [UpdatedRegion(region)]
    ensures t.regions == s.regions && t.fetchInFlight == s.fetchInFlight && t.fetchCount == s.fetchCount
  {
    s.(currentRegion := Some(region),
       defaults := s.defaults[CurrentRegionKey := RegionData(region)],
       notifications := s.notifications + [UpdatedRegion(region)])
  }

  /**
   * Re-selects the current region from a location. Nothing happens when
   * automatic selection is off or no location is known; when no region covers
   * the location, the delegate hears so and the current region is kept.
   */
  function SelectedFromLocation(s: ServiceState, location: Option<Location>, selector: RegionSelector): ServiceState
  {
    if !AutomaticallySelectRegion(s.defaults) || location.None? then s
    else match selector(s.regions, location.value)
      case None => s.(notifications := s.notifications + [UnableToSelectRegion])
      case Some(region) => if s.currentRegion == Some(region) then s else WithCurrentRegion(s, region)
  }

  /**
   * `updateRegionsList(forceUpdate:)`. A request while a fetch is in flight
   * joins it. A fresh list and no force cancels the update, which the
   * delegate hears. Otherwise one fetch is started.
   */
  function UpdateRequested(s: ServiceState, forceUpdate: bool, now: int): (t: ServiceState)
    ensures s.notifications <= t.notifications
  {
    if s.fetchInFlight then s
    else if !forceUpdate && !ShouldUpdateRegionsList(s.defaults, now) then
      s.(notifications := s.notifications + [RegionUpdateCancelled])
    else s.(fetchInFlight := true, fetchCount := s.fetchCount + 1)
  }

  /**
   * The completion of the fetch in flight. On success the list is replaced
   * wholesale, stored with the time of the download, and the delegate hears
   * of the new list; on failure nothing but the in-flight flag changes.
   */
  function FetchCompleted(s: ServiceState, result: FetchResult, now: int): (t: ServiceState)
    ensures s.notifications <= t.notifications
  {
    if !s.fetchInFlight then s
    else match result
      case FetchFailed => s.(fetchInFlight := false)
      case Fetched(fetched) =>
        s.(regions := fetched,
           fetchInFlight := false,
           defaults := s.defaults[StoredRegionsKey := RegionListData(fetched)][RegionsUpdatedAtKey := DateValue(now)],
           notifications := s.notifications + [UpdatedRegionsList(fetched)])
  }

  /** The state at the end of the service's initializer. */
  function Initialized(d: Defaults, bundledRegions: seq<Region>, location: Option<Location>,
                       selector: RegionSelector, now: int): ServiceState
  {
    UpdateRequested(SelectedFromLocation(Loaded(d, bundledRegions), location, selector), false, now)
  }

  /** A freshly initialized service starts a download exactly when the stored list is due for one. */
  lemma InitStartsFetchWhenStale(d: Defaults, bundledRegions: seq<Region>, location: Option<Location>,
                                 selector: RegionSelector, now: int)
    ensures Initialized(d, bundledRegions, location, selector, now).fetchInFlight
            <==> ShouldUpdateRegionsList(d, now)
    ensures Initialized(d, bundledRegions, location, selector, now).fetchCount
            == (if ShouldUpdateRegionsList(d, now) then 1 else 0)
  {
    var s := SelectedFromLocation(Loaded(d, bundledRegions), location, selector);
    assert s.fetchCount == 0 && !s.fetchInFlight;
    assert StoredRegionList(s.defaults) == StoredRegionList(d) by {
      assert s.defaults == d || s.defaults == d[CurrentRegionKey := s.defaults[CurrentRegionKey]];
    }
    assert RegionsUpdatedAt(s.defaults) == RegionsUpdatedAt(d);
  }

  /** Selection never touches the regions list, the fetch, or the keys other than the current region's. */
  lemma SelectionKeepsList(s: ServiceState, location: Option<Location>, selector: RegionSelector)
    ensures SelectedFromLocation(s, location, selector).regions == s.regions
    ensures SelectedFromLocation(s, location, selector).fetchInFlight == s.fetchInFlight
    ensures SelectedFromLocation(s, location, selector).fetchCount == s.fetchCount
    ensures forall k :: k != CurrentRegionKey ==>
              (k in SelectedFromLocation(s, location, selector).defaults <==> k in s.defaults)
    ensures forall k :: k != CurrentRegionKey && k in s.defaults ==>
              SelectedFromLocation(s, location, selector).defaults[k] == s.defaults[k]
  {
  }

  /**
   * The gate of `updateRegionsList(forceUpdate:)` on an idle service: a
   * forced update or a due list starts exactly one download; otherwise the
   * update is cancelled and the delegate hears so. Either way the list and
   * the stored keys are untouched.
   */
  lemma UpdateGate(s: ServiceState, forceUpdate: bool, now: int)
    requires !s.fetchInFlight
    ensures UpdateRequested(s, forceUpdate, now).regions == s.regions
    ensures UpdateRequested(s, forceUpdate, now).currentRegion == s.currentRegion
    ensures UpdateRequested(s, forceUpdate, now).defaults == s.defaults
    ensures UpdateRequested(s, forceUpdate, now).fetchCount == s.fetchCount + 1
            <==> forceUpdate || ShouldUpdateRegionsList(s.defaults, now)
    ensures UpdateRequested(s, forceUpdate, now).fetchInFlight
            <==> forceUpdate || ShouldUpdateRegionsList(s.defaults, now)
    ensures forceUpdate || ShouldUpdateRegionsList(s.defaults, now) ==>
              UpdateRequested(s, forceUpdate, now).notifications == s.notifications
    ensures !forceUpdate && !ShouldUpdateRegionsList(s.defaults, now) ==>
              UpdateRequested(s, forceUpdate, now).fetchCount == s.fetchCount
              && UpdateRequested(s, forceUpdate, now).notifications == s.notifications + [RegionUpdateCancelled]
  {
  }

  /** Requests made while a fetch is in flight start no second fetch. */
  lemma RequestsCoalesce(s: ServiceState, force1: bool, force2: bool, now1: int, now2: int)
    ensures UpdateRequested(UpdateRequested(s, force1, now1), force2, now2).fetchCount <= s.fetchCount + 1
  {
  }

  /** A failed download keeps the last known good list, current region and defaults. */
  lemma FailedFetchKeepsState(s: ServiceState, now: int)
    ensures FetchCompleted(s, FetchFailed, now).regions == s.regions
    ensures FetchCompleted(s, FetchFailed, now).currentRegion == s.currentRegion
    ensures FetchCompleted(s, FetchFailed, now).defaults == s.defaults
    ensures FetchCompleted(s, FetchFailed, now).notifications == s.notifications
    ensures !FetchCompleted(s, FetchFailed, now).fetchInFlight
  {
  }

  /** After a successful download, reloading from the defaults yields the downloaded list and no need to update. */
  lemma {:induction false} DownloadedListPersists(s: ServiceState, fetched: seq<Region>, now: int, bundledRegions: seq<Region>)
    requires s.fetchInFlight
    ensures Loaded(FetchCompleted(s, Fetched(fetched), now).defaults, bundledRegions).regions == fetched
    ensures StoredCurrentRegion(FetchCompleted(s, Fetched(fetched), now).defaults) == StoredCurrentRegion(s.defaults)
    ensures !ShouldUpdateRegionsList(FetchCompleted(s, Fetched(fetched), now).defaults, now)
  {
    var d := FetchCompleted(s, Fetched(fetched), now).defaults;
    assert d[StoredRegionsKey] == RegionListData(fetched);
    assert RegionsUpdatedAt(d) == Some(now);
  }

  /** The persistent settings, shared between the service and whoever set them up. */
  class UserDefaults {
    var store: Defaults

    constructor (initial: Defaults)
      ensures store == initial
    {
      store := initial;
    }

    method Set(key: DefaultsKey, value: DefaultsValue)
      modifies this
      ensures store == old(store)[key := value]
    {
      store := store[key := value];
    }
  }

  class RegionsService {
    const userDefaults: UserDefaults
    const regionFromLocation: RegionSelector
    var regions: seq<Region>
    var currentRegion: Option<Region>
    var fetchInFlight: bool
    var fetchCount: nat
    /** The delegate calls made so far. */
    var notifications: seq<Notification>

    function State(): ServiceState
      reads this, userDefaults
    {
      ServiceState(regions, currentRegion, fetchInFlight, fetchCount, notifications, userDefaults.store)
    }

    /**
     * Loads the stored list (or the bundled one) and the stored current
     * region, selects a region from the location when automatic selection is
     * on, and asks for a download of the list.
     */
    constructor (userDefaults: UserDefaults, bundledRegions: seq<Region>, location: Option<Location>,
                 regionFromLocation: RegionSelector, now: int)
      modifies userDefaults
      ensures this.userDefaults == userDefaults && this.regionFromLocation == regionFromLocation
      ensures State() == Initialized(old(userDefaults.store), bundledRegions, location, regionFromLocation, now)
    {
      this.userDefaults := userDefaults;
      this.regionFromLocation := regionFromLocation;
      var stored := StoredRegionList(userDefaults.store);
      regions := if stored.Some? then stored.value else bundledRegions;
      currentRegion := StoredCurrentRegion(userDefaults.store);
      fetchInFlight := false;
      fetchCount := 0;
      notifications := [];
      new;
      UpdateCurrentRegionFromLocation(location);
      UpdateRegionsList(now);
    }

    /** Sets and stores the current region and tells the delegate. */
    method SetCurrentRegion(region: Region)
      modifies this, userDefaults
      ensures State() == WithCurrentRegion(old(State()), region)
    {
      currentRegion := Some(region);
      userDefaults.Set(CurrentRegionKey, RegionData(region));
      notifications := notifications + [UpdatedRegion(region)];
    }

    /** Re-selects the current region for a (possibly unknown) location. */
    method UpdateCurrentRegionFromLocation(location: Option<Location>)
      modifies this, userDefaults
      ensures State() == SelectedFromLocation(old(State()), location, regionFromLocation)
    {
      if !AutomaticallySelectRegion(userDefaults.store) || location.None? {
        return;
      }
      var selected := regionFromLocation(regions, location.value);
      match selected {
        case None =>
          notifications := notifications + [UnableToSelectRegion];
        case Some(region) =>
          if currentRegion != Some(region) {
            SetCurrentRegion(region);
          }
      }
    }

    /** `updateRegionsList(forceUpdate:)`. */
    method UpdateRegionsList(now: int, forceUpdate: bool := false)
      modifies this
      ensures State() == UpdateRequested(old(State()), forceUpdate, now)
    {
      if fetchInFlight {
        return;
      }
      if !forceUpdate && !ShouldUpdateRegionsList(userDefaults.store, now) {
        notifications := notifications + [RegionUpdateCancelled];
      } else {
        fetchInFlight := true;
        fetchCount := fetchCount + 1;
      }
    }

    /** The download started by `UpdateRegionsList` has finished with `result`. */
    method RegionsFetchCompleted(result: FetchResult, now: int)
      modifies this, userDefaults
      ensures State() == FetchCompleted(old(State()), result, now)
    {
      if !fetchInFlight {
        return;
      }
      fetchInFlight := false;
      match result {
        case FetchFailed =>
        case Fetched(fetched) =>
          regions := fetched;
          userDefaults.Set(StoredRegionsKey, RegionListData(fetched));
          userDefaults.Set(RegionsUpdatedAtKey, DateValue(now));
          notifications := notifications + [UpdatedRegionsList(fetched)];
      }
    }
  }
}
