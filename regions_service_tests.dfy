/**
 * The regions service tests: the test delegate, which fans each delegate call
 * out to the callbacks registered for it, and one lemma per test stating what
 * the test expects of the service.
 *
 * A callback is known by an identifier; invoking it appends that identifier to
 * the delegate's log of fired callbacks.
 */
module RegionsServiceTests {
  import opened Wrappers
  import opened Regions

  type Callback = nat

  /** The four callback lists of the test delegate. */
  datatype CallbackLists = CallbackLists(
    unableToSelectRegion: seq<Callback>,
    updatedRegionsList: seq<Callback>,
    updatedRegion: seq<Callback>,
    regionUpdateCancelled: seq<Callback>)

  const NoCallbacks := CallbackLists([], [], [], [])

  /** The callbacks registered for the delegate call `n`. */
  function CallbacksFor(lists: CallbackLists, n: Notification): seq<Callback> {
    match n
    case UnableToSelectRegion => lists.unableToSelectRegion
    case UpdatedRegionsList(_) => lists.updatedRegionsList
    case UpdatedRegion(_) => lists.updatedRegion
    case RegionUpdateCancelled => lists.regionUpdateCancelled
  }

  /** The callbacks fired, in order, when the delegate receives the calls `ns`. */
  function Fired(lists: CallbackLists, ns: seq<Notification>): seq<Callback> {
    if ns == [] then [] else Fired(lists, ns[..|ns| - 1]) + CallbacksFor(lists, ns[|ns| - 1])
  }

  /** Every callback registered for a delegate call fires when that call is the latest one. */
  lemma {:induction false} LatestCallFiresItsCallbacks(lists: CallbackLists, ns: seq<Notification>, n: Notification, c: Callback)
    requires c in CallbacksFor(lists, n)
    ensures c in Fired(lists, ns + [n])
  {
    assert (ns + [n])[..|ns + [n]| - 1] == ns;
  }

  /** With no callbacks registered, no delegate call fires anything. */
  lemma {:induction false} NothingRegisteredFiresNothing(ns: seq<Notification>)
    ensures Fired(NoCallbacks, ns) == []
  {
    if ns != [] {
      NothingRegisteredFiresNothing(ns[..|ns| - 1]);
    }
  }

  class RegionsServiceTestDelegate {
    var unableToSelectRegionsCallbacks: seq<Callback>
    var updatedRegionsListCallbacks: seq<Callback>
    var updatedRegionCallbacks: seq<Callback>
    var regionUpdateCancelledCallbacks: seq<Callback>
    /** The callbacks invoked so far, in the order they ran. */
    var fired: seq<Callback>

    function Lists(): CallbackLists
      reads this
    {
      CallbackLists(unableToSelectRegionsCallbacks, updatedRegionsListCallbacks,
                    updatedRegionCallbacks, regionUpdateCancelledCallbacks)
    }

    constructor ()
      ensures Lists() == NoCallbacks && fired == []
    {
      unableToSelectRegionsCallbacks := [];
      updatedRegionsListCallbacks := [];
      updatedRegionCallbacks := [];
      regionUpdateCancelledCallbacks := [];
      fired := [];
    }

    /** `tearDown()`: empties all four callback lists, so no later delegate call fires anything. */
    method TearDown()
      modifies this
      ensures Lists() == NoCallbacks && fired == old(fired)
      ensures forall ns :: Fired(Lists(), ns) == []
    {
      unableToSelectRegionsCallbacks := [];
      updatedRegionsListCallbacks := [];
      updatedRegionCallbacks := [];
      regionUpdateCancelledCallbacks := [];
      forall ns
        ensures Fired(Lists(), ns) == []
      {
        NothingRegisteredFiresNothing(ns);
      }
    }

    /** Invokes each of `callbacks` once, in order. */
    method Invoke(callbacks: seq<Callback>)
      modifies this`fired
      ensures fired == old(fired) + callbacks
    {
      var i := 0;
      while i < |callbacks|
        invariant 0 <= i <= |callbacks|
        invariant fired == old(fired) + callbacks[..i]
      {
        fired := fired + [callbacks[i]];
        i := i + 1;
      }
      assert callbacks[..i] == callbacks;
    }

    method RegionsServiceUnableToSelectRegion()
      modifies this`fired
      ensures fired == old(fired) + unableToSelectRegionsCallbacks
    {
      Invoke(unableToSelectRegionsCallbacks);
    }

    method RegionsServiceUpdatedRegionsList(regions: seq<Region>)
      modifies this`fired
      ensures fired == old(fired) + updatedRegionsListCallbacks
    {
      Invoke(updatedRegionsListCallbacks);
    }

    method RegionsServiceUpdatedRegion(region: Region)
      modifies this`fired
      ensures fired == old(fired) + updatedRegionCallbacks
    {
      Invoke(updatedRegionCallbacks);
    }

    method RegionsServiceListUpdateCancelled()
      modifies this`fired
      ensures fired == old(fired) + regionUpdateCancelledCallbacks
    {
      Invoke(regionUpdateCancelledCallbacks);
    }

    /** Receives one delegate call: exactly the callbacks registered for it fire. */
    method Receive(n: Notification)
      modifies this`fired
      ensures fired == old(fired) + CallbacksFor(Lists(), n)
    {
      match n {
        case UnableToSelectRegion => RegionsServiceUnableToSelectRegion();
        case UpdatedRegionsList(regions) => RegionsServiceUpdatedRegionsList(regions);
        case UpdatedRegion(region) => RegionsServiceUpdatedRegion(region);
        case RegionUpdateCancelled => RegionsServiceListUpdateCancelled();
      }
    }

    /** Receives a series of delegate calls, in order. */
    method ReceiveAll(ns: seq<Notification>)
      modifies this`fired
      ensures fired == old(fired) + Fired(Lists(), ns)
    {
      var i := 0;
      while i < |ns|
        invariant 0 <= i <= |ns|
        invariant fired == old(fired) + Fired(Lists(), ns[..i])
      {
        Receive(ns[i]);
        assert ns[..i + 1][..i] == ns[..i];
        i := i + 1;
      }
      assert ns[..i] == ns;
    }
  }

  /** `test_init_loadsBundledRegions`: with nothing stored, the twelve bundled regions are used. */
  lemma InitLoadsBundledRegions(bundledRegions: seq<Region>, location: Option<Location>,
                                selector: RegionSelector, now: int)
    requires |bundledRegions| == BundledRegionCount
    ensures Initialized(map[], bundledRegions, location, selector, now).regions == bundledRegions
    ensures |Initialized(map[], bundledRegions, location, selector, now).regions| == 12
  {
  }

  /** `test_init_loadsSavedRegions`: a stored list is used instead of the bundled one. */
  lemma InitLoadsSavedRegions(d: Defaults, customRegion: Region, bundledRegions: seq<Region>,
                              location: Option<Location>, selector: RegionSelector, now: int)
    requires d == map[StoredRegionsKey := RegionListData([customRegion])]
    ensures Initialized(d, bundledRegions, location, selector, now).regions == [customRegion]
  {
  }

  /** `test_init_loadsCurrentRegion_autoSelectDisabled`: the stored current region is used. */
  lemma InitLoadsCurrentRegionAutoSelectDisabled(d: Defaults, customRegion: Region, bundledRegions: seq<Region>,
                                                 location: Option<Location>, selector: RegionSelector, now: int)
    requires d == map[StoredRegionsKey := RegionListData([customRegion]),
                      AutomaticallySelectRegionKey := BoolValue(false),
                      CurrentRegionKey := RegionData(customRegion)]
    ensures Initialized(d, bundledRegions, location, selector, now).currentRegion == Some(customRegion)
  {
  }

  /**
   * `test_init_loadsCurrentRegion_autoSelectEnabled`: the region covering the
   * user's location wins over a different stored current region.
   */
  lemma InitLoadsCurrentRegionAutoSelectEnabled(d: Defaults, customRegion: Region, pugetSound: Region,
                                                bundledRegions: seq<Region>, userLocation: Location,
                                                selector: RegionSelector, now: int)
    requires d == map[CurrentRegionKey := RegionData(customRegion)]
    requires selector(bundledRegions, userLocation) == Some(pugetSound)
    ensures Initialized(d, bundledRegions, Some(userLocation), selector, now).currentRegion == Some(pugetSound)
  {
  }

  /**
   * `test_init_updateRegionsList`: a list never downloaded is downloaded at
   * once; when the download completes the list is replaced and the callback
   * registered for the new list fires.
   */
  lemma InitUpdatesRegionsList(pugetSound: Region, bundledRegions: seq<Region>, location: Option<Location>,
                               selector: RegionSelector, now: int, later: int, callback: Callback)
    ensures var s := FetchCompleted(Initialized(map[], bundledRegions, location, selector, now),
                                    Fetched([pugetSound]), later);
      && s.regions == [pugetSound]
      && s.fetchCount == 1
      && callback in Fired(CallbackLists([], [callback], [], []), s.notifications)
  {
    var init := Initialized(map[], bundledRegions, location, selector, now);
    InitStartsFetchWhenStale(map[], bundledRegions, location, selector, now);
    assert init.fetchInFlight && init.fetchCount == 1;
    var s := FetchCompleted(init, Fetched([pugetSound]), later);
    assert s.notifications == init.notifications + [UpdatedRegionsList([pugetSound])];
    LatestCallFiresItsCallbacks(CallbackLists([], [callback], [], []), init.notifications,
                                UpdatedRegionsList([pugetSound]), callback);
  }

  /**
   * `test_init_skipUpdateRegionsList`: a list downloaded less than a week ago
   * is not downloaded again; the update is cancelled, the cancellation
   * callback fires and the twelve bundled regions stay.
   */
  lemma SkipsUpdateOfFreshList(updatedAt: int, bundledRegions: seq<Region>, location: Option<Location>,
                               selector: RegionSelector, now: int, later: int, callback: Callback)
    requires |bundledRegions| == BundledRegionCount
    requires 0 <= now - updatedAt <= later - updatedAt < RegionsListMaxAge
    ensures var init := Initialized(map[RegionsUpdatedAtKey := DateValue(updatedAt)],
                                    bundledRegions, location, selector, now);
            var s := UpdateRequested(init, false, later);
      && |s.regions| == 12
      && s.fetchCount == 0
      && s.notifications[|init.notifications|..] == [RegionUpdateCancelled]
      && callback in Fired(CallbackLists([], [], [], [callback]), s.notifications[|init.notifications|..])
  {
    var d := map[RegionsUpdatedAtKey := DateValue(updatedAt)];
    var init := Initialized(d, bundledRegions, location, selector, now);
    SelectionKeepsList(Loaded(d, bundledRegions), location, selector);
    var selected := SelectedFromLocation(Loaded(d, bundledRegions), location, selector);
    assert RegionsUpdatedAt(selected.defaults) == Some(updatedAt);
    assert !init.fetchInFlight && init.fetchCount == 0;
    assert RegionsUpdatedAt(init.defaults) == Some(updatedAt);
    LatestCallFiresItsCallbacks(CallbackLists([], [], [], [callback]), [], RegionUpdateCancelled, callback);
  }

  /**
   * `test_init_forceUpdateRegionsList` and `test_persistence`: a forced update
   * downloads even a fresh list; the downloaded list replaces the regions, is
   * stored under the stored-regions key, and the list callback fires.
   */
  lemma ForcedUpdateReplacesAndStoresList(updatedAt: int, pugetSound: Region, bundledRegions: seq<Region>,
                                          location: Option<Location>, selector: RegionSelector,
                                          now: int, later: int, done: int, callback: Callback)
    requires 0 <= now - updatedAt < RegionsListMaxAge
    ensures var init := Initialized(map[RegionsUpdatedAtKey := DateValue(updatedAt)],
                                    bundledRegions, location, selector, now);
            var s := FetchCompleted(UpdateRequested(init, true, later), Fetched([pugetSound]), done);
      && s.regions == [pugetSound]
      && s.fetchCount == 1
      && StoredRegionList(s.defaults) == Some([pugetSound])
      && s.notifications[|init.notifications|..] == [UpdatedRegionsList([pugetSound])]
      && callback in Fired(CallbackLists([], [callback], [], []), s.notifications[|init.notifications|..])
  {
    var d := map[RegionsUpdatedAtKey := DateValue(updatedAt)];
    var init := Initialized(d, bundledRegions, location, selector, now);
    SelectionKeepsList(Loaded(d, bundledRegions), location, selector);
    InitStartsFetchWhenStale(d, bundledRegions, location, selector, now);
    assert !init.fetchInFlight;
    var requested := UpdateRequested(init, true, later);
    assert requested.notifications == init.notifications;
    var s := FetchCompleted(requested, Fetched([pugetSound]), done);
    assert s.notifications == init.notifications + [UpdatedRegionsList([pugetSound])];
    LatestCallFiresItsCallbacks(CallbackLists([], [callback], [], []), [], UpdatedRegionsList([pugetSound]), callback);
  }

  /**
   * `test_persistence`, run against the service, user-defaults and delegate
   * objects: each delegate call reaches the delegate as it is made.
   */
  method PersistenceThroughService(updatedAt: int, pugetSound: Region, bundledRegions: seq<Region>,
                                   selector: RegionSelector, now: int, later: int, done: int, callback: Callback)
      returns (fired: seq<Callback>, stored: Option<seq<Region>>, regions: seq<Region>)
    requires 0 <= now - updatedAt < RegionsListMaxAge
    ensures fired == [callback]
    ensures stored == Some([pugetSound])
    ensures regions == [pugetSound]
  {
    var d := map[RegionsUpdatedAtKey := DateValue(updatedAt)];
    var defaults := new UserDefaults(d);
    var delegate := new RegionsServiceTestDelegate();
    var service := new RegionsService(defaults, bundledRegions, None, selector, now);
    delegate.ReceiveAll(service.notifications);
    NothingRegisteredFiresNothing(service.notifications);
    delegate.updatedRegionsListCallbacks := delegate.updatedRegionsListCallbacks + [callback];
    assert delegate.fired == [];

    ghost var init := service.State();
    ghost var requested := UpdateRequested(init, true, later);
    ghost var after := FetchCompleted(requested, Fetched([pugetSound]), done);
    ForcedUpdateReplacesAndStoresList(updatedAt, pugetSound, bundledRegions, None, selector, now, later, done, callback);
    assert after.notifications[|init.notifications|..] == [UpdatedRegionsList([pugetSound])];
    var seen := |service.notifications|;
    service.UpdateRegionsList(later, true);
    assert service.State() == requested;
    service.RegionsFetchCompleted(Fetched([pugetSound]), done);
    assert service.State() == after;

    delegate.ReceiveAll(service.notifications[seen..]);
    fired := delegate.fired;
    stored := StoredRegionList(defaults.store);
    regions := service.regions;
  }
}
