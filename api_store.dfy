/**
 * The browser's live-state store: five REST-backed resource slices, the data they
 * guard, and two bounded newest-first buffers fed by pushed events.
 *
 * Each action is a pure step on a `StoreState` value; the `Store` class holds the
 * same fields and its methods are proved to perform exactly those steps.
 */
module ApiStore {
  import opened Wrappers
  import opened Entities
  import opened AiPayloads
  import opened Api

  /** Each live-event buffer keeps the newest 50 entries. */
  const Capacity := 50

  function Min(a: int, b: int): int {
    if a < b then a else b
  }

  // ---------------------------------------------------------------------------
  // Bounded newest-first buffers
  // ---------------------------------------------------------------------------

  /** `[x, ...buf].slice(0, 50)`. */
  function Prepend<T>(x: T, buf: seq<T>): (r: seq<T>)
    ensures |r| == Min(|buf| + 1, Capacity)
    ensures r[0] == x
    ensures forall i :: 1 <= i < |r| ==> r[i] == buf[i - 1]
  {
    ([x] + buf)[..Min(|buf| + 1, Capacity)]
  }

  /** Prepending to a full buffer drops exactly its oldest entry. */
  lemma EvictsOldest<T>(x: T, buf: seq<T>)
    requires |buf| == Capacity
    ensures Prepend(x, buf) == [x] + buf[..Capacity - 1]
  {
  }

  function Reverse<T>(s: seq<T>): (r: seq<T>)
    ensures |r| == |s|
    ensures forall i :: 0 <= i < |s| ==> r[i] == s[|s| - 1 - i]
  {
    if s == [] then [] else [s[|s| - 1]] + Reverse(s[..|s| - 1])
  }

  /** The buffer after the events of `history` (oldest first) have arrived into an empty one. */
  function Replay<T>(history: seq<T>): seq<T> {
    if history == [] then [] else Prepend(history[|history| - 1], Replay(history[..|history| - 1]))
  }

  /** After any sequence of arrivals the buffer holds the 50 most recent events, newest first. */
  lemma {:induction false} ReplayKeepsNewest<T>(history: seq<T>)
    ensures Replay(history) == Reverse(history)[..Min(|history|, Capacity)]
  {
    if history != [] {
      var init := history[..|history| - 1];
      ReplayKeepsNewest(init);
      var r := Replay(history);
      var want := Reverse(history)[..Min(|history|, Capacity)];
      assert |r| == |want|;
      forall i | 0 <= i < |r| ensures r[i] == want[i] {
        if i > 0 {
          assert r[i] == Replay(init)[i - 1];
        }
      }
    }
  }

  // ---------------------------------------------------------------------------
  // Resource slices
  // ---------------------------------------------------------------------------

  datatype LoadingState = LoadingState(isLoading: bool, error: Option<string>)

  const Idle := LoadingState(false, None)
  const Loading := LoadingState(true, None)

  /** The five slices; staff and staff allocation share one. */
  datatype Family = FlightsSlice | MaintenanceSlice | StaffSlice | RevenueSlice | EnvironmentSlice

  /** The six fetch actions. */
  datatype Fetch =
    | FetchFlights | FetchMaintenanceAssets | FetchStaff | FetchStaffAllocation
    | FetchDynamicPricing | FetchEnvironmentStats

  function SliceOf(f: Fetch): Family {
    match f
    case FetchFlights => FlightsSlice
    case FetchMaintenanceAssets => MaintenanceSlice
    case FetchStaff => StaffSlice
    case FetchStaffAllocation => StaffSlice
    case FetchDynamicPricing => RevenueSlice
    case FetchEnvironmentStats => EnvironmentSlice
  }

  /** The data field a fetch writes, as one tagged value. */
  datatype Data =
    | FlightList(flights: seq<Flight>)
    | AssetList(assets: seq<MaintenanceAsset>)
    | StaffList(staff: seq<StaffMember>)
    | AllocationResult(allocation: Option<StaffAllocation>)
    | PricingResult(pricing: Option<DynamicPricing>)
    | EnvironmentResult(stats: Option<EnvironmentStats>)

  /** The settling of one fetch: what its awaited service call returned or threw. */
  datatype Completion =
    | FlightsLoaded(flightsOutcome: Result<seq<Flight>, Thrown>)
    | MaintenanceLoaded(assetsOutcome: Result<seq<MaintenanceAsset>, Thrown>)
    | StaffLoaded(staffOutcome: Result<seq<StaffMember>, Thrown>)
    | StaffAllocationLoaded(allocationOutcome: Result<StaffAllocation, Thrown>)
    | PricingLoaded(pricingOutcome: Result<DynamicPricing, Thrown>)
    | EnvironmentLoaded(environmentOutcome: Result<EnvironmentStats, Thrown>)

  function FetchOf(c: Completion): Fetch {
    match c
    case FlightsLoaded(_) => FetchFlights
    case MaintenanceLoaded(_) => FetchMaintenanceAssets
    case StaffLoaded(_) => FetchStaff
    case StaffAllocationLoaded(_) => FetchStaffAllocation
    case PricingLoaded(_) => FetchDynamicPricing
    case EnvironmentLoaded(_) => FetchEnvironmentStats
  }

  /** The error a failed completion threw, or `None` when it succeeded. */
  function FailureOf(c: Completion): Option<Thrown> {
    match c
    case FlightsLoaded(o) => if o.Err? then Some(o.error) else None
    case MaintenanceLoaded(o) => if o.Err? then Some(o.error) else None
    case StaffLoaded(o) => if o.Err? then Some(o.error) else None
    case StaffAllocationLoaded(o) => if o.Err? then Some(o.error) else None
    case PricingLoaded(o) => if o.Err? then Some(o.error) else None
    case EnvironmentLoaded(o) => if o.Err? then Some(o.error) else None
  }

  /** The data a successful completion delivers, in the shape of its data field. */
  function DeliveredData(c: Completion): Data
    requires FailureOf(c).None?
  {
    match c
    case FlightsLoaded(o) => FlightList(o.value)
    case MaintenanceLoaded(o) => AssetList(o.value)
    case StaffLoaded(o) => StaffList(o.value)
    case StaffAllocationLoaded(o) => AllocationResult(Some(o.value))
    case PricingLoaded(o) => PricingResult(Some(o.value))
    case EnvironmentLoaded(o) => EnvironmentResult(Some(o.value))
  }

  // ---------------------------------------------------------------------------
  // The whole store as a value
  // ---------------------------------------------------------------------------

  datatype StoreState = StoreState(
    flights: seq<Flight>,
    flightsState: LoadingState,
    maintenanceAssets: seq<MaintenanceAsset>,
    maintenanceState: LoadingState,
    staff: seq<StaffMember>,
    staffAllocation: Option<StaffAllocation>,
    staffState: LoadingState,
    dynamicPricing: Option<DynamicPricing>,
    revenueState: LoadingState,
    environmentStats: Option<EnvironmentStats>,
    environmentState: LoadingState,
    securityAlerts: seq<SecurityAlertEvent>,
    flightUpdates: seq<FlightUpdateEvent>)

  function Slice(s: StoreState, g: Family): LoadingState {
    match g
    case FlightsSlice => s.flightsState
    case MaintenanceSlice => s.maintenanceState
    case StaffSlice => s.staffState
    case RevenueSlice => s.revenueState
    case EnvironmentSlice => s.environmentState
  }

  function DataOf(s: StoreState, f: Fetch): Data {
    match f
    case FetchFlights => FlightList(s.flights)
    case FetchMaintenanceAssets => AssetList(s.maintenanceAssets)
    case FetchStaff => StaffList(s.staff)
    case FetchStaffAllocation => AllocationResult(s.staffAllocation)
    case FetchDynamicPricing => PricingResult(s.dynamicPricing)
    case FetchEnvironmentStats => EnvironmentResult(s.environmentStats)
  }

  function WithSlice(s: StoreState, g: Family, ls: LoadingState): StoreState {
    match g
    case FlightsSlice => s.(flightsState := ls)
    case MaintenanceSlice => s.(maintenanceState := ls)
    case StaffSlice => s.(staffState := ls)
    case RevenueSlice => s.(revenueState := ls)
    case EnvironmentSlice => s.(environmentState := ls)
  }

  function WithData(s: StoreState, d: Data): StoreState {
    match d
    case FlightList(v) => s.(flights := v)
    case AssetList(v) => s.(maintenanceAssets := v)
    case StaffList(v) => s.(staff := v)
    case AllocationResult(v) => s.(staffAllocation := v)
    case PricingResult(v) => s.(dynamicPricing := v)
    case EnvironmentResult(v) => s.(environmentStats := v)
  }

  /** The store as created: every slice idle, no data, both buffers empty. */
  function Initial(): (s: StoreState)
    ensures forall g :: Slice(s, g) == Idle
    ensures s.flights == [] && s.maintenanceAssets == [] && s.staff == []
    ensures s.staffAllocation == None && s.dynamicPricing == None && s.environmentStats == None
    ensures s.securityAlerts == [] && s.flightUpdates == []
  {
    StoreState([], Idle, [], Idle, [], None, Idle, None, Idle, None, Idle, [], [])
  }

  /** `addSecurityAlert`: the alert goes in front, the buffer keeps at most 50, nothing else moves. */
  function AfterSecurityAlert(s: StoreState, a: SecurityAlertEvent): (t: StoreState)
    ensures 1 <= |t.securityAlerts| <= Capacity && t.securityAlerts[0] == a
    ensures t.securityAlerts[1..] == s.securityAlerts[..Min(|s.securityAlerts|, Capacity - 1)]
    ensures t == s.(securityAlerts := t.securityAlerts)
  {
    s.(securityAlerts := Prepend(a, s.securityAlerts))
  }

  /** `addFlightUpdate`: the same rule on the flight-update buffer. */
  function AfterFlightUpdate(s: StoreState, u: FlightUpdateEvent): (t: StoreState)
    ensures 1 <= |t.flightUpdates| <= Capacity && t.flightUpdates[0] == u
    ensures t.flightUpdates[1..] == s.flightUpdates[..Min(|s.flightUpdates|, Capacity - 1)]
    ensures t == s.(flightUpdates := t.flightUpdates)
  {
    s.(flightUpdates := Prepend(u, s.flightUpdates))
  }

  /** `clearAlerts`: both buffers are emptied together; slices and data stay. */
  function Cleared(s: StoreState): (t: StoreState)
    ensures t.securityAlerts == [] && t.flightUpdates == []
    ensures forall g :: Slice(t, g) == Slice(s, g)
    ensures forall f :: DataOf(t, f) == DataOf(s, f)
  {
    s.(securityAlerts := [], flightUpdates := [])
  }

  /** The first `set` of a fetch: its slice becomes loading with no error; all data stays. */
  function Started(s: StoreState, f: Fetch): (t: StoreState)
    ensures Slice(t, SliceOf(f)) == Loading
    ensures forall g :: g != SliceOf(f) ==> Slice(t, g) == Slice(s, g)
    ensures forall f' :: DataOf(t, f') == DataOf(s, f')
    ensures t.securityAlerts == s.securityAlerts && t.flightUpdates == s.flightUpdates
  {
    WithSlice(s, SliceOf(f), Loading)
  }

  /**
   * The second `set` of a fetch, when its call settles. Success replaces the fetch's
   * data wholesale and leaves the slice idle; failure keeps the old data and records
   * the error's message. No other slice, data field or buffer changes.
   */
  function Settled(s: StoreState, c: Completion): (t: StoreState)
    ensures FailureOf(c).None? ==>
      Slice(t, SliceOf(FetchOf(c))) == Idle && DataOf(t, FetchOf(c)) == DeliveredData(c)
    ensures FailureOf(c).Some? ==>
      Slice(t, SliceOf(FetchOf(c))) == LoadingState(false, Some(GetErrorMessage(FailureOf(c).value))) &&
      DataOf(t, FetchOf(c)) == DataOf(s, FetchOf(c))
    ensures forall g :: g != SliceOf(FetchOf(c)) ==> Slice(t, g) == Slice(s, g)
    ensures forall f :: f != FetchOf(c) ==> DataOf(t, f) == DataOf(s, f)
    ensures t.securityAlerts == s.securityAlerts && t.flightUpdates == s.flightUpdates
  {
    var g := SliceOf(FetchOf(c));
    match FailureOf(c)
    case None => WithSlice(WithData(s, DeliveredData(c)), g, Idle)
    case Some(e) => WithSlice(s, g, LoadingState(false, Some(GetErrorMessage(e))))
  }

  /** Two stores that agree on the slices, data and buffers are the same store. */
  lemma {:induction false} StateExtensionality(s: StoreState, t: StoreState)
    requires forall g :: Slice(t, g) == Slice(s, g)
    requires forall f :: DataOf(t, f) == DataOf(s, f)
    requires t.securityAlerts == s.securityAlerts && t.flightUpdates == s.flightUpdates
    ensures s == t
  {
    assert Slice(t, FlightsSlice) == Slice(s, FlightsSlice);
    assert Slice(t, MaintenanceSlice) == Slice(s, MaintenanceSlice);
    assert Slice(t, StaffSlice) == Slice(s, StaffSlice);
    assert Slice(t, RevenueSlice) == Slice(s, RevenueSlice);
    assert Slice(t, EnvironmentSlice) == Slice(s, EnvironmentSlice);
    assert DataOf(t, FetchFlights) == DataOf(s, FetchFlights);
    assert DataOf(t, FetchMaintenanceAssets) == DataOf(s, FetchMaintenanceAssets);
    assert DataOf(t, FetchStaff) == DataOf(s, FetchStaff);
    assert DataOf(t, FetchStaffAllocation) == DataOf(s, FetchStaffAllocation);
    assert DataOf(t, FetchDynamicPricing) == DataOf(s, FetchDynamicPricing);
    assert DataOf(t, FetchEnvironmentStats) == DataOf(s, FetchEnvironmentStats);
  }

  /**
   * Last response wins: when a successful response is the last to arrive, the slice
   * and its data are those of that response, whatever arrived before it.
   */
  lemma LastArrivalWins(s: StoreState, earlier: Completion, later: Completion)
    requires FetchOf(earlier) == FetchOf(later) && FailureOf(later).None?
    ensures Slice(Settled(Settled(s, earlier), later), SliceOf(FetchOf(later))) == Idle
    ensures DataOf(Settled(Settled(s, earlier), later), FetchOf(later)) == DeliveredData(later)
  {
  }

  /** A failed response arriving last leaves the data of the response before it and reports its own error. */
  lemma FailureKeepsStaleData(s: StoreState, earlier: Completion, later: Completion)
    requires FetchOf(earlier) == FetchOf(later) && FailureOf(earlier).None? && FailureOf(later).Some?
    ensures DataOf(Settled(Settled(s, earlier), later), FetchOf(later)) == DeliveredData(earlier)
    ensures Slice(Settled(Settled(s, earlier), later), SliceOf(FetchOf(later))).error ==
      Some(GetErrorMessage(FailureOf(later).value))
  {
  }

  /** Completions on different slices do not interfere: their order of arrival does not matter. */
  lemma {:induction false} SettleCommutes(s: StoreState, c1: Completion, c2: Completion)
    requires SliceOf(FetchOf(c1)) != SliceOf(FetchOf(c2))
    ensures Settled(Settled(s, c1), c2) == Settled(Settled(s, c2), c1)
  {
    StateExtensionality(Settled(Settled(s, c1), c2), Settled(Settled(s, c2), c1));
  }

  /**
   * Staff and staff allocation share one slice: an allocation failure shows as the staff
   * slice's error although the staff list itself is untouched.
   */
  lemma SharedStaffSlice(s: StoreState, staffDone: Completion, allocationDone: Completion)
    requires staffDone.StaffLoaded? && FailureOf(staffDone).None?
    requires allocationDone.StaffAllocationLoaded? && FailureOf(allocationDone).Some?
    ensures var t := Settled(Settled(s, staffDone), allocationDone);
      t.staff == staffDone.staffOutcome.value && t.staffState.error.Some? && t.staffAllocation == s.staffAllocation
  {
    var t1 := Settled(s, staffDone);
    assert DataOf(t1, FetchStaff) == StaffList(staffDone.staffOutcome.value);
    assert DataOf(t1, FetchStaffAllocation) == DataOf(s, FetchStaffAllocation);
    var t := Settled(t1, allocationDone);
    assert DataOf(t, FetchStaff) == DataOf(t1, FetchStaff);
  }

  /** The slice state a completion leaves behind on its own slice. */
  function SettledSlice(c: Completion): LoadingState {
    match FailureOf(c)
    case None => Idle
    case Some(e) => LoadingState(false, Some(GetErrorMessage(e)))
  }

  /** Completions arriving one after another, in the order given. */
  function SettleAll(s: StoreState, cs: seq<Completion>): StoreState
    decreases |cs|
  {
    if cs == [] then s else SettleAll(Settled(s, cs[0]), cs[1..])
  }

  /** No two completions in `cs` belong to the same slice. */
  predicate DistinctSlices(cs: seq<Completion>) {
    forall i, j :: 0 <= i < j < |cs| ==> SliceOf(FetchOf(cs[i])) != SliceOf(FetchOf(cs[j]))
  }

  /** Completions for other slices leave a slice, and the data of other fetches, alone. */
  lemma {:induction false} SettleAllElsewhere(s: StoreState, cs: seq<Completion>, g: Family, f: Fetch)
    requires forall i :: 0 <= i < |cs| ==> SliceOf(FetchOf(cs[i])) != g
    requires forall i :: 0 <= i < |cs| ==> FetchOf(cs[i]) != f
    ensures Slice(SettleAll(s, cs), g) == Slice(s, g)
    ensures DataOf(SettleAll(s, cs), f) == DataOf(s, f)
    decreases |cs|
  {
    if cs != [] {
      SettleAllElsewhere(Settled(s, cs[0]), cs[1..], g, f);
    }
  }

  /**
   * Slices settle independently: whatever the arrival order, each slice ends in the
   * state its own completion dictates, and a failed one keeps its data.
   */
  lemma {:induction false} SettleAllIndependent(s: StoreState, cs: seq<Completion>, k: nat)
    requires DistinctSlices(cs) && k < |cs|
    ensures Slice(SettleAll(s, cs), SliceOf(FetchOf(cs[k]))) == SettledSlice(cs[k])
    ensures DataOf(SettleAll(s, cs), FetchOf(cs[k])) ==
      if FailureOf(cs[k]).None? then DeliveredData(cs[k]) else DataOf(s, FetchOf(cs[k]))
    decreases |cs|
  {
    if k == 0 {
      var f := FetchOf(cs[0]);
      forall i | 0 <= i < |cs[1..]|
        ensures SliceOf(FetchOf(cs[1..][i])) != SliceOf(f) && FetchOf(cs[1..][i]) != f
      {
        assert cs[1..][i] == cs[i + 1];
      }
      SettleAllElsewhere(Settled(s, cs[0]), cs[1..], SliceOf(f), f);
    } else {
      assert cs[1..][k - 1] == cs[k];
      SettleAllIndependent(Settled(s, cs[0]), cs[1..], k - 1);
      assert FetchOf(cs[0]) != FetchOf(cs[k]);
    }
  }

  // ---------------------------------------------------------------------------
  // The store object
  // ---------------------------------------------------------------------------

  class Store {
    var flights: seq<Flight>
    var flightsState: LoadingState
    var maintenanceAssets: seq<MaintenanceAsset>
    var maintenanceState: LoadingState
    var staff: seq<StaffMember>
    var staffAllocation: Option<StaffAllocation>
    var staffState: LoadingState
    var dynamicPricing: Option<DynamicPricing>
    var revenueState: LoadingState
    var environmentStats: Option<EnvironmentStats>
    var environmentState: LoadingState
    var securityAlerts: seq<SecurityAlertEvent>
    var flightUpdates: seq<FlightUpdateEvent>

    /** The fields of the store, read together. */
    function State(): StoreState
      reads this
    {
      StoreState(flights, flightsState, maintenanceAssets, maintenanceState, staff, staffAllocation,
        staffState, dynamicPricing, revenueState, environmentStats, environmentState,
        securityAlerts, flightUpdates)
    }

    constructor ()
      ensures State() == Initial()
    {
      flights, flightsState := [], Idle;
      maintenanceAssets, maintenanceState := [], Idle;
      staff, staffAllocation, staffState := [], None, Idle;
      dynamicPricing, revenueState := None, Idle;
      environmentStats, environmentState := None, Idle;
      securityAlerts, flightUpdates := [], [];
    }

    method AddSecurityAlert(alert: SecurityAlertEvent)
      modifies this
      ensures State() == AfterSecurityAlert(old(State()), alert)
    {
      securityAlerts := Prepend(alert, securityAlerts);
    }

    method AddFlightUpdate(update: FlightUpdateEvent)
      modifies this
      ensures State() == AfterFlightUpdate(old(State()), update)
    {
      flightUpdates := Prepend(update, flightUpdates);
    }

    method ClearAlerts()
      modifies this
      ensures State() == Cleared(old(State()))
    {
      securityAlerts, flightUpdates := [], [];
    }

    /** The first half of every fetch action: the shared `set({xState: {isLoading: true, error: null}})`. */
    method Begin(f: Fetch)
      modifies this
      ensures State() == Started(old(State()), f)
    {
      match SliceOf(f)
      case FlightsSlice => flightsState := Loading;
      case MaintenanceSlice => maintenanceState := Loading;
      case StaffSlice => staffState := Loading;
      case RevenueSlice => revenueState := Loading;
      case EnvironmentSlice => environmentState := Loading;
    }

    method CompleteFetchFlights(outcome: Result<seq<Flight>, Thrown>)
      modifies this
      ensures State() == Settled(old(State()), FlightsLoaded(outcome))
    {
      match outcome
      case Ok(v) => flights, flightsState := v, Idle;
      case Err(e) => flightsState := LoadingState(false, Some(GetErrorMessage(e)));
    }

    method CompleteFetchMaintenanceAssets(outcome: Result<seq<MaintenanceAsset>, Thrown>)
      modifies this
      ensures State() == Settled(old(State()), MaintenanceLoaded(outcome))
    {
      match outcome
      case Ok(v) => maintenanceAssets, maintenanceState := v, Idle;
      case Err(e) => maintenanceState := LoadingState(false, Some(GetErrorMessage(e)));
    }

    method CompleteFetchStaff(outcome: Result<seq<StaffMember>, Thrown>)
      modifies this
      ensures State() == Settled(old(State()), StaffLoaded(outcome))
    {
      match outcome
      case Ok(v) => staff, staffState := v, Idle;
      case Err(e) => staffState := LoadingState(false, Some(GetErrorMessage(e)));
    }

    method CompleteFetchStaffAllocation(outcome: Result<StaffAllocation, Thrown>)
      modifies this
      ensures State() == Settled(old(State()), StaffAllocationLoaded(outcome))
    {
      match outcome
      case Ok(v) => staffAllocation, staffState := Some(v), Idle;
      case Err(e) => staffState := LoadingState(false, Some(GetErrorMessage(e)));
    }

    method CompleteFetchDynamicPricing(outcome: Result<DynamicPricing, Thrown>)
      modifies this
      ensures State() == Settled(old(State()), PricingLoaded(outcome))
    {
      match outcome
      case Ok(v) => dynamicPricing, revenueState := Some(v), Idle;
      case Err(e) => revenueState := LoadingState(false, Some(GetErrorMessage(e)));
    }

    method CompleteFetchEnvironmentStats(outcome: Result<EnvironmentStats, Thrown>)
      modifies this
      ensures State() == Settled(old(State()), EnvironmentLoaded(outcome))
    {
      match outcome
      case Ok(v) => environmentStats, environmentState := Some(v), Idle;
      case Err(e) => environmentState := LoadingState(false, Some(GetErrorMessage(e)));
    }
  }
}
