/** The admin dashboard's derived values: the alert list, the active-flight count, the live feed and the start-up fetches. */
module AdminDashboard {
  import opened Wrappers
  import opened Entities
  import opened ApiStore
  import FlightsView
  import Api

  const DefaultAlertType := "Security Anomaly"
  const DefaultLocation := "Unknown"
  const DefaultMessage := "AI-detected security event"

  /** An alert as the feed shows it; `time` is the event's timestamp as the locale formats it. */
  datatype DisplayAlert = DisplayAlert(kind: string, location: string, message: string, time: string)

  /** One alert with its empty fields replaced by fixed defaults. */
  function ToDisplay(a: SecurityAlertEvent, formatTime: string -> string): (d: DisplayAlert)
    ensures d.kind != "" && d.location != "" && d.message != ""
    ensures a.kind != "" ==> d.kind == a.kind
    ensures a.kind == "" ==> d.kind == DefaultAlertType
    ensures a.location != "" ==> d.location == a.location
    ensures a.location == "" ==> d.location == DefaultLocation
    ensures a.message != "" ==> d.message == a.message
    ensures a.message == "" ==> d.message == DefaultMessage
    ensures d.time == formatTime(a.timestamp)
  {
    DisplayAlert(Api.Or(a.kind, DefaultAlertType), Api.Or(a.location, DefaultLocation),
      Api.Or(a.message, DefaultMessage), formatTime(a.timestamp))
  }

  /** `allAlerts`: every buffered alert, in buffer order, displayed. */
  function AllAlerts(alerts: seq<SecurityAlertEvent>, formatTime: string -> string): (r: seq<DisplayAlert>)
    ensures |r| == |alerts|
    ensures forall i :: 0 <= i < |alerts| ==> r[i] == ToDisplay(alerts[i], formatTime)
  {
    if alerts == [] then [] else [ToDisplay(alerts[0], formatTime)] + AllAlerts(alerts[1..], formatTime)
  }

  /** The security card's figure: ten plus one per buffered alert. */
  function SecurityStatValue(alerts: seq<SecurityAlertEvent>, formatTime: string -> string): (v: int)
    ensures v == 10 + |alerts|
  {
    10 + |AllAlerts(alerts, formatTime)|
  }

  /** The dashboard's active-flight count: scheduled or departed flights, or 128 when there are none. */
  function ActiveFlights(flights: seq<Flight>): (n: nat)
    ensures n >= 1
    ensures n == FlightsView.OnTimeCount(flights) || (FlightsView.OnTimeCount(flights) == 0 && n == 128)
  {
    var c := FlightsView.OnTimeCount(flights);
    if c == 0 then 128 else c
  }

  /** The fallback hides real data: a non-empty board with no flight on time shows 128 active flights. */
  lemma {:induction false} NoneOnTimeShows128(flights: seq<Flight>)
    requires forall i :: 0 <= i < |flights| ==> !IsOnTime(flights[i].status)
    ensures FlightsView.OnTimeCount(flights) == 0
    ensures ActiveFlights(flights) == 128
  {
    if flights != [] {
      NoneOnTimeShows128(flights[1..]);
    }
  }

  /** What the live feed lists. */
  datatype FeedItem = AlertItem(alert: DisplayAlert) | UpdateItem(update: FlightUpdateEvent)

  /** How many flight updates the feed shows. */
  const FeedUpdates := 3

  /** The live feed: all alerts, then the first (newest) three flight updates. */
  function LiveFeed(alerts: seq<SecurityAlertEvent>, updates: seq<FlightUpdateEvent>, formatTime: string -> string)
    : (r: seq<FeedItem>)
    ensures |r| == |alerts| + Min(|updates|, FeedUpdates)
    ensures forall i :: 0 <= i < |alerts| ==> r[i] == AlertItem(ToDisplay(alerts[i], formatTime))
    ensures forall j :: 0 <= j < Min(|updates|, FeedUpdates) ==> r[|alerts| + j] == UpdateItem(updates[j])
  {
    var shown := AllAlerts(alerts, formatTime);
    var latest := updates[..Min(|updates|, FeedUpdates)];
    seq(|shown|, i requires 0 <= i < |shown| => AlertItem(shown[i]))
      + seq(|latest|, j requires 0 <= j < |latest| => UpdateItem(latest[j]))
  }

  /** A flight update that has just arrived is the first update the feed shows, right after the alerts. */
  lemma NewestUpdateShownFirst(s: StoreState, u: FlightUpdateEvent, formatTime: string -> string)
    ensures var t := AfterFlightUpdate(s, u);
      LiveFeed(t.securityAlerts, t.flightUpdates, formatTime)[|t.securityAlerts|] == UpdateItem(u)
  {
  }

  /** The fetches the dashboard starts when it mounts, in the order it starts them. */
  const BootstrapFetches: seq<Fetch> :=
    [FetchFlights, FetchStaff, FetchMaintenanceAssets, FetchDynamicPricing, FetchEnvironmentStats]

  function StartAll(s: StoreState, fs: seq<Fetch>): StoreState
    decreases |fs|
  {
    if fs == [] then s else StartAll(Started(s, fs[0]), fs[1..])
  }

  /** The start-up fetches cover each of the five slices exactly once and leave out the staff allocation. */
  lemma BootstrapCoversEverySliceOnce()
    ensures |BootstrapFetches| == 5 && FetchStaffAllocation !in BootstrapFetches
    ensures (set f | f in BootstrapFetches :: SliceOf(f)) ==
      {FlightsSlice, MaintenanceSlice, StaffSlice, RevenueSlice, EnvironmentSlice}
    ensures forall i, j :: 0 <= i < j < 5 ==> SliceOf(BootstrapFetches[i]) != SliceOf(BootstrapFetches[j])
  {
    assert FetchFlights in BootstrapFetches && FetchStaff in BootstrapFetches;
    assert FetchMaintenanceAssets in BootstrapFetches && FetchDynamicPricing in BootstrapFetches;
    assert FetchEnvironmentStats in BootstrapFetches;
  }

  /** Starting fetches marks their slices loading and touches no data and no other slice. */
  lemma {:induction false} StartAllMarksLoading(s: StoreState, fs: seq<Fetch>)
    ensures forall f :: DataOf(StartAll(s, fs), f) == DataOf(s, f)
    ensures forall g :: (exists f :: f in fs && SliceOf(f) == g) ==> Slice(StartAll(s, fs), g) == Loading
    ensures forall g :: (forall f :: f in fs ==> SliceOf(f) != g) ==> Slice(StartAll(s, fs), g) == Slice(s, g)
    ensures StartAll(s, fs).securityAlerts == s.securityAlerts && StartAll(s, fs).flightUpdates == s.flightUpdates
    decreases |fs|
  {
    if fs != [] {
      StartAllMarksLoading(Started(s, fs[0]), fs[1..]);
      forall g | exists f :: f in fs && SliceOf(f) == g
        ensures Slice(StartAll(s, fs), g) == Loading
      {
        var f :| f in fs && SliceOf(f) == g;
        if f != fs[0] {
          assert f in fs[1..];
        }
      }
    }
  }

  /**
   * Partial readiness: after the start-up fetches begin and their five responses arrive in
   * any order, each slice shows its own response only; one failure does not disturb the others.
   */
  lemma PartialBootstrap(s: StoreState, arrivals: seq<Completion>, k: nat)
    requires |arrivals| == 5 && k < 5
    requires forall i :: 0 <= i < 5 ==> FetchOf(arrivals[i]) in BootstrapFetches
    requires forall i, j :: 0 <= i < j < 5 ==> FetchOf(arrivals[i]) != FetchOf(arrivals[j])
    ensures var t := SettleAll(StartAll(s, BootstrapFetches), arrivals);
      Slice(t, SliceOf(FetchOf(arrivals[k]))) == SettledSlice(arrivals[k]) &&
      DataOf(t, FetchOf(arrivals[k])) ==
        if FailureOf(arrivals[k]).None? then DeliveredData(arrivals[k]) else DataOf(s, FetchOf(arrivals[k]))
  {
    BootstrapCoversEverySliceOnce();
    forall i, j | 0 <= i < j < |arrivals|
      ensures SliceOf(FetchOf(arrivals[i])) != SliceOf(FetchOf(arrivals[j]))
    {
      var fi := FetchOf(arrivals[i]);
      var fj := FetchOf(arrivals[j]);
      assert fi != FetchStaffAllocation && fj != FetchStaffAllocation;
    }
    StartAllMarksLoading(s, BootstrapFetches);
    SettleAllIndependent(StartAll(s, BootstrapFetches), arrivals, k);
  }
}
