/** The maintenance page's derived values: the asset cards, their colour bands and the loading placeholder. */
module MaintenanceView {
  import opened Wrappers
  import opened Entities
  import opened Text

  const NotAvailable := "N/A"

  /** One asset card. */
  datatype DisplayAsset = DisplayAsset(id: string, kind: string, status: AssetStatus, wear: real, next: string)

  /** The date part of an ISO timestamp: the text before the first `T`, or `N/A` when absent or empty. */
  function NextDate(stamp: Option<string>): (r: string)
    ensures r != "" && 'T' !in r
    ensures stamp.None? ==> r == NotAvailable
    ensures stamp.Some? && stamp.value != "" && stamp.value[0] != 'T' ==>
      |r| <= |stamp.value| && r == stamp.value[..|r|] && (|r| < |stamp.value| ==> stamp.value[|r|] == 'T')
    ensures stamp.Some? && (stamp.value == "" || stamp.value[0] == 'T') ==> r == NotAvailable
  {
    match stamp
    case None => NotAvailable
    case Some(s) => var d := BeforeFirst(s, 'T'); if d == "" then NotAvailable else d
  }

  /** A timestamp `date + "T" + time` with a non-empty date shows exactly that date. */
  lemma NextDateOfTimestamp(date: string, time: string)
    requires date != "" && 'T' !in date
    ensures NextDate(Some(date + "T" + time)) == date
  {
    BeforeFirstOfJoin(date, 'T', time);
  }

  function ToCard(a: MaintenanceAsset): (d: DisplayAsset)
    ensures d.id == a.assetId && d.kind == a.assetType && d.status == a.status && d.wear == a.wearLevel
    ensures d.next == NextDate(a.nextScheduledMaintenance)
  {
    DisplayAsset(a.assetId, a.assetType, a.status, a.wearLevel, NextDate(a.nextScheduledMaintenance))
  }

  /** The cards shown when the store holds no assets. */
  const FallbackAssets: seq<DisplayAsset> := [
    DisplayAsset("GATE-A1", "PBB (Jet Bridge)", Healthy, 12.0, "2026-03-10"),
    DisplayAsset("RVW-04", "Runway Surface", Warning, 64.0, "2026-01-25"),
    DisplayAsset("SCN-T1", "Security Scanner", Critical, 88.0, "2026-01-18"),
    DisplayAsset("BLT-02", "Baggage Belt", Healthy, 34.0, "2026-02-14")
  ]

  /** `displayAssets`: one card per stored asset, in order, or the fixed four when there are none. */
  function DisplayAssets(assets: seq<MaintenanceAsset>): (r: seq<DisplayAsset>)
    ensures assets == [] ==> r == FallbackAssets
    ensures assets != [] ==> |r| == |assets| && forall i :: 0 <= i < |assets| ==> r[i] == ToCard(assets[i])
  {
    if assets == [] then FallbackAssets else seq(|assets|, i requires 0 <= i < |assets| => ToCard(assets[i]))
  }

  /** The colour of the wear figure and bar. */
  datatype Band = Red | Orange | Green

  function WearBand(wear: real): (b: Band)
    ensures b == Red <==> wear > 80.0
    ensures b == Orange <==> 50.0 < wear <= 80.0
    ensures b == Green <==> wear <= 50.0
  {
    if wear > 80.0 then Red else if wear > 50.0 then Orange else Green
  }

  /** More wear never gives a milder band. */
  lemma WearBandMonotone(w1: real, w2: real)
    requires w1 <= w2
    ensures WearBand(w1) == Red ==> WearBand(w2) == Red
    ensures WearBand(w2) == Green ==> WearBand(w1) == Green
  {
  }

  /** The tone of the status badge and glow: danger for critical, caution for warning, success otherwise. */
  datatype Tone = Danger | Caution | Success

  function StatusTone(st: AssetStatus): (t: Tone)
    ensures t == Danger <==> st == Critical
    ensures t == Caution <==> st == Warning
  {
    match st
    case Critical => Danger
    case Warning => Caution
    case _ => Success
  }

  /** The placeholder grid is shown while loading with nothing to show yet. */
  predicate ShowsSkeleton(isLoading: bool, assetCount: nat) {
    isLoading && assetCount == 0
  }

  /** The card grid is shown when not loading, or when there is something to show. */
  predicate ShowsCards(isLoading: bool, assetCount: nat) {
    !isLoading || assetCount > 0
  }

  /** Exactly one of placeholder and cards is on screen. */
  lemma SkeletonXorCards(isLoading: bool, assetCount: nat)
    ensures ShowsSkeleton(isLoading, assetCount) != ShowsCards(isLoading, assetCount)
  {
  }
}
