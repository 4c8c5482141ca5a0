/**
 * The prediction service's rules. Each endpoint is deterministic once its random draw,
 * clock reading or string hash is supplied as a parameter.
 */
module AiRules {
  import opened Wrappers
  import opened Text
  import opened AiPayloads
  import Entities
  import AiService
  import MaintenanceView

  // ---------------------------------------------------------------------------
  // Gate suggestions

  const OptimizationReasoning := "Determined by passenger distance optimization and aircraft turnaround time."
  const OptimizationAlgorithm := "XGBoost + Constraint Programming"

  /** The hashed key: the flight number, or the empty string when the entry has none. */
  function HashKey(f: FlightRequest): string {
    f.flightNumber.GetOr("")
  }

  /** The gate number drawn from a hash value: Python's `%` by a positive modulus never goes negative. */
  function GateNumber(h: int): (n: nat)
    ensures 1 <= n <= 20
  {
    h % 20 + 1
  }

  function GatePrefix(h: int): (p: char)
    ensures p == 'A' <==> h % 2 == 0
    ensures p == 'A' || p == 'B'
  {
    if h % 2 == 0 then 'A' else 'B'
  }

  /** The suggestion for one requested flight; `hash` stands for the service's string hash. */
  function Suggest(f: FlightRequest, hash: string -> int): FlightSuggestion {
    var h := hash(HashKey(f));
    FlightSuggestion(
      if f.id.Some? && f.id.value != "" then f.id else f.flightNumber,
      f.flightNumber,
      [GatePrefix(h)] + Digits(GateNumber(h)),
      OptimizationReasoning)
  }

  /** Every suggested gate is a letter A or B (A exactly for an even hash) followed by a number 1..20. */
  lemma SuggestedGateShape(f: FlightRequest, hash: string -> int)
    ensures var g := Suggest(f, hash).recommendedGate; var h := hash(HashKey(f));
      2 <= |g| <= 3 && (g[0] == 'A' <==> h % 2 == 0) && (g[0] == 'A' || g[0] == 'B') &&
      1 <= ParseDigits(g[1..]) <= 20
  {
    var h := hash(HashKey(f));
    var g := Suggest(f, hash).recommendedGate;
    assert g[1..] == Digits(GateNumber(h));
    DigitsRoundTrip(GateNumber(h));
  }

  /** The suggestion names the flight by its id when that is non-empty, and by its number otherwise. */
  lemma SuggestionIdentifiesFlight(f: FlightRequest, hash: string -> int)
    ensures f.id.Some? && f.id.value != "" ==> Suggest(f, hash).flightId == f.id
    ensures f.id.None? || f.id.value == "" ==> Suggest(f, hash).flightId == f.flightNumber
    ensures Suggest(f, hash).flightNumber == f.flightNumber
  {
  }

  /** `optimize_flights`: no data for a missing or empty list, else one suggestion per flight, in order. */
  method OptimizeFlights(flights: Option<seq<FlightRequest>>, hash: string -> int, now: int) returns (r: Optimization)
    ensures flights.None? || flights.value == [] <==> r == NoData
    ensures r.Optimized? ==>
      r.optimizationTimestamp == now && r.algorithm == OptimizationAlgorithm &&
      |r.suggestions| == |flights.value| &&
      forall i :: 0 <= i < |r.suggestions| ==> r.suggestions[i] == Suggest(flights.value[i], hash)
  {
    if flights.None? || flights.value == [] {
      return NoData;
    }
    var requested := flights.value;
    var suggestions: seq<FlightSuggestion> := [];
    var i := 0;
    while i < |requested|
      invariant 0 <= i <= |requested|
      invariant |suggestions| == i
      invariant forall k :: 0 <= k < i ==> suggestions[k] == Suggest(requested[k], hash)
    {
      var f := requested[i];
      var h := hash(HashKey(f));
      var gate := [GatePrefix(h)] + Digits(GateNumber(h));
      var id := if f.id.Some? && f.id.value != "" then f.id else f.flightNumber;
      suggestions := suggestions + [FlightSuggestion(id, f.flightNumber, gate, OptimizationReasoning)];
      i := i + 1;
    }
    r := Optimized(suggestions, now, OptimizationAlgorithm);
  }

  // ---------------------------------------------------------------------------
  // Security analysis

  const AnomalyDrawThreshold := 0.8
  const UnattendedBaggage := SecurityFinding("Unattended Baggage", "Terminal 1, Zone C", 0.94)

  /** `analyze_security` for the random draw `draw`. */
  function AnalyzeSecurity(draw: real): (a: SecurityAnalysis)
    ensures draw > AnomalyDrawThreshold <==> |a.anomalies| > 0
    ensures draw > AnomalyDrawThreshold ==> a.anomalies == [UnattendedBaggage] && a.riskLevel == "medium"
    ensures draw <= AnomalyDrawThreshold ==> a.anomalies == [] && a.riskLevel == "low"
    ensures a.status == "active" && a.processedFrames == 124
    ensures a.detectionEngine == "YOLOv8 + custom behavioral model"
  {
    var anomalies := if draw > AnomalyDrawThreshold then [UnattendedBaggage] else [];
    var riskLevel := if draw > AnomalyDrawThreshold then "medium" else "low";
    SecurityAnalysis("active", riskLevel, anomalies, 124, "YOLOv8 + custom behavioral model")
  }

  /**
   * Every analysis the backend relays to the browsers carries a risk level the client's type
   * does not admit, and every analysis whose risk level the client admits is not relayed.
   */
  lemma RelayedRiskLevelUnknownToClient(draw: real)
    ensures AiService.ShouldAlert(Some(AnalyzeSecurity(draw))) <==>
      !Entities.IsClientRiskLevel(AnalyzeSecurity(draw).riskLevel)
  {
  }

  // ---------------------------------------------------------------------------
  // Baggage prediction

  const BaseDeliveryMinutes := 15
  const MisroutedKind := "Misrouted Potential"

  function MisroutedAnomaly(tag: string): BaggageAnomaly {
    BaggageAnomaly(MisroutedKind, "Baggage " + tag + " detected in wrong loading zone.", "high")
  }

  /** `predict_baggage` for the requested tag (absent: "UNK") and the random delay draw. */
  function PredictBaggage(tag: Option<string>, delay: int): (p: BaggagePrediction)
    ensures p.tagNumber == tag.GetOr("UNK")
    ensures p.estimatedDeliveryTimeMinutes == BaseDeliveryMinutes + delay
    ensures 0 <= delay <= 10 ==> 15 <= p.estimatedDeliveryTimeMinutes <= 25
    ensures |p.anomalies| > 0 <==> delay > 8
    ensures delay > 8 ==> p.anomalies == [MisroutedAnomaly(p.tagNumber)]
    ensures p.currentStatus == (if |p.anomalies| > 0 then "Flagged" else "InTransit")
    ensures p.predictionConfidence == 0.89
  {
    var t := tag.GetOr("UNK");
    var anomalies := if delay > 8 then [MisroutedAnomaly(t)] else [];
    BaggagePrediction(t, BaseDeliveryMinutes + delay, if anomalies == [] then "InTransit" else "Flagged", anomalies, 0.89)
  }

  // ---------------------------------------------------------------------------
  // Maintenance prediction

  const CriticalStatus := "Critical - Immediate Inspection Required"
  const WarningStatus := "Warning - Schedule Maintenance"
  const HealthyStatus := "Healthy"
  const VisionFindings := ["Surface Cracks", "Hydraulic Leak Potential"]

  /** `predict_maintenance` for the requested asset (absent: "GATE-01") and the random wear draw. */
  function PredictMaintenance(assetId: Option<string>, wear: real): (m: MaintenancePrediction)
    ensures m.assetId == assetId.GetOr("GATE-01")
    ensures m.wearLevel == wear && m.riskScore == wear * 100.0
    ensures m.status == CriticalStatus <==> m.riskScore > 80.0
    ensures m.status == WarningStatus <==> 50.0 < m.riskScore <= 80.0
    ensures m.status == HealthyStatus <==> m.riskScore <= 50.0
    ensures m.nextRecommendedMaintenance == (if m.riskScore < 50.0 then "2026-02-15" else "2026-01-20")
    ensures |m.visionDetection| > 0 <==> m.riskScore > 60.0
  {
    var risk := wear * 100.0;
    var status := if risk > 80.0 then CriticalStatus else if risk > 50.0 then WarningStatus else HealthyStatus;
    MaintenancePrediction(
      assetId.GetOr("GATE-01"), wear, risk, status,
      if risk < 50.0 then "2026-02-15" else "2026-01-20",
      if risk > 60.0 then VisionFindings else [])
  }

  /** The three statuses line up with the dashboard's three wear bands applied to the risk score. */
  lemma StatusMatchesWearBand(assetId: Option<string>, wear: real)
    ensures var m := PredictMaintenance(assetId, wear);
      (m.status == CriticalStatus <==> MaintenanceView.WearBand(m.riskScore) == MaintenanceView.Red) &&
      (m.status == WarningStatus <==> MaintenanceView.WearBand(m.riskScore) == MaintenanceView.Orange) &&
      (m.status == HealthyStatus <==> MaintenanceView.WearBand(m.riskScore) == MaintenanceView.Green)
  {
  }

  /**
   * The date and the status use different cut-offs: a healthy asset gets the earlier, urgent
   * date exactly when its score is 50, and every non-healthy asset gets it too.
   */
  lemma HealthyGetsUrgentDateOnlyAtFifty(assetId: Option<string>, wear: real)
    ensures var m := PredictMaintenance(assetId, wear);
      (m.status == HealthyStatus && m.nextRecommendedMaintenance == "2026-01-20") <==> m.riskScore == 50.0
    ensures var m := PredictMaintenance(assetId, wear);
      m.status != HealthyStatus ==> m.nextRecommendedMaintenance == "2026-01-20"
  {
  }

  // ---------------------------------------------------------------------------
  // Staff allocation

  const DefaultPredictedPassengers := 1200
  const SentimentDrawThreshold := 0.7
  const StressAlert := "High stress detected in Terminal B staff feedback"

  /** Python's `int(a / b)` for a positive divisor: the quotient truncated toward zero. */
  function TruncDiv(a: int, b: int): (q: int)
    requires b > 0
    ensures a >= 0 ==> q * b <= a < (q + 1) * b
    ensures a < 0 ==> (q - 1) * b < a <= q * b
  {
    if a >= 0 then a / b else -((-a) / b)
  }

  function Max(a: int, b: int): int {
    if a >= b then a else b
  }

  /** `allocate_staff` for the predicted passenger count (absent: 1200) and the random sentiment draw. */
  function AllocateStaff(passengers: Option<int>, draw: real): (s: StaffAllocation)
    ensures var p := passengers.GetOr(DefaultPredictedPassengers);
      s.allocation.security == Max(5, TruncDiv(p, 200)) &&
      s.allocation.checkin == Max(4, TruncDiv(p, 150)) &&
      s.allocation.maintenance == Max(2, TruncDiv(p, 400))
    ensures s.allocation.security >= 5 && s.allocation.checkin >= 4 && s.allocation.maintenance >= 2
    ensures s.efficiencyScore == 0.94
    ensures |s.sentimentAlerts| > 0 <==> draw > SentimentDrawThreshold
  {
    var p := passengers.GetOr(DefaultPredictedPassengers);
    StaffAllocation(
      StaffCounts(Max(5, TruncDiv(p, 200)), Max(4, TruncDiv(p, 150)), Max(2, TruncDiv(p, 400))),
      0.94,
      if draw > SentimentDrawThreshold then [StressAlert] else [])
  }

  /** Without a forecast the service plans 6 security, 8 check-in and 3 maintenance staff. */
  lemma DefaultAllocation(draw: real)
    ensures AllocateStaff(None, draw).allocation == StaffCounts(6, 8, 3)
  {
  }

  /** The minimums bind exactly below 1200, 750 and 1200 passengers respectively. */
  lemma AllocationAboveMinimum(p: int, draw: real)
    ensures AllocateStaff(Some(p), draw).allocation.security > 5 <==> p >= 1200
    ensures AllocateStaff(Some(p), draw).allocation.checkin > 4 <==> p >= 750
    ensures AllocateStaff(Some(p), draw).allocation.maintenance > 2 <==> p >= 1200
  {
  }

  /** More passengers never means fewer staff of any kind. */
  lemma AllocationMonotone(p1: int, p2: int, d1: real, d2: real)
    requires p1 <= p2
    ensures var a1, a2 := AllocateStaff(Some(p1), d1).allocation, AllocateStaff(Some(p2), d2).allocation;
      a1.security <= a2.security && a1.checkin <= a2.checkin && a1.maintenance <= a2.maintenance
  {
  }

  // ---------------------------------------------------------------------------
  // Chatbot

  datatype Topic = FlightTopic | FoodTopic | GateTopic | OtherTopic

  /** The keyword classification on the lower-cased query, first match winning. */
  function Classify(query: string): (t: Topic)
    ensures t == FlightTopic <==> Contains(Lower(query), "flight")
    ensures t == FoodTopic <==> (
              !Contains(Lower(query), "flight") &&
              (Contains(Lower(query), "restaurant") || Contains(Lower(query), "food")))
    ensures t == GateTopic <==> (
              !Contains(Lower(query), "flight") && !Contains(Lower(query), "restaurant") &&
              !Contains(Lower(query), "food") && Contains(Lower(query), "gate"))
  {
    var q := Lower(query);
    if Contains(q, "flight") then FlightTopic
    else if Contains(q, "restaurant") || Contains(q, "food") then FoodTopic
    else if Contains(q, "gate") then GateTopic
    else OtherTopic
  }

  const FlightAnswer := "I can help with flight inquiries. Your flight to London (BA123) is currently on time at Gate B4."
  const FoodAnswer := "There are several great options! I recommend 'The Cloud Bistro' in Terminal 2 for local cuisine."
  const GateAnswer := "Please provide your flight number, and I'll give you the fastest route to your gate."
  const EchoPrefix := "I'm your Smart Airport assistant. I'm here to help with your journey. You said: '"

  /** `chatbot_response`: the canned answer of the query's topic, or an echo of the query as typed. */
  function ChatbotResponse(query: string, userId: string): (r: ChatbotReply)
    ensures r.userId == userId && r.intent == "information_retrieval" && r.language == "en"
    ensures Classify(query) == FlightTopic ==> r.response == FlightAnswer
    ensures Classify(query) == FoodTopic ==> r.response == FoodAnswer
    ensures Classify(query) == GateTopic ==> r.response == GateAnswer
    ensures Classify(query) == OtherTopic ==> r.response == EchoPrefix + query + "'"
  {
    var response := match Classify(query)
      case FlightTopic => FlightAnswer
      case FoodTopic => FoodAnswer
      case GateTopic => GateAnswer
      case OtherTopic => EchoPrefix + query + "'";
    ChatbotReply(response, "information_retrieval", userId, "en")
  }

  /** Queries that differ only in letter case get the same topic, and the same answer unless it is the echo. */
  lemma ChatbotIgnoresCase(q1: string, q2: string, userId: string)
    requires Lower(q1) == Lower(q2)
    ensures Classify(q1) == Classify(q2)
    ensures Classify(q1) != OtherTopic ==> ChatbotResponse(q1, userId) == ChatbotResponse(q2, userId)
  {
  }

  /** A query mentioning a flight is answered about flights whatever else it mentions. */
  lemma FlightKeywordWins(before: string, after: string, userId: string)
    ensures ChatbotResponse(before + "flight" + after, userId).response == FlightAnswer
  {
    var q := before + "flight" + after;
    var low := Lower(q);
    forall k | 0 <= k < 6 ensures low[|before| + k] == "flight"[k] {
      assert q[|before| + k] == "flight"[k];
      assert LowerChar("flight"[k]) == "flight"[k];
    }
    assert low[|before|..|before| + 6] == "flight";
    assert OccursAt(low, "flight", |before|);
  }
}
