/** The records the prediction service returns, field for field. */
module AiPayloads {
  import opened Wrappers

  datatype SecurityFinding = SecurityFinding(kind: string, location: string, confidence: real)

  datatype SecurityAnalysis = SecurityAnalysis(
    status: string,
    riskLevel: string,
    anomalies: seq<SecurityFinding>,
    processedFrames: int,
    detectionEngine: string)

  datatype BaggageAnomaly = BaggageAnomaly(kind: string, message: string, risk: string)

  datatype BaggagePrediction = BaggagePrediction(
    tagNumber: string,
    estimatedDeliveryTimeMinutes: int,
    currentStatus: string,
    anomalies: seq<BaggageAnomaly>,
    predictionConfidence: real)

  datatype MaintenancePrediction = MaintenancePrediction(
    assetId: string,
    wearLevel: real,
    riskScore: real,
    status: string,
    nextRecommendedMaintenance: string,
    visionDetection: seq<string>)

  datatype StaffCounts = StaffCounts(security: int, checkin: int, maintenance: int)

  datatype StaffAllocation = StaffAllocation(allocation: StaffCounts, efficiencyScore: real, sentimentAlerts: seq<string>)

  datatype ChatbotReply = ChatbotReply(response: string, intent: string, userId: string, language: string)

  /** One entry of an optimisation request; a key the caller left out is `None`. */
  datatype FlightRequest = FlightRequest(id: Option<string>, flightNumber: Option<string>)

  datatype FlightSuggestion = FlightSuggestion(
    flightId: Option<string>,
    flightNumber: Option<string>,
    recommendedGate: string,
    reasoning: string)

  datatype Optimization =
    | NoData
    | Optimized(suggestions: seq<FlightSuggestion>, optimizationTimestamp: int, algorithm: string)
}
