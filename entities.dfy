/** The client-side entity records and the live events the browser receives. */
module Entities {
  import opened Wrappers

  /** The five flight states a flight record can carry. */
  datatype FlightStatus = Scheduled | Delayed | Departed | Arrived | Cancelled

  /** A flight as the REST baseline delivers it (the fields the views read). */
  datatype Flight = Flight(
    id: string,
    flightNumber: string,
    airline: string,
    origin: string,
    destination: string,
    status: FlightStatus,
    gateAssignment: Option<string>)

  /** A flight counts as on time when it is scheduled or has departed. */
  predicate IsOnTime(s: FlightStatus) {
    s == Scheduled || s == Departed
  }

  datatype AssetStatus = Healthy | Warning | Critical | UnderMaintenance

  /** An infrastructure asset record; a missing next-maintenance date is `None`. */
  datatype MaintenanceAsset = MaintenanceAsset(
    assetId: string,
    assetType: string,
    status: AssetStatus,
    wearLevel: real,
    nextScheduledMaintenance: Option<string>)

  datatype StaffMember = StaffMember(name: string, employeeId: string, department: string, status: string)

  datatype DynamicPricing = DynamicPricing(economy: real, premium: real, demandIndex: real, recommendedPromos: seq<string>)

  datatype EnvironmentStats = EnvironmentStats(airQualityIndex: int, status: string, energySavingMode: bool)

  /** The chatbot endpoint's answer as the browser reads it. */
  datatype ChatbotResponse = ChatbotResponse(response: string, sentiment: Option<string>, timestamp: Option<string>)

  datatype SecurityAnomaly = SecurityAnomaly(kind: string, location: string, confidence: real, frameId: int)

  /**
   * A `securityAlert` event. A text field the sender left out reads as "" here:
   * both are falsy for the dashboard's defaulting.
   */
  datatype SecurityAlertEvent = SecurityAlertEvent(
    kind: string,
    location: string,
    message: string,
    timestamp: string,
    riskLevel: string,
    anomalies: seq<SecurityAnomaly>)

  /** A `flightUpdate` event. */
  datatype FlightUpdateEvent = FlightUpdateEvent(
    flightId: string,
    flightNumber: string,
    status: string,
    gate: Option<string>,
    timestamp: string)

  /** The risk levels the browser's security-analysis type admits. */
  predicate IsClientRiskLevel(r: string) {
    r == "low" || r == "elevated" || r == "critical"
  }
}
