/**
 * The backend's client of the AI service: every call posts to one fixed path below the
 * configured base URL, returns the response body unchanged and rethrows any failure.
 * A security analysis that reports anomalies is also relayed to the browsers.
 */
module AiService {
  import opened Wrappers
  import opened AiPayloads
  import opened Gateway

  const DefaultBaseUrl := "http://localhost:8000"

  /** The base URL: the configured value unless it is missing or empty. */
  function BaseUrl(configured: Option<string>): (r: string)
    ensures configured.Some? && configured.value != "" ==> r == configured.value
    ensures configured.None? || configured.value == "" ==> r == DefaultBaseUrl
    ensures r != ""
  {
    if configured.Some? && configured.value != "" then configured.value else DefaultBaseUrl
  }

  /** The AI service's endpoints the backend calls. */
  datatype Endpoint =
    | OptimizeFlights | SecurityAnalyze | ChatbotEndpoint | BaggagePredict
    | MaintenancePredict | StaffAllocate | RevenuePricing | EnvironmentStats

  function Path(e: Endpoint): (p: string)
    ensures |p| > 1 && p[0] == '/'
  {
    match e
    case OptimizeFlights => "/optimize-flights"
    case SecurityAnalyze => "/security/analyze"
    case ChatbotEndpoint => "/chatbot"
    case BaggagePredict => "/baggage/predict"
    case MaintenancePredict => "/maintenance/predict"
    case StaffAllocate => "/staff/allocate"
    case RevenuePricing => "/revenue/pricing"
    case EnvironmentStats => "/environment/stats"
  }

  /** The endpoint a path names, if any. */
  function RouteOf(path: string): Option<Endpoint> {
    if path == "/optimize-flights" then Some(OptimizeFlights)
    else if path == "/security/analyze" then Some(SecurityAnalyze)
    else if path == "/chatbot" then Some(ChatbotEndpoint)
    else if path == "/baggage/predict" then Some(BaggagePredict)
    else if path == "/maintenance/predict" then Some(MaintenancePredict)
    else if path == "/staff/allocate" then Some(StaffAllocate)
    else if path == "/revenue/pricing" then Some(RevenuePricing)
    else if path == "/environment/stats" then Some(EnvironmentStats)
    else None
  }

  /** Each endpoint's path leads back to that endpoint. */
  lemma RouteRoundTrip(e: Endpoint)
    ensures RouteOf(Path(e)) == Some(e)
  {
  }

  /** No two operations share a URL, whatever the base. */
  lemma PathsDistinct(base: string, e1: Endpoint, e2: Endpoint)
    requires e1 != e2
    ensures base + Path(e1) != base + Path(e2)
  {
    assert (base + Path(e1))[|base|..] == Path(e1);
    assert (base + Path(e2))[|base|..] == Path(e2);
    RouteRoundTrip(e1);
    RouteRoundTrip(e2);
  }

  /** A transport or HTTP failure of a call to the AI service. */
  datatype CallFailure = CallFailure(message: string)

  /** Whether an analysis body is relayed: present, with at least one anomaly. */
  predicate ShouldAlert(body: Option<SecurityAnalysis>)
  {
    body.Some? && |body.value.anomalies| > 0
  }

  /** The events relaying a security call's outcome adds to each inbox. */
  function SecurityRelay(outcome: Result<Option<SecurityAnalysis>, CallFailure>): (es: seq<Event>)
    ensures |es| <= 1
    ensures |es| == 1 <==> outcome.Ok? && ShouldAlert(outcome.value)
    ensures |es| == 1 ==> es[0] == Event(SecurityAlertEventName, SecurityPayload(outcome.value.value))
  {
    if outcome.Ok? && ShouldAlert(outcome.value) then
      [Event(SecurityAlertEventName, SecurityPayload(outcome.value.value))]
    else []
  }

  class AIService {
    const aiBaseUrl: string
    const gateway: Hub

    constructor (configured: Option<string>, gateway: Hub)
      ensures aiBaseUrl == BaseUrl(configured) && this.gateway == gateway
    {
      aiBaseUrl := BaseUrl(configured);
      this.gateway := gateway;
    }

    /**
     * One forwarding call: the URL posted to and what the caller gets back, the response
     * body when the call succeeds and the same failure when it does not.
     */
    method Forward<T>(e: Endpoint, response: Result<T, CallFailure>) returns (url: string, r: Result<T, CallFailure>)
      ensures url == aiBaseUrl + Path(e)
      ensures r == response
    {
      url := aiBaseUrl + Path(e);
      match response {
        case Ok(body) => r := Ok(body);
        case Err(failure) => r := Err(failure);
      }
    }

    /** `analyzeSecurity`: forward, and relay the body as a security alert when it carries anomalies. */
    method AnalyzeSecurity(response: Result<Option<SecurityAnalysis>, CallFailure>)
      returns (url: string, r: Result<Option<SecurityAnalysis>, CallFailure>)
      requires gateway.Valid()
      modifies gateway
      ensures gateway.Valid()
      ensures url == aiBaseUrl + Path(SecurityAnalyze) && r == response
      ensures gateway.inboxes == DeliveredAll(old(gateway.inboxes), SecurityRelay(response))
    {
      url, r := Forward(SecurityAnalyze, response);
      if r.Ok? && ShouldAlert(r.value) {
        gateway.SendSecurityAlert(r.value.value);
      }
    }
  }
}
