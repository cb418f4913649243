/**
 * The frontend's backend probe (frontend/src/services/backendCompatibility.js):
 * one GET of `${API_BASE_URL}/events`, reduced to whether a backend answered
 * and whether it answered with a placeholder greeting instead of data. The
 * request is given by its outcome: it threw (network failure, or a body that
 * could not be read), or it produced a response.
 */
module BackendCompatibility {
  import opened JsText
  import opened JsValues

  /** `import.meta.env.VITE_API_BASE_URL || "/api"`; `configured` is "" when the variable is unset. */
  function ApiBaseUrl(configured: string): (url: string)
    ensures configured == "" ==> url == "/api"
    ensures configured != "" ==> url == configured
  {
    if configured != "" then configured else "/api"
  }

  const PLACEHOLDER_HINT: string := "route working"

  /**
   * A response payload: a string (the text of a non-JSON body, or a JSON body
   * that decodes to a string) or any other decoded JSON value.
   */
  datatype Payload = StringPayload(text: string) | NonStringPayload

  /** `isPlaceholderPayload(payload)` */
  predicate IsPlaceholderPayload(payload: Payload) {
    payload.StringPayload? && Includes(ToLower(payload.text), PLACEHOLDER_HINT)
  }

  /** How the probe request ended. */
  datatype Outcome = Threw | Response(ok: bool, status: nat, payload: Payload)

  /** What `detectBackendStatus` resolves to; `reason` None is `null`. */
  datatype Status = Status(connected: bool, placeholderRoutes: bool, reason: Option<string>)

  function DetectBackendStatus(outcome: Outcome): (s: Status)
    ensures outcome.Threw? ==> s == Status(false, false, Some("unreachable"))
    ensures outcome.Response? && !outcome.ok ==> s == Status(false, false, Some("HTTP " + Decimal(outcome.status)))
    ensures outcome.Response? && outcome.ok ==> s.connected && s.reason.None?
    ensures outcome.Response? && outcome.ok ==> (s.placeholderRoutes <==> IsPlaceholderPayload(outcome.payload))
  {
    match outcome
    case Threw => Status(false, false, Some("unreachable"))
    case Response(ok, status, payload) =>
      if !ok then Status(false, false, Some("HTTP " + Decimal(status)))
      else Status(true, IsPlaceholderPayload(payload), None)
  }

  /** A reason is given exactly when no backend answered, and placeholder routes are only reported for an answer. */
  lemma StatusConsistent(outcome: Outcome)
    ensures DetectBackendStatus(outcome).connected <==> DetectBackendStatus(outcome).reason.None?
    ensures DetectBackendStatus(outcome).placeholderRoutes ==> DetectBackendStatus(outcome).connected
  {
  }

  /** Any text holding the hint, in any letter case, is a placeholder payload. */
  lemma HintAnywhereIsPlaceholder(before: string, hint: string, after: string)
    requires |hint| == |PLACEHOLDER_HINT|
    requires forall i :: 0 <= i < |hint| ==> LowerChar(hint[i]) == PLACEHOLDER_HINT[i]
    ensures IsPlaceholderPayload(StringPayload(before + hint + after))
  {
    LoweredIncludes(before, hint, after, PLACEHOLDER_HINT);
  }

  /** The hint is written in lower case. */
  lemma HintIsLowerCase()
    ensures forall i :: 0 <= i < |PLACEHOLDER_HINT| ==> LowerChar(PLACEHOLDER_HINT[i]) == PLACEHOLDER_HINT[i]
  {
    forall i | 0 <= i < |PLACEHOLDER_HINT| ensures LowerChar(PLACEHOLDER_HINT[i]) == PLACEHOLDER_HINT[i] {
      assert PLACEHOLDER_HINT[i] == ' ' || 'a' <= PLACEHOLDER_HINT[i] <= 'z';
    }
  }

  /** A greeting of the backend's form "Users route working …" (`GET /api/users`) is recognised as a placeholder. */
  lemma UsersGreetingIsPlaceholder(suffix: string)
    ensures IsPlaceholderPayload(StringPayload("Users " + PLACEHOLDER_HINT + suffix))
  {
    HintIsLowerCase();
    HintAnywhereIsPlaceholder("Users ", PLACEHOLDER_HINT, suffix);
  }

  /** A payload that is not a string, such as a list of events, is never taken for a placeholder. */
  lemma NonStringPayloadIsData(status: nat)
    ensures !DetectBackendStatus(Response(true, status, NonStringPayload)).placeholderRoutes
  {
  }
}
