/**
 * Normalisation of OpenRouter's key-info response into a provider-agnostic
 * usage snapshot. The HTTP exchange itself is an input: whether the status
 * was a success, the status code, and the already-parsed JSON body.
 */
module OpenRouterUsage {
  import opened Wrappers
  import opened Text

  const ProviderTag := "openrouter"
  const DisplayName := "OpenRouter"
  const CreditLabel := "Credit"
  const FreeTierPlan := "Free Tier"

  /** `data.rate_limit` of the response; read by nothing. */
  datatype RateLimit = RateLimit(requests: Option<real>, interval: Option<string>)

  /** `data` of the response; JSON `null` and a missing field are both None. */
  datatype KeyInfo = KeyInfo(
    keyLabel: Option<string>,  // `label`
    usage: Option<real>,
    limit: Option<real>,
    isFreeTier: Option<bool>,
    rateLimit: Option<RateLimit>)

  /**
   * The parsed JSON body: `null`, or any other value with its `data` field
   * (absent for a value that is not an object, or has no such field).
   */
  datatype KeyInfoResponse = NullResponse | KeyInfoResponse(data: Option<KeyInfo>)

  /** `data` of the body, with a `null` body read as having none. */
  function KeyData(body: KeyInfoResponse): Option<KeyInfo> {
    if body.NullResponse? then None else body.data
  }

  /** What the HTTP client reports: `res.ok` and `res.status`. */
  datatype HttpResult = HttpResult(ok: bool, status: nat)

  datatype UsageWindow = UsageWindow(title: string, usedPercent: real)

  datatype UsageSnapshot = UsageSnapshot(
    provider: string,
    displayName: string,
    windows: seq<UsageWindow>,
    plan: Option<string>,
    error: Option<string>)

  /** The shape every snapshot this module builds has. */
  predicate WellFormedSnapshot(snapshot: UsageSnapshot) {
    && snapshot.provider == ProviderTag
    && snapshot.displayName == DisplayName
    && |snapshot.windows| <= 1
    && (forall i :: 0 <= i < |snapshot.windows| ==>
          snapshot.windows[i].title == CreditLabel && 0.0 <= snapshot.windows[i].usedPercent <= 100.0)
    && (snapshot.error.Some? ==> snapshot.windows == [] && snapshot.plan.None?)
  }

  /** `Math.min(100, Math.max(0, x))`. */
  function ClampPercent(x: real): (r: real)
    ensures 0.0 <= r <= 100.0
    ensures 0.0 <= x <= 100.0 ==> r == x
    ensures x < 0.0 ==> r == 0.0
    ensures x > 100.0 ==> r == 100.0
  {
    var atLeastZero := if x < 0.0 then 0.0 else x;
    if atLeastZero > 100.0 then 100.0 else atLeastZero
  }

  /** `data.usage ?? 0`. */
  function UsageAmount(body: KeyInfoResponse): real {
    if KeyData(body).Some? && KeyData(body).value.usage.Some? then KeyData(body).value.usage.value else 0.0
  }

  /** `data.limit`, when it is a number greater than zero. */
  predicate HasPositiveLimit(body: KeyInfoResponse) {
    KeyData(body).Some? && KeyData(body).value.limit.Some? && KeyData(body).value.limit.value > 0.0
  }

  /** The unclamped share of the limit used, in percent. */
  function RawUsedPercent(body: KeyInfoResponse): real
    requires HasPositiveLimit(body)
  {
    UsageAmount(body) / KeyData(body).value.limit.value * 100.0
  }

  /** The usage windows of a successful response: one "Credit" window when a positive limit is reported. */
  function CreditWindows(body: KeyInfoResponse): (windows: seq<UsageWindow>)
    ensures |windows| <= 1
    ensures windows != [] <==> HasPositiveLimit(body)
    ensures forall i :: 0 <= i < |windows| ==>
      windows[i].title == CreditLabel && 0.0 <= windows[i].usedPercent <= 100.0
    ensures HasPositiveLimit(body) && 0.0 <= RawUsedPercent(body) <= 100.0 ==>
      windows == [UsageWindow(CreditLabel, RawUsedPercent(body))]
    ensures HasPositiveLimit(body) && RawUsedPercent(body) < 0.0 ==>
      windows == [UsageWindow(CreditLabel, 0.0)]
    ensures HasPositiveLimit(body) && RawUsedPercent(body) > 100.0 ==>
      windows == [UsageWindow(CreditLabel, 100.0)]
  {
    if HasPositiveLimit(body) then [UsageWindow(CreditLabel, ClampPercent(RawUsedPercent(body)))] else []
  }

  /** `is_free_tier ? "Free Tier" : label || undefined`. */
  function PlanLabel(body: KeyInfoResponse): (plan: Option<string>)
    ensures KeyData(body).None? ==> plan.None?
    ensures KeyData(body).Some? ==> var info := KeyData(body).value;
      && (info.isFreeTier == Some(true) ==> plan == Some(FreeTierPlan))
      && (info.isFreeTier != Some(true) && info.keyLabel.Some? && info.keyLabel.value != "" ==> plan == info.keyLabel)
      && (info.isFreeTier != Some(true) && (info.keyLabel.None? || info.keyLabel.value == "") ==> plan.None?)
    ensures plan.Some? ==> plan.value != ""
  {
    match KeyData(body)
    case None => None
    case Some(info) =>
      if info.isFreeTier == Some(true) then Some(FreeTierPlan)
      else if info.keyLabel.Some? && info.keyLabel.value != "" then info.keyLabel
      else None
  }

  /**
   * The snapshot `fetchOpenRouterUsage` returns once the response is in:
   * an "HTTP <status>" error for a failed status, otherwise the credit
   * window and the plan label.
   */
  function NormalizeOpenRouterUsage(res: HttpResult, body: KeyInfoResponse): (snapshot: UsageSnapshot)
    ensures WellFormedSnapshot(snapshot)
    ensures !res.ok ==>
      && snapshot.windows == []
      && snapshot.error == Some("HTTP " + Decimal(res.status))
      && snapshot.plan.None?
    ensures res.ok ==> snapshot.error.None? && snapshot.plan == PlanLabel(body)
    ensures snapshot.windows != [] <==> res.ok && HasPositiveLimit(body)
    ensures res.ok && HasPositiveLimit(body) && 0.0 <= RawUsedPercent(body) <= 100.0 ==>
      snapshot.windows == [UsageWindow(CreditLabel, RawUsedPercent(body))]
    ensures res.ok && HasPositiveLimit(body) && RawUsedPercent(body) < 0.0 ==>
      snapshot.windows == [UsageWindow(CreditLabel, 0.0)]
    ensures res.ok && HasPositiveLimit(body) && RawUsedPercent(body) > 100.0 ==>
      snapshot.windows == [UsageWindow(CreditLabel, 100.0)]
  {
    if !res.ok then
      UsageSnapshot(ProviderTag, DisplayName, [], None, Some("HTTP " + Decimal(res.status)))
    else
      UsageSnapshot(ProviderTag, DisplayName, CreditWindows(body), PlanLabel(body), None)
  }

  /** A failed response's snapshot does not depend on the body. */
  lemma FailedSnapshotIgnoresBody(res: HttpResult, body1: KeyInfoResponse, body2: KeyInfoResponse)
    requires !res.ok
    ensures NormalizeOpenRouterUsage(res, body1) == NormalizeOpenRouterUsage(res, body2)
  {
  }

  /** The error text names the status: its digits spell out `res.status`. */
  lemma ErrorNamesStatus(res: HttpResult, body: KeyInfoResponse)
    requires !res.ok
    ensures var error := NormalizeOpenRouterUsage(res, body).error.value;
      && error[..5] == "HTTP "
      && (forall i :: 5 <= i < |error| ==> IsDigit(error[i]))
      && DigitsValue(error[5..]) == res.status
  {
    var error := NormalizeOpenRouterUsage(res, body).error.value;
    assert error[5..] == Decimal(res.status);
  }

  /** `rate_limit` never influences the snapshot. */
  lemma RateLimitIgnored(res: HttpResult, info: KeyInfo, rateLimit: Option<RateLimit>)
    ensures NormalizeOpenRouterUsage(res, KeyInfoResponse(Some(info.(rateLimit := rateLimit))))
         == NormalizeOpenRouterUsage(res, KeyInfoResponse(Some(info)))
  {
  }

  /** With a positive limit and no reported usage, the credit window reads 0%. */
  lemma MissingUsageIsZeroPercent(res: HttpResult, info: KeyInfo)
    requires res.ok && info.usage.None? && info.limit.Some? && info.limit.value > 0.0
    ensures NormalizeOpenRouterUsage(res, KeyInfoResponse(Some(info))).windows == [UsageWindow(CreditLabel, 0.0)]
  {
  }

  /** A negative reported usage reads as 0%. */
  lemma NegativeUsageIsZeroPercent(res: HttpResult, body: KeyInfoResponse)
    requires res.ok && HasPositiveLimit(body) && UsageAmount(body) < 0.0
    ensures NormalizeOpenRouterUsage(res, body).windows == [UsageWindow(CreditLabel, 0.0)]
  {
    var limit := KeyData(body).value.limit.value;
    assert UsageAmount(body) / limit < 0.0;
  }

  /** Usage at or beyond the limit reads as 100%. */
  lemma OverLimitIsFull(res: HttpResult, body: KeyInfoResponse)
    requires res.ok && HasPositiveLimit(body) && UsageAmount(body) >= KeyData(body).value.limit.value
    ensures NormalizeOpenRouterUsage(res, body).windows == [UsageWindow(CreditLabel, 100.0)]
  {
    var limit := KeyData(body).value.limit.value;
    assert UsageAmount(body) / limit >= 1.0;
  }

  // ---------------------------------------------------------------------
  // The response handling as the source writes it

  /**
   * `fetchOpenRouterUsage` after the response as written: `data.data?.usage`
   * guards the field but not the body, so a successful response whose JSON
   * body is `null` raises a TypeError instead of producing a snapshot.
   * Everywhere else it returns what NormalizeOpenRouterUsage returns.
   */
  function NormalizeOpenRouterUsageAsWritten(res: HttpResult, body: KeyInfoResponse): (outcome: Result<UsageSnapshot, string>)
    ensures outcome.Failure? <==> res.ok && body.NullResponse?
    ensures outcome.Success? ==> outcome.value == NormalizeOpenRouterUsage(res, body)
  {
    if res.ok && body.NullResponse? then Failure("TypeError")
    else Success(NormalizeOpenRouterUsage(res, body))
  }

  /**
   * A `null` body fails as written, where the corrected normaliser reads it
   * like a body without `data`: no window, no plan, no error.
   */
  lemma NullBodyFailsAsWritten(res: HttpResult)
    requires res.ok
    ensures NormalizeOpenRouterUsageAsWritten(res, NullResponse).Failure?
    ensures NormalizeOpenRouterUsage(res, NullResponse)
         == NormalizeOpenRouterUsage(res, KeyInfoResponse(None))
    ensures NormalizeOpenRouterUsage(res, NullResponse)
         == UsageSnapshot(ProviderTag, DisplayName, [], None, None)
  {
  }
}
