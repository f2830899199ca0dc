/** The API-key gate placed in front of the routes. */
module Auth {
  import opened Wrappers

  /** Either the request goes on to the next handler, or it is answered 401 "Unauthorized". */
  datatype AuthDecision = Proceed | Unauthorized {
    /** The status code of the gate's own answer; a request that proceeds is answered elsewhere. */
    function Code(): Option<int> {
      if Unauthorized? then Some(401) else None
    }
  }

  /**
   * The gate, given the configured key (the API_KEY setting, None when unset)
   * and the value of the X-Api-Key header (None when missing). An unset or empty key
   * disables the gate; otherwise only the identical string passes: no trimming,
   * no case folding.
   */
  function ApiKeyAuth(configured: Option<string>, provided: Option<string>): (d: AuthDecision)
    ensures configured.None? || configured == Some("") ==> d == Proceed
    ensures configured.Some? && configured.value != "" ==> (d == Proceed <==> provided == configured)
    ensures d == Unauthorized ==> d.Code() == Some(401)
  {
    if configured.None? || configured.value == "" then Proceed
    else if provided != configured then Unauthorized
    else Proceed
  }
}
