/**
 * The runtime settings read at call time by the result paths: the single-use
 * toggle (SINGLE_USE_RESULTS) and the removal delay (RESULT_REMOVAL_DELAY),
 * passed in as the raw optional strings of the environment.
 */
module Settings {
  import opened Wrappers
  import opened JsValues

  /** Single-use is on unless the toggle is exactly "false". */
  function SingleUse(toggle: Option<string>): (on: bool)
    ensures on <==> toggle != Some("false")
  {
    toggle != Some("false")
  }

  const DefaultRemovalDelay: string := "300000"

  /** The delay in ms after which the deferred delete fires: `parseInt(env || "300000")` as the timer uses it. */
  function RemovalDelay(env: Option<string>): (d: int)
    ensures 1 <= d <= TimeoutMax
  {
    TimerDelay(ParseInt(OrDefault(env, DefaultRemovalDelay)))
  }

  /** Unset (or empty), the removal delay is 300000 ms, five minutes. */
  lemma DefaultRemovalDelayIsFiveMinutes(env: Option<string>)
    requires env.None? || env == Some("")
    ensures RemovalDelay(env) == 300000
  {
    assert NatToString(3) == "3";
    assert NatToString(30) == "30";
    assert NatToString(300) == "300";
    assert NatToString(3000) == "3000";
    assert NatToString(30000) == "30000";
    assert NatToString(300000) == DefaultRemovalDelay;
    ParseIntOfNatToString(300000);
  }

  /** A numeric setting is used as given when it is a valid timer delay. */
  lemma ConfiguredRemovalDelay(n: nat)
    requires 1 <= n <= TimeoutMax
    ensures RemovalDelay(Some(NatToString(n))) == n
  {
    ParseIntOfNatToString(n);
  }
}
