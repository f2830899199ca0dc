/**
 * The health endpoint: healthy exactly when the store answers the ping with
 * "PONG"; the memory figure is cut out of the store's INFO text.
 */
module Health {
  import opened Wrappers

  /** The reply of one call to the store: a value, or a rejected call. */
  datatype Reply<T> = Replied(value: T) | Threw

  datatype RedisReport = RedisReport(status: string, memory: string)

  /** The response: code, overall status, the `services.redis` section, and the error text of a failed check. */
  datatype HealthResponse = HealthResponse(code: int, status: string, redis: Option<RedisReport>, error: Option<string>)

  const MemoryField: string := "used_memory_human:"

  predicate IsLineBreak(c: char) {
    c == '\r' || c == '\n'
  }

  /** The pattern `used_memory_human:([^\r\n]+)` matches at position `k` of `s`. */
  predicate MatchesAt(s: string, k: int) {
    && 0 <= k
    && k + |MemoryField| < |s|
    && s[k..k + |MemoryField|] == MemoryField
    && !IsLineBreak(s[k + |MemoryField|])
  }

  /** The longest run of `s` from `j` on that holds no line break. */
  function LineRest(s: string, j: nat): (r: string)
    requires j <= |s|
    ensures j + |r| <= |s| && r == s[j..j + |r|]
    ensures forall c :: c in r ==> !IsLineBreak(c)
    ensures j + |r| == |s| || IsLineBreak(s[j + |r|])
    decreases |s| - j
  {
    if j == |s| || IsLineBreak(s[j]) then [] else [s[j]] + LineRest(s, j + 1)
  }

  /** The capture of the leftmost match at or after position `i`, scanning left to right. */
  function FindMemory(s: string, i: nat): (r: Option<string>)
    requires i <= |s|
    ensures r.Some? ==> |r.value| >= 1 && forall c :: c in r.value ==> !IsLineBreak(c)
    decreases |s| - i
  {
    if i + |MemoryField| >= |s| then None
    else if MatchesAt(s, i) then Some(LineRest(s, i + |MemoryField|))
    else FindMemory(s, i + 1)
  }

  /** The `memory` figure of the report: the capture, or "unknown" when nothing matches. */
  function UsedMemory(info: string): (m: string)
    ensures m == "unknown" || (|m| >= 1 && forall c :: c in m ==> !IsLineBreak(c))
    ensures m != "unknown" ==> FindMemory(info, 0) == Some(m)
  {
    match FindMemory(info, 0)
    case Some(m) => m
    case None => "unknown"
  }

  /** With no match at or after `i`, the scan from `i` finds nothing. */
  lemma {:induction false} FindMemoryNone(s: string, i: nat)
    requires i <= |s|
    requires forall k :: i <= k ==> !MatchesAt(s, k)
    ensures FindMemory(s, i) == None
    decreases |s| - i
  {
    if i + |MemoryField| < |s| {
      FindMemoryNone(s, i + 1);
    }
  }

  /** The scan from `i` stops at the leftmost match `k` at or after `i`. */
  lemma {:induction false} FindMemoryLeftmost(s: string, i: nat, k: nat)
    requires i <= k && MatchesAt(s, k)
    requires forall j :: i <= j < k ==> !MatchesAt(s, j)
    ensures FindMemory(s, i) == Some(LineRest(s, k + |MemoryField|))
    decreases k - i
  {
    if i < k {
      FindMemoryLeftmost(s, i + 1, k);
    }
  }

  /** Without an occurrence of the pattern, `memory` is "unknown". */
  lemma UnmatchedMemoryIsUnknown(info: string)
    requires forall k :: !MatchesAt(info, k)
    ensures UsedMemory(info) == "unknown"
  {
    FindMemoryNone(info, 0);
  }

  /**
   * With the first match at `k`, `memory` is the non-empty text after the field
   * name up to the next line break or the end.
   */
  lemma MatchedMemoryIsFirstCapture(info: string, k: nat)
    requires MatchesAt(info, k)
    requires forall j :: 0 <= j < k ==> !MatchesAt(info, j)
    ensures UsedMemory(info) == LineRest(info, k + |MemoryField|)
    ensures |UsedMemory(info)| >= 1
  {
    FindMemoryLeftmost(info, 0, k);
  }

  /** The health handler, given the replies to PING and to INFO memory. */
  function HealthCheck(ping: Reply<string>, info: Reply<string>): (r: HealthResponse)
    ensures ping.Threw? || info.Threw? ==>
      r == HealthResponse(503, "unhealthy", None, Some("Failed to check service health"))
    ensures ping.Replied? && info.Replied? ==>
      && r.error.None?
      && r.redis.Some?
      && r.redis.value.memory == UsedMemory(info.value)
      && (ping.value == "PONG" ==> r.code == 200 && r.status == "healthy" && r.redis.value.status == "up")
      && (ping.value != "PONG" ==> r.code == 503 && r.status == "unhealthy" && r.redis.value.status == "down")
    ensures r.code == 200 <==> ping == Replied("PONG") && info.Replied?
  {
    match (ping, info)
    case (Replied(p), Replied(text)) =>
      var healthy := p == "PONG";
      HealthResponse(
        if healthy then 200 else 503,
        if healthy then "healthy" else "unhealthy",
        Some(RedisReport(if healthy then "up" else "down", UsedMemory(text))),
        None)
    case _ => HealthResponse(503, "unhealthy", None, Some("Failed to check service health"))
  }
}
