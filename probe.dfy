/**
  The connection test run by the recurring probe job: resolve the exchange
  API's hostname (`_get_api_host`), then ping it (`_connection_test`).
  The URL parser and `ping3.ping` are outside the model: the parsed hostname
  is an input and the ping is an oracle from hostname to outcome.
 */
module Probe {
  import opened Wrappers

  /** What `ping3.ping(host, unit="ms")` returns: `None`, `False` or a latency. */
  datatype PingOutcome = Timeout | Failed | Latency(ms: real)

  /** The outcome `_connection_test` returns, with the hosts it pinged, in order. */
  datatype ProbeRun = ProbeRun(result: PingOutcome, pinged: seq<string>)

  /**
    `_get_api_host`: the hostname the URL parser found, or `None` when it found
    none or an empty one (Python treats both as false).
   */
  function ApiHost(parsed: Option<string>): (h: Option<string>)
    ensures h.Some? <==> parsed.Some? && parsed.value != ""
    ensures h.Some? ==> h.value == parsed.value
  {
    if parsed.Some? && parsed.value != "" then parsed else None
  }

  /**
    `_connection_test`: without a hostname it reports failure and does not
    ping; otherwise it pings the host once and returns the ping's answer.
   */
  function ConnectionTest(parsed: Option<string>, ping: string -> PingOutcome): (p: ProbeRun)
    ensures ApiHost(parsed).None? ==> p.result == Failed && p.pinged == []
    ensures ApiHost(parsed).Some? ==> p.pinged == [ApiHost(parsed).value]
    ensures ApiHost(parsed).Some? ==> p.result == ping(ApiHost(parsed).value)
  {
    var host := ApiHost(parsed);
    if host.None? then ProbeRun(Failed, [])
    else ProbeRun(ping(host.value), [host.value])
  }

  /**
    The ping oracle is consulted only at the resolved host, and not at all when
    there is none: two oracles that agree there give the same probe run.
   */
  lemma OracleConsultedOnlyAtHost(parsed: Option<string>, p1: string -> PingOutcome, p2: string -> PingOutcome)
    requires ApiHost(parsed).Some? ==> p1(ApiHost(parsed).value) == p2(ApiHost(parsed).value)
    ensures ConnectionTest(parsed, p1) == ConnectionTest(parsed, p2)
  {
  }

  /** The probe reports failure exactly when the host is unresolved or the ping failed. */
  lemma FailedIff(parsed: Option<string>, ping: string -> PingOutcome)
    ensures ConnectionTest(parsed, ping).result == Failed
        <==> ApiHost(parsed).None? || ping(ApiHost(parsed).value) == Failed
  {
  }

  /** A timeout or a latency is only ever the ping's own answer for the resolved host. */
  lemma TimeoutOrLatencyComesFromPing(parsed: Option<string>, ping: string -> PingOutcome)
    ensures ConnectionTest(parsed, ping).result != Failed ==>
      parsed.Some? && parsed.value != "" && ConnectionTest(parsed, ping).result == ping(parsed.value)
  {
  }
}
