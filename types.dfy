/** The shapes of the JSON the scanning backend returns (src/lib/types.ts),
    widened to every key a component reads from a phase's `results`, which
    the components type as `any`. A key that may be missing is an Option. */
module Types {
  import opened Wrappers

  /** An optional string as a JSX condition sees it: `x && ...` renders
      only when the string is present and non-empty. */
  function Truthy(x: Option<string>): (r: Option<string>)
    ensures r.Some? <==> x.Some? && x.value != ""
    ensures r.Some? ==> r == x
  {
    if x.Some? && x.value != "" then x else None
  }

  /** `a || b` on optional strings: `a` when it is truthy, `b` otherwise. */
  function OrElse(a: Option<string>, b: Option<string>): (r: Option<string>)
    ensures Truthy(a).Some? ==> r == a
    ensures Truthy(a).None? ==> r == b
  {
    if Truthy(a).Some? then a else b
  }

  /** A subdomain entry: the backend may send a bare name or an object. */
  datatype Subdomain = SubdomainName(name: string) | SubdomainRecord(subdomain: string, status: string)

  /** A DNS record value: one string or a list of strings. */
  datatype DnsValue = DnsText(text: string) | DnsList(values: seq<string>)

  datatype Port = Port(port: int, service: Option<string>, version: Option<string>, state: string)

  /** A detected vulnerability; some backends name it by `title` instead of `name`. */
  datatype VulnerabilityItem = VulnerabilityItem(
    name: Option<string>,
    title: Option<string>,
    severity: string,
    description: Option<string>)

  /** A simulated exploit; some backends name it by `type` instead of `name`. */
  datatype Exploit = Exploit(
    name: Option<string>,
    kind: Option<string>,
    description: Option<string>,
    success: bool,
    details: Option<string>)

  /** The `results` object of one phase. */
  datatype PhaseResults = PhaseResults(
    target: Option<string>,
    message: Option<string>,
    isValid: Option<bool>,
    isAvailable: Option<bool>,
    ipAddress: Option<string>,
    subdomainsFound: Option<int>,
    dnsRecords: Option<seq<(string, DnsValue)>>,
    subdomains: Option<seq<Subdomain>>,
    portsFound: Option<seq<Port>>,
    openPorts: Option<seq<Port>>,
    vulnerabilitiesFound: Option<int>,
    critical: Option<int>,
    high: Option<int>,
    medium: Option<int>,
    vulnerabilities: Option<seq<VulnerabilityItem>>,
    exploitsSimulated: Option<int>,
    successfulSimulations: Option<int>,
    failedSimulations: Option<int>,
    exploits: Option<seq<Exploit>>)

  /** One phase as the phase endpoint reports it (`PhaseResult`). */
  datatype PhaseResult = PhaseResult(
    phase: string,
    target: string,
    clientId: string,
    status: string,
    results: PhaseResults,
    timestamp: string,
    phaseId: string)

  /** The payload of the report endpoint (`ReportResponse`). */
  datatype ReportResponse = ReportResponse(
    reportId: string,
    target: string,
    clientId: string,
    reportContent: string,
    phasesUsed: seq<string>,
    generatedAt: string,
    cleanupStatus: string)
}
