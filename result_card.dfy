/** The card of one raw phase result (src/components/result-card.tsx): its
    title, and what its body renders for each phase. The translated step
    names come from the translation table, which is not part of this model:
    they are a parameter `steps` from phase key to name, where a missing or
    empty name falls back to the built-in English one. */
module ResultCard {
  import opened Wrappers
  import opened JsText
  import opened Lists
  import opened Types

  /** The five phase keys the card knows. */
  const KnownPhases: seq<string> := ["preengagement", "reconnaissance", "scanning", "vulnerability", "exploitation"]

  /** The built-in name of a known phase. */
  function DefaultTitle(phase: string): (title: string)
    requires phase in KnownPhases
    ensures |title| > 0
  {
    if phase == "preengagement" then "Pre-engagement"
    else if phase == "reconnaissance" then "Reconnaissance"
    else if phase == "scanning" then "Scanning"
    else if phase == "vulnerability" then "Vulnerability"
    else "Exploitation"
  }

  /** `getPhaseTitle`: a known phase gets its translated name or, failing
      that, its built-in one; any other phase key is its own title. */
  function PhaseTitle(steps: map<string, string>, phase: string): (title: string)
    ensures phase !in KnownPhases ==> title == phase
    ensures phase in KnownPhases ==>
      title == (if phase in steps && steps[phase] != "" then steps[phase] else DefaultTitle(phase))
    ensures phase in KnownPhases ==> |title| > 0
  {
    if phase in KnownPhases then
      (if phase in steps && steps[phase] != "" then steps[phase] else DefaultTitle(phase))
    else phase
  }

  /** `typeof sub === "string" ? sub : sub.subdomain`. */
  function SubdomainLabel(s: Subdomain): (name: string)
    ensures s.SubdomainName? ==> name == s.name
    ensures s.SubdomainRecord? ==> name == s.subdomain
  {
    match s
    case SubdomainName(name) => name
    case SubdomainRecord(subdomain, _) => subdomain
  }

  /** A DNS value as the card prints it: an array joined with ", ",
      anything else converted with `String`. */
  function DnsValueText(v: DnsValue): (text: string)
    ensures v.DnsText? ==> text == v.text
    ensures v.DnsList? ==> text == Join(v.values, ", ")
  {
    match v
    case DnsText(t) => t
    case DnsList(values) => Join(values, ", ")
  }

  /** A single record prints as itself, an empty array as nothing, and two
      records with the separator between them. */
  lemma DnsValueTextCases(a: string, b: string)
    ensures DnsValueText(DnsList([a])) == a
    ensures DnsValueText(DnsList([])) == ""
    ensures DnsValueText(DnsList([a, b])) == a + ", " + b
  {
    assert [a, b][1..] == [b];
    assert Join([a, b], ", ") == a + ", " + Join([b], ", ");
  }

  /** A list of records prints as its records in order, each after the
      previous one and ", ": one more record adds ", " and that record. */
  lemma DnsListAppend(values: seq<string>, v: string)
    requires |values| > 0
    ensures DnsValueText(DnsList(values + [v])) == DnsValueText(DnsList(values)) + ", " + v
  {
    JoinAppend(values, v, ", ");
  }

  // ---------------------------------------------------------------------
  // Vulnerability counts

  predicate IsCritical(v: VulnerabilityItem) {
    v.severity == "critical"
  }

  predicate IsHigh(v: VulnerabilityItem) {
    v.severity == "high"
  }

  /** `vulnerabilities?.length || 0`. */
  function VulnCount(vulns: Option<seq<VulnerabilityItem>>): (n: nat)
    ensures vulns.None? ==> n == 0
    ensures vulns.Some? ==> n == |vulns.value|
  {
    if vulns.Some? then |vulns.value| else 0
  }

  /** `vulnerabilities?.filter((v) => v.severity === s).length || 0`. */
  function SeverityCount(vulns: Option<seq<VulnerabilityItem>>, p: VulnerabilityItem -> bool): (n: nat)
    ensures n <= VulnCount(vulns)
    ensures vulns.None? ==> n == 0
  {
    if vulns.Some? then CountWhere(vulns.value, p) else 0
  }

  /** No vulnerability is both critical and high, so the two counts
      together never exceed the total. */
  lemma SeverityCountsBounded(vulns: Option<seq<VulnerabilityItem>>)
    ensures SeverityCount(vulns, IsCritical) + SeverityCount(vulns, IsHigh) <= VulnCount(vulns)
  {
    if vulns.Some? {
      DisjointCountsBounded(vulns.value, IsCritical, IsHigh);
    }
  }

  /** The colour of a severity tag: pink for critical, yellow for high,
      cyan for anything else. */
  datatype SeverityTone = Pink | Yellow | Cyan

  function SeverityToneOf(severity: string): (t: SeverityTone)
    ensures t == Pink <==> severity == "critical"
    ensures t == Yellow <==> severity == "high"
    ensures t == Cyan <==> severity != "critical" && severity != "high"
  {
    if severity == "critical" then Pink else if severity == "high" then Yellow else Cyan
  }

  // ---------------------------------------------------------------------
  // The body

  datatype VulnerabilityRow = VulnerabilityRow(name: Option<string>, severity: string, tone: SeverityTone, description: Option<string>)

  datatype ExploitRow = ExploitRow(name: Option<string>, success: bool, description: Option<string>)

  datatype ResultBody =
    | PreengagementResult(target: Option<string>, valid: bool, ipAddress: Option<string>)
    | ReconnaissanceResult(dns: Option<seq<(string, string)>>, subdomains: Option<Truncation<string>>)
    | ScanningResult(openPorts: Option<seq<(int, string)>>)
    | VulnerabilityResult(critical: nat, high: nat, total: nat, rows: Option<seq<VulnerabilityRow>>)
    | ExploitationResult(attempts: Option<seq<ExploitRow>>)
    | RawJson(data: PhaseResults)

  /** The reconnaissance body: every DNS entry with its printed value, shown
      whenever the records are present, and the labels of the first five
      subdomains with a "+N more" count, shown when there is at least one. */
  function ReconnaissanceResultOf(r: PhaseResults): (b: ResultBody)
    ensures b.ReconnaissanceResult?
    ensures b.dns.Some? <==> r.dnsRecords.Some?
    ensures b.dns.Some? ==>
      && |b.dns.value| == |r.dnsRecords.value|
      && forall k :: 0 <= k < |b.dns.value| ==>
           b.dns.value[k] == (r.dnsRecords.value[k].0, DnsValueText(r.dnsRecords.value[k].1))
    ensures b.subdomains.Some? <==> r.subdomains.Some? && |r.subdomains.value| > 0
    ensures b.subdomains.Some? ==>
      var subs := r.subdomains.value;
      var t := b.subdomains.value;
      && |t.shown| == Min(|subs|, 5)
      && (forall k :: 0 <= k < |t.shown| ==> t.shown[k] == SubdomainLabel(subs[k]))
      && (t.hidden > 0 <==> |subs| > 5) && |t.shown| + t.hidden == |subs|
  {
    var dns :=
      if r.dnsRecords.Some? then
        var records := r.dnsRecords.value;
        Some(seq(|records|, k requires 0 <= k < |records| => (records[k].0, DnsValueText(records[k].1))))
      else None;
    var subdomains :=
      if r.subdomains.Some? && |r.subdomains.value| > 0 then
        var subs := r.subdomains.value;
        var t := Truncate(subs, 5);
        Some(Truncation(seq(|t.shown|, k requires 0 <= k < |t.shown| => SubdomainLabel(t.shown[k])), t.hidden))
      else None;
    ReconnaissanceResult(dns, subdomains)
  }

  function VulnerabilityRowOf(v: VulnerabilityItem): (row: VulnerabilityRow)
    ensures row.tone == SeverityToneOf(v.severity)
  {
    VulnerabilityRow(v.name, v.severity, SeverityToneOf(v.severity), v.description)
  }

  /** The vulnerability body: the critical, high and total counts, and at
      most three rows, shown when there is at least one vulnerability. */
  function VulnerabilityResultOf(r: PhaseResults): (b: ResultBody)
    ensures b.VulnerabilityResult?
    ensures b.critical == SeverityCount(r.vulnerabilities, IsCritical)
    ensures b.high == SeverityCount(r.vulnerabilities, IsHigh)
    ensures b.total == VulnCount(r.vulnerabilities)
    ensures b.critical + b.high <= b.total
    ensures b.rows.Some? <==> r.vulnerabilities.Some? && |r.vulnerabilities.value| > 0
    ensures b.rows.Some? ==>
      && |b.rows.value| == Min(|r.vulnerabilities.value|, 3)
      && forall k :: 0 <= k < |b.rows.value| ==> b.rows.value[k] == VulnerabilityRowOf(r.vulnerabilities.value[k])
  {
    SeverityCountsBounded(r.vulnerabilities);
    var rows :=
      if r.vulnerabilities.Some? && |r.vulnerabilities.value| > 0 then
        var shown := Truncate(r.vulnerabilities.value, 3).shown;
        Some(seq(|shown|, k requires 0 <= k < |shown| => VulnerabilityRowOf(shown[k])))
      else None;
    VulnerabilityResult(SeverityCount(r.vulnerabilities, IsCritical), SeverityCount(r.vulnerabilities, IsHigh),
                        VulnCount(r.vulnerabilities), rows)
  }

  /** `renderResults` of the result card: a body per known phase, the
      results as raw JSON for any other phase key. */
  function RenderResults(result: PhaseResult): (b: ResultBody)
    ensures result.phase !in KnownPhases <==> b == RawJson(result.results)
    ensures result.phase == "preengagement" ==>
      b == PreengagementResult(result.results.target, result.results.isValid == Some(true), Truthy(result.results.ipAddress))
    ensures result.phase == "reconnaissance" ==> b == ReconnaissanceResultOf(result.results)
    ensures result.phase == "scanning" ==>
      && b.ScanningResult?
      && (b.openPorts.Some? <==> result.results.openPorts.Some? && |result.results.openPorts.value| > 0)
      && (b.openPorts.Some? ==>
            var ports := result.results.openPorts.value;
            && |b.openPorts.value| == |ports|
            && forall k :: 0 <= k < |ports| ==>
                 && b.openPorts.value[k].0 == ports[k].port
                 && (Truthy(ports[k].service).Some? ==> b.openPorts.value[k].1 == ports[k].service.value)
                 && (Truthy(ports[k].service).None? ==> b.openPorts.value[k].1 == "Unknown"))
    ensures result.phase == "vulnerability" ==> b == VulnerabilityResultOf(result.results)
    ensures result.phase == "exploitation" ==>
      && b.ExploitationResult?
      && (b.attempts.Some? <==> result.results.exploits.Some? && |result.results.exploits.value| > 0)
      && (b.attempts.Some? ==>
            var xs := result.results.exploits.value;
            && |b.attempts.value| == |xs|
            && forall k :: 0 <= k < |xs| ==>
                 b.attempts.value[k] == ExploitRow(xs[k].name, xs[k].success, xs[k].description))
  {
    var data := result.results;
    if result.phase == "preengagement" then
      PreengagementResult(data.target, data.isValid == Some(true), Truthy(data.ipAddress))
    else if result.phase == "reconnaissance" then ReconnaissanceResultOf(data)
    else if result.phase == "scanning" then
      ScanningResult(
        if data.openPorts.Some? && |data.openPorts.value| > 0 then
          var ports := data.openPorts.value;
          Some(seq(|ports|, k requires 0 <= k < |ports| =>
            (ports[k].port, if Truthy(ports[k].service).Some? then ports[k].service.value else "Unknown")))
        else None)
    else if result.phase == "vulnerability" then VulnerabilityResultOf(data)
    else if result.phase == "exploitation" then
      ExploitationResult(
        if data.exploits.Some? && |data.exploits.value| > 0 then
          var xs := data.exploits.value;
          Some(seq(|xs|, k requires 0 <= k < |xs| => ExploitRow(xs[k].name, xs[k].success, xs[k].description)))
        else None)
    else RawJson(data)
  }
}
