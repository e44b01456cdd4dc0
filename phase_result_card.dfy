/** The card the scanner shows for one finished phase
    (src/components/phase-result-card.tsx): its title in English or French,
    its icon, and what its body renders from the phase's `results`. The
    text the JSX wraps around these values is not modelled; the view
    datatypes keep the values it shows and the choices it makes (which
    blocks appear, which badge variant, how many rows). */
module PhaseResultCard {
  import opened Wrappers
  import opened Types
  import opened Lists
  import opened UrlScanner
  import opened UseLanguage
  import ResultCard

  // ---------------------------------------------------------------------
  // Title and icon

  /** `getPhaseTitle`: the title table for both languages. */
  function PhaseTitle(language: Language, step: ScanStep): (title: string)
    ensures |title| > 0
  {
    match language
    case En => (
      match step
      case Preengagement => "Target Validation"
      case Reconnaissance => "Reconnaissance"
      case Scanning => "Port Scanning"
      case Vulnerability => "Vulnerability Assessment"
      case Exploitation => "Exploitation Testing"
      case Report => "Report Generation")
    case Fr => (
      match step
      case Preengagement => "Validation de la cible"
      case Reconnaissance => "Reconnaissance"
      case Scanning => "Analyse des ports"
      case Vulnerability => "Évaluation des vulnérabilités"
      case Exploitation => "Test d'exploitation"
      case Report => "Génération du rapport")
  }

  /** In either language, different steps get different titles. */
  lemma PhaseTitlesDistinct(language: Language, a: ScanStep, b: ScanStep)
    requires a != b
    ensures PhaseTitle(language, a) != PhaseTitle(language, b)
  {
    var ta, tb := PhaseTitle(language, a), PhaseTitle(language, b);
    if |ta| == |tb| {
      // The only titles of equal length in one language differ in their first letter.
      assert ta[0] != tb[0];
    }
  }

  datatype PhaseIcon = ShieldIcon | GlobeIcon | ScanIcon | BugIcon | ZapIcon | FileTextIcon

  /** `getPhaseIcon`: one icon per step. */
  function PhaseIconOf(step: ScanStep): (icon: PhaseIcon)
    ensures icon == FileTextIcon <==> step == Report
  {
    match step
    case Preengagement => ShieldIcon
    case Reconnaissance => GlobeIcon
    case Scanning => ScanIcon
    case Vulnerability => BugIcon
    case Exploitation => ZapIcon
    case Report => FileTextIcon
  }

  // ---------------------------------------------------------------------
  // Badge rules

  /** The availability badge of the pre-engagement body. */
  function AvailabilityBadge(isAvailable: Option<bool>): (b: BadgeVariant)
    ensures b == DefaultBadge <==> isAvailable == Some(true)
    ensures b != DefaultBadge ==> b == DestructiveBadge
  {
    if isAvailable == Some(true) then DefaultBadge else DestructiveBadge
  }

  /** The state badge of a port row: default for an open port, secondary otherwise. */
  function PortStateBadge(state: string): (b: BadgeVariant)
    ensures b == DefaultBadge <==> state == "open"
    ensures b != DefaultBadge ==> b == SecondaryBadge
  {
    if state == "open" then DefaultBadge else SecondaryBadge
  }

  /** The severity badge of a vulnerability row: destructive for critical
      and high, secondary otherwise. */
  function SeverityBadge(severity: string): (b: BadgeVariant)
    ensures b == DestructiveBadge <==> severity == "critical" || severity == "high"
    ensures b != DestructiveBadge ==> b == SecondaryBadge
  {
    if severity == "critical" || severity == "high" then DestructiveBadge else SecondaryBadge
  }

  /** The badge of an exploit row: default when it succeeded. */
  function ExploitBadge(success: bool): (b: BadgeVariant)
    ensures b == DefaultBadge <==> success
    ensures b != DefaultBadge ==> b == SecondaryBadge
  {
    if success then DefaultBadge else SecondaryBadge
  }

  // ---------------------------------------------------------------------
  // The bodies of the five phases

  datatype PreengagementView = PreengagementView(
    available: bool,
    badge: BadgeVariant,
    ipAddress: Option<string>,
    message: Option<string>)

  /** One record type of the DNS block with its records; a value that is
      not an array lists nothing. */
  datatype DnsGroup = DnsGroup(recordType: string, records: seq<string>)

  datatype ReconnaissanceView = ReconnaissanceView(dns: Option<seq<DnsGroup>>, subdomains: Option<Truncation<string>>)

  datatype PortRow = PortRow(port: int, service: string, version: Option<string>, badge: BadgeVariant, state: string)

  datatype ScanningView = ScanningView(ports: Option<seq<PortRow>>)

  datatype VulnerabilityRow = VulnerabilityRow(title: Option<string>, description: Option<string>, badge: BadgeVariant, severity: string)

  datatype VulnerabilityView = VulnerabilityView(
    total: int,
    critical: int,
    high: int,
    medium: int,
    list: Option<Truncation<VulnerabilityRow>>)

  datatype ExploitRow = ExploitRow(name: Option<string>, badge: BadgeVariant, success: bool, details: Option<string>)

  datatype ExploitationView = ExploitationView(
    simulated: int,
    successful: int,
    failed: int,
    attempts: Option<seq<ExploitRow>>,
    message: Option<string>)

  /** What `renderResults` returns. */
  datatype CardBody =
    | NoBody
    | NoResultsAvailable
    | PreengagementBody(pre: PreengagementView)
    | ReconnaissanceBody(recon: ReconnaissanceView)
    | ScanningBody(scan: ScanningView)
    | VulnerabilityBody(vuln: VulnerabilityView)
    | ExploitationBody(exploit: ExploitationView)

  function PreengagementViewOf(r: PhaseResults): (v: PreengagementView)
    ensures v.available <==> r.isAvailable == Some(true)
    ensures v.badge == AvailabilityBadge(r.isAvailable)
    ensures v.ipAddress == Truthy(r.ipAddress) && v.message == Truthy(r.message)
  {
    PreengagementView(r.isAvailable == Some(true), AvailabilityBadge(r.isAvailable), Truthy(r.ipAddress), Truthy(r.message))
  }

  /** The records listed under one DNS record type. */
  function DnsRecordsOf(value: DnsValue): seq<string> {
    match value
    case DnsList(values) => values
    case DnsText(_) => []
  }

  /** The reconnaissance body as intended: the subdomain block shows the
      names of at most ten subdomains, a record by its `subdomain` field,
      with a "+N more" line exactly when there are more than ten; the DNS
      block appears when there is at least one record type. */
  function ReconnaissanceViewOf(r: PhaseResults): (v: ReconnaissanceView)
    ensures v.dns.Some? <==> r.dnsRecords.Some? && |r.dnsRecords.value| > 0
    ensures v.dns.Some? ==>
      && |v.dns.value| == |r.dnsRecords.value|
      && forall k :: 0 <= k < |v.dns.value| ==>
           v.dns.value[k] == DnsGroup(r.dnsRecords.value[k].0, DnsRecordsOf(r.dnsRecords.value[k].1))
    ensures v.subdomains.Some? <==> r.subdomains.Some? && |r.subdomains.value| > 0
    ensures v.subdomains.Some? ==>
      var n := |r.subdomains.value|;
      var t := v.subdomains.value;
      && |t.shown| == Min(n, 10)
      && (forall k :: 0 <= k < |t.shown| ==> t.shown[k] == ResultCard.SubdomainLabel(r.subdomains.value[k]))
      && (t.hidden > 0 <==> n > 10) && |t.shown| + t.hidden == n
  {
    var dns :=
      if r.dnsRecords.Some? && |r.dnsRecords.value| > 0 then
        var records := r.dnsRecords.value;
        Some(seq(|records|, k requires 0 <= k < |records| => DnsGroup(records[k].0, DnsRecordsOf(records[k].1))))
      else None;
    var subdomains :=
      if r.subdomains.Some? && |r.subdomains.value| > 0 then
        var t := Truncate(r.subdomains.value, 10);
        Some(Truncation(seq(|t.shown|, k requires 0 <= k < |t.shown| => ResultCard.SubdomainLabel(t.shown[k])), t.hidden))
      else None;
    ReconnaissanceView(dns, subdomains)
  }

  /** Whether one of the first ten subdomains is an object. */
  predicate ShowsSubdomainRecord(r: PhaseResults) {
    r.subdomains.Some? && exists k :: 0 <= k < Min(|r.subdomains.value|, 10) && r.subdomains.value[k].SubdomainRecord?
  }

  /** The reconnaissance body as written: each of the first ten subdomains
      is put into the page as it is, and React throws on an object child,
      so the body fails exactly when one of them is a record. Otherwise
      every shown subdomain is a bare name, which is its own label, and
      the body is the intended one. */
  function ReconnaissanceRenderAsWritten(r: PhaseResults): (res: Rendering<ReconnaissanceView>)
    ensures res.Throws? <==> ShowsSubdomainRecord(r)
    ensures res.Rendered? ==> res.view == ReconnaissanceViewOf(r)
    ensures res.Rendered? && r.subdomains.Some? ==>
      forall k :: 0 <= k < Min(|r.subdomains.value|, 10) ==>
        r.subdomains.value[k] == SubdomainName(ResultCard.SubdomainLabel(r.subdomains.value[k]))
  {
    if ShowsSubdomainRecord(r) then Throws("Objects are not valid as a React child")
    else Rendered(ReconnaissanceViewOf(r))
  }

  /** A reconnaissance answer shaped as the backend's type declares it, a
      list of `{subdomain, status}` objects, makes the body throw, while the
      intended body shows the name. */
  lemma DeclaredSubdomainShapeThrows(r: PhaseResults)
    requires r.subdomains == Some([SubdomainRecord("www.example.com", "active")])
    ensures ReconnaissanceRenderAsWritten(r).Throws?
    ensures ReconnaissanceViewOf(r).subdomains == Some(Truncation(["www.example.com"], 0))
  {
    assert r.subdomains.value[0].SubdomainRecord?;
    var t := ReconnaissanceViewOf(r).subdomains.value;
    assert |t.shown| == 1 && t.shown[0] == "www.example.com";
    assert t.shown == ["www.example.com"];
  }

  function PortRowOf(p: Port): (row: PortRow)
    ensures row.badge == PortStateBadge(p.state)
    ensures row.service == (if Truthy(p.service).Some? then p.service.value else "Unknown")
  {
    PortRow(p.port, if Truthy(p.service).Some? then p.service.value else "Unknown", Truthy(p.version),
            PortStateBadge(p.state), p.state)
  }

  /** Every port found gets a row, in order. */
  function ScanningViewOf(r: PhaseResults): (v: ScanningView)
    ensures v.ports.Some? <==> r.portsFound.Some? && |r.portsFound.value| > 0
    ensures v.ports.Some? ==>
      && |v.ports.value| == |r.portsFound.value|
      && forall k :: 0 <= k < |v.ports.value| ==> v.ports.value[k] == PortRowOf(r.portsFound.value[k])
  {
    if r.portsFound.Some? && |r.portsFound.value| > 0 then
      var ports := r.portsFound.value;
      ScanningView(Some(seq(|ports|, k requires 0 <= k < |ports| => PortRowOf(ports[k]))))
    else ScanningView(None)
  }

  function VulnerabilityRowOf(item: VulnerabilityItem): (row: VulnerabilityRow)
    ensures row.badge == SeverityBadge(item.severity)
    ensures row.title == OrElse(item.name, item.title)
  {
    VulnerabilityRow(OrElse(item.name, item.title), Truthy(item.description), SeverityBadge(item.severity), item.severity)
  }

  /** The counts default to 0; the list shows at most five rows, with a
      "+N more" line exactly when there are more than five. */
  function VulnerabilityViewOf(r: PhaseResults): (v: VulnerabilityView)
    ensures v.total == CountOrZero(r.vulnerabilitiesFound) && v.critical == CountOrZero(r.critical)
    ensures v.high == CountOrZero(r.high) && v.medium == CountOrZero(r.medium)
    ensures v.list.Some? <==> r.vulnerabilities.Some? && |r.vulnerabilities.value| > 0
    ensures v.list.Some? ==>
      var n := |r.vulnerabilities.value|;
      var t := v.list.value;
      && |t.shown| == Min(n, 5)
      && (forall k :: 0 <= k < |t.shown| ==> t.shown[k] == VulnerabilityRowOf(r.vulnerabilities.value[k]))
      && (t.hidden > 0 <==> n > 5) && |t.shown| + t.hidden == n
  {
    var list :=
      if r.vulnerabilities.Some? && |r.vulnerabilities.value| > 0 then
        var items := r.vulnerabilities.value;
        Some(Truncate(seq(|items|, k requires 0 <= k < |items| => VulnerabilityRowOf(items[k])), 5))
      else None;
    VulnerabilityView(CountOrZero(r.vulnerabilitiesFound), CountOrZero(r.critical), CountOrZero(r.high),
                      CountOrZero(r.medium), list)
  }

  function ExploitRowOf(e: Exploit): (row: ExploitRow)
    ensures row.badge == ExploitBadge(e.success)
    ensures row.name == OrElse(e.name, e.kind)
  {
    ExploitRow(OrElse(e.name, e.kind), ExploitBadge(e.success), e.success, Truthy(e.details))
  }

  /** Every exploit attempt gets a row; the counts default to 0. */
  function ExploitationViewOf(r: PhaseResults): (v: ExploitationView)
    ensures v.simulated == CountOrZero(r.exploitsSimulated)
    ensures v.successful == CountOrZero(r.successfulSimulations) && v.failed == CountOrZero(r.failedSimulations)
    ensures v.attempts.Some? <==> r.exploits.Some? && |r.exploits.value| > 0
    ensures v.attempts.Some? ==>
      && |v.attempts.value| == |r.exploits.value|
      && forall k :: 0 <= k < |v.attempts.value| ==> v.attempts.value[k] == ExploitRowOf(r.exploits.value[k])
    ensures v.message == Truthy(r.message)
  {
    var attempts :=
      if r.exploits.Some? && |r.exploits.value| > 0 then
        var xs := r.exploits.value;
        Some(seq(|xs|, k requires 0 <= k < |xs| => ExploitRowOf(xs[k])))
      else None;
    ExploitationView(CountOrZero(r.exploitsSimulated), CountOrZero(r.successfulSimulations),
                     CountOrZero(r.failedSimulations), attempts, Truthy(r.message))
  }

  /** `renderResults`: each of the five phases goes to its own renderer,
      which renders nothing when there are no results; the report step
      renders the "No results available" line. */
  function RenderResults(step: ScanStep, results: Option<PhaseResults>): (b: CardBody)
    ensures b == NoResultsAvailable <==> step == Report
    ensures step != Report ==> (b == NoBody <==> results.None?)
    ensures results.Some? ==>
      && (step == Preengagement ==> b == PreengagementBody(PreengagementViewOf(results.value)))
      && (step == Reconnaissance ==> b == ReconnaissanceBody(ReconnaissanceViewOf(results.value)))
      && (step == Scanning ==> b == ScanningBody(ScanningViewOf(results.value)))
      && (step == Vulnerability ==> b == VulnerabilityBody(VulnerabilityViewOf(results.value)))
      && (step == Exploitation ==> b == ExploitationBody(ExploitationViewOf(results.value)))
  {
    match step
    case Report => NoResultsAvailable
    case _ =>
      if results.None? then NoBody
      else
        var r := results.value;
        match step
        case Preengagement => PreengagementBody(PreengagementViewOf(r))
        case Reconnaissance => ReconnaissanceBody(ReconnaissanceViewOf(r))
        case Scanning => ScanningBody(ScanningViewOf(r))
        case Vulnerability => VulnerabilityBody(VulnerabilityViewOf(r))
        case Exploitation => ExploitationBody(ExploitationViewOf(r))
  }

  /** `renderResults` as written: the same dispatch, except that the
      reconnaissance step renders through the body as written, which
      throws when one of the first ten subdomains is a record. Whenever it
      renders, it renders the intended body. */
  function RenderResultsAsWritten(step: ScanStep, results: Option<PhaseResults>): (b: Rendering<CardBody>)
    ensures b.Throws? <==> step == Reconnaissance && results.Some? && ShowsSubdomainRecord(results.value)
    ensures b.Rendered? ==> b.view == RenderResults(step, results)
  {
    if step == Reconnaissance && results.Some? then
      match ReconnaissanceRenderAsWritten(results.value)
      case Throws(error) => Throws(error)
      case Rendered(view) => Rendered(ReconnaissanceBody(view))
    else Rendered(RenderResults(step, results))
  }

  // ---------------------------------------------------------------------
  // The card

  /** What `{executionTime && (...)}` puts in the header: the time when it
      is a non-zero number, and otherwise the falsy value itself, which
      React prints as text. */
  datatype TimeLabel = Seconds(millis: int) | StrayText(text: string)

  /** The card of one progress entry: title, icon, the execution time, and
      the body while the card is expanded. The scanner hands the card only
      entries a phase answer completed, whose time is
      `execution_time_seconds * 1000`: a missing time there is `NaN`, which
      the entry holds as `None`. */
  datatype PhaseCard = PhaseCard(title: string, icon: PhaseIcon, executionTime: TimeLabel, body: Option<Rendering<CardBody>>)

  function TimeLabelOf(executionTime: Option<int>): (l: TimeLabel)
    ensures l == StrayText("NaN") <==> executionTime.None?
    ensures l == StrayText("0") <==> executionTime == Some(0)
    ensures l.Seconds? <==> executionTime.Some? && executionTime.value != 0
    ensures l.Seconds? ==> l.millis == executionTime.value
  {
    match executionTime
    case None => StrayText("NaN")
    case Some(ms) => if ms == 0 then StrayText("0") else Seconds(ms)
  }

  function PhaseCardOf(language: Language, entry: ScanProgress, isExpanded: bool): (c: PhaseCard)
    ensures c.title == PhaseTitle(language, entry.step) && c.icon == PhaseIconOf(entry.step)
    ensures c.executionTime == TimeLabelOf(entry.executionTime)
    ensures c.body.Some? <==> isExpanded
    ensures c.body.Some? ==> c.body.value == RenderResultsAsWritten(entry.step, ResultsOf(Some(entry)))
  {
    PhaseCard(PhaseTitle(language, entry.step), PhaseIconOf(entry.step),
              TimeLabelOf(entry.executionTime),
              if isExpanded then Some(RenderResultsAsWritten(entry.step, ResultsOf(Some(entry)))) else None)
  }

  /** The card of a phase the loop answered shows that answer's results:
      it renders nothing exactly when the answer carried none, and it
      throws exactly for a reconnaissance answer that lists a subdomain
      record among its first ten. */
  lemma AnsweredPhaseCard(language: Language, e: ScanProgress, answer: PhaseResponse)
    requires e.step != Report
    ensures PhaseCardOf(language, AnsweredEntry(e, answer), true).body.Some?
    ensures PhaseCardOf(language, AnsweredEntry(e, answer), true).body.value == Rendered(NoBody) <==> answer.results.None?
    ensures PhaseCardOf(language, AnsweredEntry(e, answer), true).body.value.Throws? <==>
      e.step == Reconnaissance && answer.results.Some? && ShowsSubdomainRecord(answer.results.value)
  {
  }
}
