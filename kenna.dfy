/**
 * The record types of the Kenna Data Importer schema and of the two export
 * shapes. Each importer record type has a constructor that validates keyword
 * arguments the way the schema library does: a key missing from the
 * arguments is "not supplied" (the field takes its default), a `VNull` is an
 * explicit None. Implicit type coercion (a string "5" for an int) is not part
 * of the model: a value of the wrong type is rejected.
 */
module Kenna {
  import opened Wrappers
  import opened PyValues
  import opened KennaPatterns

  /** Keyword arguments handed to a record constructor. */
  type Kwargs = map<string, Value>

  // ---------------------------------------------------------------------------
  // Field types
  // ---------------------------------------------------------------------------

  predicate IsStr(kw: Kwargs, f: string) { f in kw && kw[f].VStr? }

  predicate IsOptStr(kw: Kwargs, f: string) { f !in kw || kw[f].VNull? || kw[f].VStr? }

  predicate IsOptInt(kw: Kwargs, f: string) { f !in kw || kw[f].VNull? || kw[f].VInt? }

  predicate IsIntIn(kw: Kwargs, f: string, lo: int, hi: int) {
    f in kw && kw[f].VInt? && lo <= kw[f].i <= hi
  }

  predicate IsOptIntIn(kw: Kwargs, f: string, lo: int, hi: int) {
    IsOptInt(kw, f) && (f in kw && kw[f].VInt? ==> lo <= kw[f].i <= hi)
  }

  /** An optional string field whose value, when it is a string, satisfies `p`. */
  predicate IsOptStrWhere(kw: Kwargs, f: string, p: string -> bool) {
    IsOptStr(kw, f) && (f in kw && kw[f].VStr? ==> p(kw[f].s))
  }

  /** A list-of-strings field that defaults to the empty list when not supplied. */
  predicate IsStrListOrUnset(kw: Kwargs, f: string) {
    f !in kw || (kw[f].VList? && forall k :: 0 <= k < |kw[f].items| ==> kw[f].items[k].VStr?)
  }

  /** The value a field takes: the supplied one, or the default. */
  function Supplied(kw: Kwargs, f: string, default: Value): Value {
    if f in kw then kw[f] else default
  }

  function ReqStr(kw: Kwargs, model: string, f: string): (r: Result<string, Error>)
    ensures r.Ok? <==> IsStr(kw, f)
    ensures r.Ok? ==> kw[f] == VStr(r.value)
    ensures r.Err? ==> r.error == ValidationError(model, f)
  {
    if IsStr(kw, f) then Ok(kw[f].s) else Err(ValidationError(model, f))
  }

  function OptStr(kw: Kwargs, model: string, f: string): (r: Result<Option<string>, Error>)
    ensures r.Ok? <==> IsOptStr(kw, f)
    ensures r.Ok? ==> OfOptStr(r.value) == Get(kw, f)
    ensures r.Err? ==> r.error == ValidationError(model, f)
  {
    if !IsOptStr(kw, f) then Err(ValidationError(model, f))
    else if f in kw && kw[f].VStr? then Ok(Some(kw[f].s))
    else Ok(None)
  }

  function IntIn(kw: Kwargs, model: string, f: string, lo: int, hi: int): (r: Result<int, Error>)
    ensures r.Ok? <==> IsIntIn(kw, f, lo, hi)
    ensures r.Ok? ==> kw[f] == VInt(r.value)
    ensures r.Err? ==> r.error == ValidationError(model, f)
  {
    if IsIntIn(kw, f, lo, hi) then Ok(kw[f].i) else Err(ValidationError(model, f))
  }

  /** An optional int field, with its supplied default when the key is missing. */
  function OptInt(kw: Kwargs, model: string, f: string, default: Option<int>): (r: Result<Option<int>, Error>)
    ensures r.Ok? <==> IsOptInt(kw, f)
    ensures r.Ok? ==> OfOptInt(r.value) == Supplied(kw, f, OfOptInt(default))
    ensures r.Err? ==> r.error == ValidationError(model, f)
  {
    if f !in kw then Ok(default)
    else if kw[f].VInt? then Ok(Some(kw[f].i))
    else if kw[f].VNull? then Ok(None)
    else Err(ValidationError(model, f))
  }

  function StrList(kw: Kwargs, model: string, f: string): (r: Result<seq<string>, Error>)
    ensures r.Ok? <==> IsStrListOrUnset(kw, f)
    ensures r.Ok? ==> OfStrList(r.value) == Supplied(kw, f, VList([]))
    ensures r.Err? ==> r.error == ValidationError(model, f)
  {
    if !IsStrListOrUnset(kw, f) then Err(ValidationError(model, f))
    else if f !in kw then
      assert OfStrList([]).items == [];
      Ok([])
    else
      var xs := kw[f].items;
      var ss := seq(|xs|, k requires 0 <= k < |xs| => xs[k].s);
      assert OfStrList(ss).items == xs;
      Ok(ss)
  }

  // ---------------------------------------------------------------------------
  // KennaVulnDef
  // ---------------------------------------------------------------------------

  datatype VulnDef = VulnDef(
    scannerType: string,
    cveIdentifiers: Option<string>,
    wascIdentifiers: Option<string>,
    cweIdentifiers: Option<string>,
    name: string,
    description: Option<string>,
    solution: Option<string>)

  /** The field constraints of a definition: the identifier patterns. */
  predicate ValidVulnDef(d: VulnDef) {
    && (d.cveIdentifiers.Some? ==> IsCvePrefixed(d.cveIdentifiers.value))
    && (d.cweIdentifiers.Some? ==> IsCwePrefixed(d.cweIdentifiers.value))
  }

  const VulnDefFields: set<string> :=
    {"scanner_type", "cve_identifiers", "wasc_identifiers", "cwe_identifiers", "name", "description", "solution"}

  /** The arguments a definition is accepted from. */
  predicate AcceptsVulnDef(kw: Kwargs) {
    && IsStr(kw, "scanner_type")
    && IsOptStrWhere(kw, "cve_identifiers", IsCvePrefixed)
    && IsOptStr(kw, "wasc_identifiers")
    && IsOptStrWhere(kw, "cwe_identifiers", IsCwePrefixed)
    && IsStr(kw, "name")
    && IsOptStr(kw, "description")
    && IsOptStr(kw, "solution")
  }

  /** Every field of `d` holds what `kw` supplied for it (None when not supplied). */
  predicate VulnDefFrom(kw: Kwargs, d: VulnDef) {
    && Get(kw, "scanner_type") == VStr(d.scannerType)
    && Get(kw, "cve_identifiers") == OfOptStr(d.cveIdentifiers)
    && Get(kw, "wasc_identifiers") == OfOptStr(d.wascIdentifiers)
    && Get(kw, "cwe_identifiers") == OfOptStr(d.cweIdentifiers)
    && Get(kw, "name") == VStr(d.name)
    && Get(kw, "description") == OfOptStr(d.description)
    && Get(kw, "solution") == OfOptStr(d.solution)
  }

  /** A definition written back as keyword arguments. */
  function DumpVulnDef(d: VulnDef): (kw: Kwargs)
    ensures kw.Keys == VulnDefFields
  {
    map[
      "scanner_type" := VStr(d.scannerType),
      "cve_identifiers" := OfOptStr(d.cveIdentifiers),
      "wasc_identifiers" := OfOptStr(d.wascIdentifiers),
      "cwe_identifiers" := OfOptStr(d.cweIdentifiers),
      "name" := VStr(d.name),
      "description" := OfOptStr(d.description),
      "solution" := OfOptStr(d.solution)]
  }

  /** `KennaVulnDef(**kw)`. */
  function NewVulnDef(kw: Kwargs): (r: Result<VulnDef, Error>)
    ensures r.Ok? <==> AcceptsVulnDef(kw)
    ensures r.Ok? ==> ValidVulnDef(r.value)
    ensures r.Ok? ==> VulnDefFrom(kw, r.value)
    ensures r.Err? ==> r.error.ValidationError? && r.error.model == "KennaVulnDef"
  {
    var m := "KennaVulnDef";
    var scannerType :- ReqStr(kw, m, "scanner_type");
    var cve :- OptStr(kw, m, "cve_identifiers");
    if cve.Some? && !IsCvePrefixed(cve.value) then Err(ValidationError(m, "cve_identifiers")) else
    var wasc :- OptStr(kw, m, "wasc_identifiers");
    var cwe :- OptStr(kw, m, "cwe_identifiers");
    if cwe.Some? && !IsCwePrefixed(cwe.value) then Err(ValidationError(m, "cwe_identifiers")) else
    var name :- ReqStr(kw, m, "name");
    var description :- OptStr(kw, m, "description");
    var solution :- OptStr(kw, m, "solution");
    Ok(VulnDef(scannerType, cve, wasc, cwe, name, description, solution))
  }

  /** A valid definition, written back and validated again, is accepted unchanged. */
  lemma VulnDefRoundTrip(d: VulnDef)
    requires ValidVulnDef(d)
    ensures NewVulnDef(DumpVulnDef(d)) == Ok(d)
  {
  }

  // ---------------------------------------------------------------------------
  // Vulnerability
  // ---------------------------------------------------------------------------

  datatype Status = Open | Closed

  function StatusName(s: Status): string {
    match s
    case Open => "open"
    case Closed => "closed"
  }

  datatype Vulnerability = Vulnerability(
    scannerIdentifier: string,
    scannerType: string,
    scannerScore: int,
    overrideScore: Option<int>,
    createdAt: Option<string>,
    lastSeenAt: string,
    lastFixedOn: Option<string>,
    status: Status,
    details: Option<string>,
    port: Option<int>,
    vulnDefName: string)

  /** The score ranges of a vulnerability. */
  predicate ValidVulnerability(v: Vulnerability) {
    && 0 <= v.scannerScore <= 10
    && (v.overrideScore.Some? ==> 0 <= v.overrideScore.value <= 100)
  }

  const VulnerabilityFields: set<string> :=
    {"scanner_identifier", "scanner_type", "scanner_score", "override_score", "created_at", "last_seen_at",
     "last_fixed_on", "status", "details", "port", "vuln_def_name"}

  predicate IsStatus(kw: Kwargs, f: string) {
    f in kw && kw[f].VStr? && (kw[f].s == "open" || kw[f].s == "closed")
  }

  /** The arguments a vulnerability is accepted from. */
  predicate AcceptsVulnerability(kw: Kwargs) {
    && IsStr(kw, "scanner_identifier")
    && IsStr(kw, "scanner_type")
    && IsIntIn(kw, "scanner_score", 0, 10)
    && IsOptIntIn(kw, "override_score", 0, 100)
    && IsOptStr(kw, "created_at")
    && IsStr(kw, "last_seen_at")
    && IsOptStr(kw, "last_fixed_on")
    && IsStatus(kw, "status")
    && IsOptStr(kw, "details")
    && IsOptInt(kw, "port")
    && IsStr(kw, "vuln_def_name")
  }

  /** Every field of `v` holds what `kw` supplied for it (None when not supplied). */
  predicate VulnerabilityFrom(kw: Kwargs, v: Vulnerability) {
    && Get(kw, "scanner_identifier") == VStr(v.scannerIdentifier)
    && Get(kw, "scanner_type") == VStr(v.scannerType)
    && Get(kw, "scanner_score") == VInt(v.scannerScore)
    && Get(kw, "override_score") == OfOptInt(v.overrideScore)
    && Get(kw, "created_at") == OfOptStr(v.createdAt)
    && Get(kw, "last_seen_at") == VStr(v.lastSeenAt)
    && Get(kw, "last_fixed_on") == OfOptStr(v.lastFixedOn)
    && Get(kw, "status") == VStr(StatusName(v.status))
    && Get(kw, "details") == OfOptStr(v.details)
    && Get(kw, "port") == OfOptInt(v.port)
    && Get(kw, "vuln_def_name") == VStr(v.vulnDefName)
  }

  /** A vulnerability written back as keyword arguments. */
  function DumpVulnerability(v: Vulnerability): (kw: Kwargs)
    ensures kw.Keys == VulnerabilityFields
  {
    map[
      "scanner_identifier" := VStr(v.scannerIdentifier),
      "scanner_type" := VStr(v.scannerType),
      "scanner_score" := VInt(v.scannerScore),
      "override_score" := OfOptInt(v.overrideScore),
      "created_at" := OfOptStr(v.createdAt),
      "last_seen_at" := VStr(v.lastSeenAt),
      "last_fixed_on" := OfOptStr(v.lastFixedOn),
      "status" := VStr(StatusName(v.status)),
      "details" := OfOptStr(v.details),
      "port" := OfOptInt(v.port),
      "vuln_def_name" := VStr(v.vulnDefName)]
  }

  function ReqStatus(kw: Kwargs, model: string, f: string): (r: Result<Status, Error>)
    ensures r.Ok? <==> IsStatus(kw, f)
    ensures r.Ok? ==> kw[f] == VStr(StatusName(r.value))
    ensures r.Err? ==> r.error == ValidationError(model, f)
  {
    if !IsStatus(kw, f) then Err(ValidationError(model, f))
    else if kw[f].s == "open" then Ok(Open)
    else Ok(Closed)
  }

  /** `Vulnerability(**kw)`. */
  function NewVulnerability(kw: Kwargs): (r: Result<Vulnerability, Error>)
    ensures r.Ok? <==> AcceptsVulnerability(kw)
    ensures r.Ok? ==> ValidVulnerability(r.value)
    ensures r.Ok? ==> VulnerabilityFrom(kw, r.value)
    ensures r.Err? ==> r.error.ValidationError? && r.error.model == "Vulnerability"
  {
    var m := "Vulnerability";
    var scannerIdentifier :- ReqStr(kw, m, "scanner_identifier");
    var scannerType :- ReqStr(kw, m, "scanner_type");
    var scannerScore :- IntIn(kw, m, "scanner_score", 0, 10);
    var overrideScore :- OptInt(kw, m, "override_score", None);
    if overrideScore.Some? && !(0 <= overrideScore.value <= 100) then Err(ValidationError(m, "override_score")) else
    var createdAt :- OptStr(kw, m, "created_at");
    var lastSeenAt :- ReqStr(kw, m, "last_seen_at");
    var lastFixedOn :- OptStr(kw, m, "last_fixed_on");
    var status :- ReqStatus(kw, m, "status");
    var details :- OptStr(kw, m, "details");
    var port :- OptInt(kw, m, "port", None);
    var vulnDefName :- ReqStr(kw, m, "vuln_def_name");
    Ok(Vulnerability(scannerIdentifier, scannerType, scannerScore, overrideScore, createdAt, lastSeenAt,
                     lastFixedOn, status, details, port, vulnDefName))
  }

  /** A valid vulnerability, written back and validated again, is accepted unchanged. */
  lemma VulnerabilityRoundTrip(v: Vulnerability)
    requires ValidVulnerability(v)
    ensures NewVulnerability(DumpVulnerability(v)) == Ok(v)
  {
  }

  // ---------------------------------------------------------------------------
  // Findings
  // ---------------------------------------------------------------------------

  datatype Finding = Finding(
    scannerIdentifier: string,
    scannerType: string,
    createdAt: Option<string>,
    dueDate: Option<string>,
    lastSeenAt: string,
    severity: Option<int>,
    triageState: Option<string>,
    additionalFields: Option<Record>,
    vulnDefName: string)

  const FindingFields: set<string> :=
    {"scanner_identifier", "scanner_type", "created_at", "due_date", "last_seen_at", "severity",
     "triage_state", "vuln_def_name"}

  /** The arguments a finding is accepted from. Severity has no range check. */
  predicate AcceptsFinding(kw: Kwargs) {
    && IsStr(kw, "scanner_identifier")
    && IsStr(kw, "scanner_type")
    && IsOptStr(kw, "created_at")
    && IsOptStr(kw, "due_date")
    && IsStr(kw, "last_seen_at")
    && IsOptInt(kw, "severity")
    && IsOptStr(kw, "triage_state")
    && IsStr(kw, "vuln_def_name")
  }

  /** Every field of `g` but the free-form one holds what `kw` supplied for it. */
  predicate FindingFrom(kw: Kwargs, g: Finding) {
    && Get(kw, "scanner_identifier") == VStr(g.scannerIdentifier)
    && Get(kw, "scanner_type") == VStr(g.scannerType)
    && Get(kw, "created_at") == OfOptStr(g.createdAt)
    && Get(kw, "due_date") == OfOptStr(g.dueDate)
    && Get(kw, "last_seen_at") == VStr(g.lastSeenAt)
    && Get(kw, "severity") == OfOptInt(g.severity)
    && Get(kw, "triage_state") == OfOptStr(g.triageState)
    && Get(kw, "vuln_def_name") == VStr(g.vulnDefName)
  }

  /** A finding written back as keyword arguments. */
  function DumpFinding(g: Finding): (kw: Kwargs)
    ensures kw.Keys == FindingFields
  {
    map[
      "scanner_identifier" := VStr(g.scannerIdentifier),
      "scanner_type" := VStr(g.scannerType),
      "created_at" := OfOptStr(g.createdAt),
      "due_date" := OfOptStr(g.dueDate),
      "last_seen_at" := VStr(g.lastSeenAt),
      "severity" := OfOptInt(g.severity),
      "triage_state" := OfOptStr(g.triageState),
      "vuln_def_name" := VStr(g.vulnDefName)]
  }

  /**
   * `Findings(**kw, additional_fields=extra)`. The free-form dictionary is passed
   * apart from the other arguments because it is the one field whose value is a
   * dictionary; any dictionary is accepted.
   */
  function NewFinding(kw: Kwargs, extra: Option<Record>): (r: Result<Finding, Error>)
    ensures r.Ok? <==> AcceptsFinding(kw)
    ensures r.Ok? ==> FindingFrom(kw, r.value)
    ensures r.Ok? ==> r.value.additionalFields == extra
    ensures r.Err? ==> r.error.ValidationError? && r.error.model == "Findings"
  {
    var m := "Findings";
    var scannerIdentifier :- ReqStr(kw, m, "scanner_identifier");
    var scannerType :- ReqStr(kw, m, "scanner_type");
    var createdAt :- OptStr(kw, m, "created_at");
    var dueDate :- OptStr(kw, m, "due_date");
    var lastSeenAt :- ReqStr(kw, m, "last_seen_at");
    var severity :- OptInt(kw, m, "severity", None);
    var triageState :- OptStr(kw, m, "triage_state");
    var vulnDefName :- ReqStr(kw, m, "vuln_def_name");
    Ok(Finding(scannerIdentifier, scannerType, createdAt, dueDate, lastSeenAt, severity, triageState,
               extra, vulnDefName))
  }

  /** Every finding, written back and validated again, is accepted unchanged. */
  lemma FindingRoundTrip(g: Finding)
    ensures NewFinding(DumpFinding(g), g.additionalFields) == Ok(g)
  {
  }

  /** Example: a severity of 42, outside 0..10, is accepted, since the finding schema puts no range on it. */
  lemma FindingSeverityUnbounded(kw: Kwargs)
    requires AcceptsFinding(kw)
    requires "severity" in kw && kw["severity"] == VInt(42)
    ensures NewFinding(kw, None).Ok? && NewFinding(kw, None).value.severity == Some(42)
  {
  }

  // ---------------------------------------------------------------------------
  // KennaAsset
  // ---------------------------------------------------------------------------

  datatype AssetType = Container | Image

  datatype Asset = Asset(
    file: Option<string>,
    ipAddress: Option<string>,
    hostname: Option<string>,
    ec2: Option<string>,
    netbios: Option<string>,
    url: Option<string>,
    fqdn: Option<string>,
    imageId: Option<string>,
    containerId: Option<string>,
    externalId: Option<string>,
    database: Option<string>,
    application: Option<string>,
    tags: seq<string>,
    owner: Option<string>,
    os: Option<string>,
    osVersion: Option<string>,
    priority: Option<int>,
    assetType: Option<AssetType>,
    lastSeenAt: Option<string>,
    vulns: seq<Vulnerability>,
    findings: seq<Finding>)

  function OfAssetType(t: Option<AssetType>): Value {
    match t
    case None => VNull
    case Some(Container) => VStr("container")
    case Some(Image) => VStr("image")
  }

  predicate IsOptAssetType(kw: Kwargs, f: string) {
    f !in kw || kw[f].VNull? || kw[f] == VStr("container") || kw[f] == VStr("image")
  }

  function OptAssetType(kw: Kwargs, model: string, f: string): (r: Result<Option<AssetType>, Error>)
    ensures r.Ok? <==> IsOptAssetType(kw, f)
    ensures r.Ok? ==> OfAssetType(r.value) == Get(kw, f)
    ensures r.Err? ==> r.error == ValidationError(model, f)
  {
    if f !in kw || kw[f].VNull? then Ok(None)
    else if kw[f] == VStr("container") then Ok(Some(Container))
    else if kw[f] == VStr("image") then Ok(Some(Image))
    else Err(ValidationError(model, f))
  }

  /** The arguments an asset is accepted from. */
  predicate AcceptsAsset(kw: Kwargs) {
    && IsOptStr(kw, "file") && IsOptStr(kw, "ip_address") && IsOptStr(kw, "hostname")
    && IsOptStr(kw, "ec2") && IsOptStr(kw, "netbios") && IsOptStr(kw, "url") && IsOptStr(kw, "fqdn")
    && IsOptStr(kw, "image_id") && IsOptStr(kw, "container_id") && IsOptStr(kw, "external_id")
    && IsOptStr(kw, "database") && IsOptStr(kw, "application")
    && IsStrListOrUnset(kw, "tags")
    && IsOptStr(kw, "owner") && IsOptStr(kw, "os") && IsOptStr(kw, "os_version")
    && IsOptInt(kw, "priority")
    && IsOptAssetType(kw, "asset_type")
    && IsOptStr(kw, "last_seen_at")
  }

  /** Every field of `a` but its two collections holds what `kw` supplied for it, or its default. */
  predicate AssetFrom(kw: Kwargs, a: Asset) {
    && Get(kw, "file") == OfOptStr(a.file)
    && Get(kw, "ip_address") == OfOptStr(a.ipAddress)
    && Get(kw, "hostname") == OfOptStr(a.hostname)
    && Get(kw, "ec2") == OfOptStr(a.ec2)
    && Get(kw, "netbios") == OfOptStr(a.netbios)
    && Get(kw, "url") == OfOptStr(a.url)
    && Get(kw, "fqdn") == OfOptStr(a.fqdn)
    && Get(kw, "image_id") == OfOptStr(a.imageId)
    && Get(kw, "container_id") == OfOptStr(a.containerId)
    && Get(kw, "external_id") == OfOptStr(a.externalId)
    && Get(kw, "database") == OfOptStr(a.database)
    && Get(kw, "application") == OfOptStr(a.application)
    && Supplied(kw, "tags", VList([])) == OfStrList(a.tags)
    && Get(kw, "owner") == OfOptStr(a.owner)
    && Get(kw, "os") == OfOptStr(a.os)
    && Get(kw, "os_version") == OfOptStr(a.osVersion)
    && Supplied(kw, "priority", VInt(10)) == OfOptInt(a.priority)
    && Get(kw, "asset_type") == OfAssetType(a.assetType)
    && Get(kw, "last_seen_at") == OfOptStr(a.lastSeenAt)
  }

  /** `KennaAsset(**kw)`: a new asset owns no vulnerabilities and no findings yet. */
  function NewAsset(kw: Kwargs): (r: Result<Asset, Error>)
    ensures r.Ok? <==> AcceptsAsset(kw)
    ensures r.Ok? ==> r.value.vulns == [] && r.value.findings == []
    ensures r.Ok? ==> AssetFrom(kw, r.value)
    ensures r.Err? ==> r.error.ValidationError? && r.error.model == "KennaAsset"
  {
    var m := "KennaAsset";
    var file :- OptStr(kw, m, "file");
    var ipAddress :- OptStr(kw, m, "ip_address");
    var hostname :- OptStr(kw, m, "hostname");
    var ec2 :- OptStr(kw, m, "ec2");
    var netbios :- OptStr(kw, m, "netbios");
    var url :- OptStr(kw, m, "url");
    var fqdn :- OptStr(kw, m, "fqdn");
    var imageId :- OptStr(kw, m, "image_id");
    var containerId :- OptStr(kw, m, "container_id");
    var externalId :- OptStr(kw, m, "external_id");
    var database :- OptStr(kw, m, "database");
    var application :- OptStr(kw, m, "application");
    var tags :- StrList(kw, m, "tags");
    var owner :- OptStr(kw, m, "owner");
    var os :- OptStr(kw, m, "os");
    var osVersion :- OptStr(kw, m, "os_version");
    var priority :- OptInt(kw, m, "priority", Some(10));
    var assetType :- OptAssetType(kw, m, "asset_type");
    var lastSeenAt :- OptStr(kw, m, "last_seen_at");
    Ok(Asset(file, ipAddress, hostname, ec2, netbios, url, fqdn, imageId, containerId, externalId, database,
             application, tags, owner, os, osVersion, priority, assetType, lastSeenAt, [], []))
  }

  /** Defaults: priority 10 only when not supplied (an explicit None stays None), tags empty. */
  lemma AssetDefaults(kw: Kwargs)
    requires NewAsset(kw).Ok?
    ensures "priority" !in kw ==> NewAsset(kw).value.priority == Some(10)
    ensures "priority" in kw && kw["priority"] == VNull ==> NewAsset(kw).value.priority == None
    ensures "tags" !in kw ==> NewAsset(kw).value.tags == []
  {
  }

  /** An explicit None for the tags list is rejected: only a missing key gives the empty default. */
  lemma AssetTagsNoneRejected(kw: Kwargs)
    requires "tags" in kw && kw["tags"] == VNull
    ensures NewAsset(kw).Err?
  {
  }

  // ---------------------------------------------------------------------------
  // KennaDataImporter and the export documents
  // ---------------------------------------------------------------------------

  datatype ImportDocument = ImportDocument(
    skipAutoclose: bool,
    version: int,
    resetTags: Option<bool>,
    assets: seq<Asset>,
    vulnDefs: seq<VulnDef>)

  /** `KennaDataImporter()`: format version 2, both flags off, no assets and no definitions. */
  function NewImporter(): (d: ImportDocument)
    ensures d.version == 2 && !d.skipAutoclose && d.resetTags == Some(false)
    ensures d.assets == [] && d.vulnDefs == []
  {
    ImportDocument(false, 2, Some(false), [], [])
  }

  /** A downloaded export: either all assets or all vulnerabilities of a saved search. */
  datatype ExportDocument =
    | AssetsExport(meta: map<string, int>, assets: seq<Record>)
    | VulnsExport(meta: map<string, int>, vulnerabilities: seq<Record>)

  /** The `meta` dictionary may only hold the key `total_count`. */
  predicate ValidExport(d: ExportDocument) {
    d.meta.Keys <= {"total_count"}
  }

  /** The top-level keys of a loaded export object that decide its shape; `None` is a missing key. */
  datatype ExportJson = ExportJson(
    meta: Option<map<string, Value>>,
    assets: Option<seq<Record>>,
    vulnerabilities: Option<seq<Record>>)

  /** A `meta` dictionary keyed only by `total_count`, with integer values. */
  predicate MetaOk(meta: Option<map<string, Value>>) {
    meta.Some? && meta.value.Keys <= {"total_count"} && forall k :: k in meta.value ==> meta.value[k].VInt?
  }

  /**
   * `KennaDataExportModel` validation of a loaded object: an asset export when
   * it has an `assets` list, otherwise a vulnerability export when it has a
   * `vulnerabilities` list; either needs a valid `meta`.
   */
  function NewExport(j: ExportJson): (r: Result<ExportDocument, Error>)
    ensures r.Ok? <==> MetaOk(j.meta) && (j.assets.Some? || j.vulnerabilities.Some?)
    ensures r.Ok? ==> ValidExport(r.value)
    ensures r.Ok? ==> forall k :: k in j.meta.value ==> k in r.value.meta && j.meta.value[k] == VInt(r.value.meta[k])
    ensures r.Ok? && r.value.AssetsExport? ==> j.assets == Some(r.value.assets)
    ensures r.Ok? && r.value.VulnsExport? ==> j.assets.None? && j.vulnerabilities == Some(r.value.vulnerabilities)
    ensures r.Err? ==> r.error == ValidationError("KennaDataExportModel", "root")
  {
    if !MetaOk(j.meta) then Err(ValidationError("KennaDataExportModel", "root"))
    else
      var meta := map k | k in j.meta.value :: j.meta.value[k].i;
      if j.assets.Some? then Ok(AssetsExport(meta, j.assets.value))
      else if j.vulnerabilities.Some? then Ok(VulnsExport(meta, j.vulnerabilities.value))
      else Err(ValidationError("KennaDataExportModel", "root"))
  }

  /** The object an export document is loaded from. */
  function DumpExport(d: ExportDocument): (j: ExportJson)
    ensures j.meta.Some? && j.meta.value.Keys == d.meta.Keys
    ensures d.AssetsExport? <==> j.assets.Some?
  {
    var meta := map k | k in d.meta :: VInt(d.meta[k]);
    match d
    case AssetsExport(_, assets) => ExportJson(Some(meta), Some(assets), None)
    case VulnsExport(_, vulns) => ExportJson(Some(meta), None, Some(vulns))
  }

  /** Every valid export document is recovered from the object it dumps to. */
  lemma ExportRoundTrip(d: ExportDocument)
    requires ValidExport(d)
    ensures NewExport(DumpExport(d)) == Ok(d)
  {
    var j := DumpExport(d);
    var meta := map k | k in j.meta.value :: j.meta.value[k].i;
    assert meta == d.meta;
  }
}
