/**
 * `search_vulns`: the vulnerability records that belong to one asset, each
 * turned into a vulnerability, a vulnerability definition and a finding.
 */
module VulnSearch {
  import opened Wrappers
  import opened PyValues
  import opened KennaPatterns
  import opened Kenna

  /** The scanner type stamped on every record the importer produces. */
  const ScannerType: string := "KennaDataImporter"

  /** The prefix of every scanner identifier. */
  const IdPrefix: string := "SourceID_"

  /** The three fragments derived from one vulnerability record. */
  datatype Triple = Triple(vuln: Vulnerability, def: VulnDef, finding: Finding)

  // ---------------------------------------------------------------------------
  // Derived fields
  // ---------------------------------------------------------------------------

  /**
   * The status passed on: open when the word "open" occurs in the record's
   * status (a substring of a string status, an element of a list status),
   * closed otherwise. Reading a missing status raises; a status of any other
   * type cannot be searched.
   */
  function StatusArg(item: Record): (r: Result<Value, Error>)
    ensures "status" !in item ==> r == Err(KeyError("status"))
    ensures "status" in item && !item["status"].VStr? && !item["status"].VList? ==> r.Err? && r.error.TypeError?
    ensures "status" in item && item["status"].VStr? ==>
              (r == Ok(VStr("open")) <==> exists i :: OccursAt(item["status"].s, "open", i))
    ensures r.Ok? ==> r.value == VStr("open") || r.value == VStr("closed")
  {
    if "status" !in item then Err(KeyError("status"))
    else
      var isOpen :- StrIn("open", item["status"]);
      Ok(VStr(if isOpen then "open" else "closed"))
  }

  /**
   * The port passed on: the first element of the record's port when that is
   * truthy, and None when the port is missing or falsy.
   */
  function PortArg(item: Record): Result<Value, Error> {
    if Truthy(Get(item, "port")) then First(item["port"]) else Ok(VNull)
  }

  function VulnerabilityArgs(item: Record, vulnId: string, cveId: Value, status: Value, port: Value): (kw: Kwargs)
    ensures Get(kw, "scanner_identifier") == VStr(vulnId) && Get(kw, "scanner_type") == VStr(ScannerType)
    ensures Get(kw, "scanner_score") == Get(item, "scanner_score") && Get(kw, "override_score") == VNull
    ensures Get(kw, "created_at") == Get(item, "created_at") && Get(kw, "last_seen_at") == Get(item, "last_seen_time")
    ensures Get(kw, "last_fixed_on") == Get(item, "closed_at") && Get(kw, "status") == status
    ensures Get(kw, "details") == Get(item, "details") && Get(kw, "port") == port
    ensures Get(kw, "vuln_def_name") == cveId
  {
    map[
      "scanner_identifier" := VStr(vulnId),
      "scanner_type" := VStr(ScannerType),
      "scanner_score" := Get(item, "scanner_score"),
      "created_at" := Get(item, "created_at"),
      "last_seen_at" := Get(item, "last_seen_time"),
      "last_fixed_on" := Get(item, "closed_at"),
      "status" := status,
      "details" := Get(item, "details"),
      "port" := port,
      "vuln_def_name" := cveId]
  }

  function VulnDefArgs(item: Record, cveId: Value): (kw: Kwargs)
    ensures Get(kw, "scanner_type") == VStr(ScannerType) && Get(kw, "cve_identifiers") == Get(item, "cve_id")
    ensures Get(kw, "wasc_identifiers") == VNull && Get(kw, "cwe_identifiers") == VNull
    ensures Get(kw, "name") == cveId && Get(kw, "solution") == Get(item, "solution")
    ensures Get(kw, "description") == Or(Get(item, "description"), Get(item, "cve_description"))
  {
    map[
      "scanner_type" := VStr(ScannerType),
      "cve_identifiers" := Get(item, "cve_id"),
      "name" := cveId,
      "description" := Or(Get(item, "description"), Get(item, "cve_description")),
      "solution" := Get(item, "solution")]
  }

  function FindingArgs(item: Record, vulnId: string, cveId: Value): (kw: Kwargs)
    ensures Get(kw, "scanner_identifier") == VStr(vulnId) && Get(kw, "scanner_type") == VStr(ScannerType)
    ensures Get(kw, "created_at") == Get(item, "created_at") && Get(kw, "due_date") == Get(item, "due_date")
    ensures Get(kw, "last_seen_at") == Get(item, "last_seen_time") && Get(kw, "severity") == Get(item, "severity")
    ensures Get(kw, "triage_state") == VNull && Get(kw, "vuln_def_name") == cveId
  {
    map[
      "scanner_type" := VStr(ScannerType),
      "scanner_identifier" := VStr(vulnId),
      "created_at" := Get(item, "created_at"),
      "due_date" := Get(item, "due_date"),
      "last_seen_at" := Get(item, "last_seen_time"),
      "severity" := Get(item, "severity"),
      "vuln_def_name" := cveId]
  }

  /** The body of the loop of `search_vulns` for a record that matched. */
  function Transform(item: Record): Result<Triple, Error> {
    if "id" !in item then Err(KeyError("id")) else
    var vulnId := IdPrefix + Render(item["id"]);
    if "cve_id" !in item then Err(KeyError("cve_id")) else
    var cveId := item["cve_id"];
    var status :- StatusArg(item);
    var port :- PortArg(item);
    var vuln :- NewVulnerability(VulnerabilityArgs(item, vulnId, cveId, status, port));
    var def :- NewVulnDef(VulnDefArgs(item, cveId));
    var finding :- NewFinding(FindingArgs(item, vulnId, cveId), None);
    Ok(Triple(vuln, def, finding))
  }

  // ---------------------------------------------------------------------------
  // Properties of one transformation
  // ---------------------------------------------------------------------------

  /**
   * A record transforms exactly when it has `id` and `cve_id`, its status and
   * port can be read, and the three constructors accept their arguments.
   */
  lemma TransformOk(item: Record)
    ensures Transform(item).Ok? <==>
      && "id" in item && "cve_id" in item && StatusArg(item).Ok? && PortArg(item).Ok?
      && var vulnId, cveId := IdPrefix + Render(item["id"]), item["cve_id"];
         && AcceptsVulnerability(VulnerabilityArgs(item, vulnId, cveId, StatusArg(item).value, PortArg(item).value))
         && AcceptsVulnDef(VulnDefArgs(item, cveId))
         && AcceptsFinding(FindingArgs(item, vulnId, cveId))
  {
  }

  /** A successful transformation, taken apart into the steps that produced it. */
  lemma TransformParts(item: Record)
    requires Transform(item).Ok?
    ensures "id" in item && "cve_id" in item && StatusArg(item).Ok? && PortArg(item).Ok?
    ensures var t := Transform(item).value;
      var vulnId := IdPrefix + Render(item["id"]);
      var cveId := item["cve_id"];
      && VulnerabilityFrom(VulnerabilityArgs(item, vulnId, cveId, StatusArg(item).value, PortArg(item).value), t.vuln)
      && AcceptsVulnDef(VulnDefArgs(item, cveId))
      && VulnDefFrom(VulnDefArgs(item, cveId), t.def)
      && FindingFrom(FindingArgs(item, vulnId, cveId), t.finding)
      && t.finding.additionalFields == None
  {
  }

  /**
   * Shared identity: the vulnerability and the finding carry the scanner identifier
   * "SourceID_" + str(id); the definition's name and CVE identifiers and both
   * `vuln_def_name`s are the record's `cve_id`, which therefore begins with a CVE identifier.
   */
  lemma TransformIdentity(item: Record)
    requires Transform(item).Ok?
    ensures var t := Transform(item).value;
      && "id" in item && "cve_id" in item
      && t.vuln.scannerIdentifier == IdPrefix + Render(item["id"])
      && t.finding.scannerIdentifier == t.vuln.scannerIdentifier
      && item["cve_id"] == VStr(t.def.name)
      && t.vuln.vulnDefName == t.def.name && t.finding.vulnDefName == t.def.name
      && t.def.cveIdentifiers == Some(t.def.name)
      && IsCvePrefixed(t.def.name)
      && t.vuln.scannerType == ScannerType && t.def.scannerType == ScannerType
      && t.finding.scannerType == ScannerType
  {
    TransformParts(item);
  }

  /** Status: "open" exactly when "open" occurs in the record's status. */
  lemma TransformStatus(item: Record)
    requires Transform(item).Ok?
    ensures "status" in item && (item["status"].VStr? || item["status"].VList?)
    ensures item["status"].VStr? ==>
      (Transform(item).value.vuln.status == Open <==> exists i :: OccursAt(item["status"].s, "open", i))
    ensures item["status"].VList? ==>
      (Transform(item).value.vuln.status == Open <==> VStr("open") in item["status"].items)
  {
    TransformParts(item);
    var st := item["status"];
    if st.VStr? {
      ContainsIffOccurs(st.s, "open");
    } else if st.VList? {
      var xs := st.items;
      if VStr("open") in xs {
        var k :| 0 <= k < |xs| && xs[k] == VStr("open");
        assert PyEq(VStr("open"), xs[k]);
      }
      if exists k :: 0 <= k < |xs| && PyEq(VStr("open"), xs[k]) {
        var k :| 0 <= k < |xs| && PyEq(VStr("open"), xs[k]);
        assert xs[k] == VStr("open");
      }
    }
  }

  /** Example: "reopened" contains "open", so a reopened vulnerability is exported as open. */
  lemma ReopenedIsOpen()
    ensures Contains("reopened", "open")
  {
    ContainsInContext("re", "open", "ed");
    assert "re" + "open" + "ed" == "reopened";
  }

  /** Port: the first element of a non-empty port list, and None when the list is missing or empty. */
  lemma TransformPort(item: Record)
    requires Transform(item).Ok?
    ensures var port := Transform(item).value.vuln.port;
      && (!Truthy(Get(item, "port")) ==> port == None)
      && (Get(item, "port").VList? && Get(item, "port").items != [] ==> OfOptInt(port) == Get(item, "port").items[0])
  {
    TransformParts(item);
  }

  /** Description: the record's `description` when truthy, otherwise its `cve_description`. */
  lemma TransformDescription(item: Record)
    requires Transform(item).Ok?
    ensures OfOptStr(Transform(item).value.def.description) == Or(Get(item, "description"), Get(item, "cve_description"))
  {
    TransformParts(item);
  }

  /** The fields copied from the record, and the fields the transformation never sets. */
  lemma TransformCopies(item: Record)
    requires Transform(item).Ok?
    ensures var t := Transform(item).value;
      && Get(item, "scanner_score") == VInt(t.vuln.scannerScore)
      && Get(item, "created_at") == OfOptStr(t.vuln.createdAt)
      && Get(item, "last_seen_time") == VStr(t.vuln.lastSeenAt)
      && Get(item, "closed_at") == OfOptStr(t.vuln.lastFixedOn)
      && Get(item, "details") == OfOptStr(t.vuln.details)
      && t.vuln.overrideScore == None
      && Get(item, "solution") == OfOptStr(t.def.solution)
      && t.def.wascIdentifiers == None && t.def.cweIdentifiers == None
      && t.finding.createdAt == t.vuln.createdAt && t.finding.lastSeenAt == t.vuln.lastSeenAt
      && Get(item, "due_date") == OfOptStr(t.finding.dueDate)
      && Get(item, "severity") == OfOptInt(t.finding.severity)
      && t.finding.triageState == None && t.finding.additionalFields == None
  {
    TransformParts(item);
  }

  /** The keys read with `[]` raise when missing, in the order the code reads them. */
  lemma TransformMissingKeys(item: Record)
    ensures "id" !in item ==> Transform(item) == Err(KeyError("id"))
    ensures "id" in item && "cve_id" !in item ==> Transform(item) == Err(KeyError("cve_id"))
    ensures "id" in item && "cve_id" in item && "status" !in item ==> Transform(item) == Err(KeyError("status"))
  {
  }

  /** Distinct integer record ids give distinct scanner identifiers. */
  lemma ScannerIdentifiersDistinct(a: Record, b: Record)
    requires Transform(a).Ok? && Transform(b).Ok?
    requires a["id"].VInt? && b["id"].VInt? && a["id"] != b["id"]
    ensures Transform(a).value.vuln.scannerIdentifier != Transform(b).value.vuln.scannerIdentifier
  {
    TransformIdentity(a);
    TransformIdentity(b);
    var ra, rb := Render(a["id"]), Render(b["id"]);
    if IdPrefix + ra == IdPrefix + rb {
      assert ra == (IdPrefix + ra)[|IdPrefix|..];
      assert rb == (IdPrefix + rb)[|IdPrefix|..];
      IntToDecimalInjective(a["id"].i, b["id"].i);
    }
  }

  /** Example: the int id 5 and the str id "5" render alike, so their records share a scanner identifier. */
  lemma MixedIdsCollide(a: Record, b: Record)
    requires Transform(a).Ok? && Transform(b).Ok?
    requires a["id"] == VInt(5) && b["id"] == VStr("5")
    ensures Transform(a).value.vuln.scannerIdentifier == Transform(b).value.vuln.scannerIdentifier == IdPrefix + "5"
  {
    TransformIdentity(a);
    TransformIdentity(b);
    assert Render(VInt(5)) == "5";
  }

  // ---------------------------------------------------------------------------
  // The scan over the vulnerability records
  // ---------------------------------------------------------------------------

  /** `item['asset_id'] == asset_id`, read without raising. */
  predicate Matches(assetId: Value, item: Record) {
    "asset_id" in item && PyEq(item["asset_id"], assetId)
  }

  /** The records of `source` that belong to the asset, in source order. */
  function Matching(assetId: Value, source: seq<Record>): seq<Record> {
    if source == [] then []
    else if Matches(assetId, source[0]) then [source[0]] + Matching(assetId, source[1..])
    else Matching(assetId, source[1..])
  }

  /** The scan of `search_vulns`, for any per-record transformation `f`: the first exception aborts it. */
  function Scan<T>(assetId: Value, source: seq<Record>, f: Record -> Result<T, Error>): Result<seq<T>, Error> {
    if source == [] then Ok([])
    else if "asset_id" !in source[0] then Err(KeyError("asset_id"))
    else if PyEq(source[0]["asset_id"], assetId) then
      var t :- f(source[0]);
      var rest :- Scan(assetId, source[1..], f);
      Ok([t] + rest)
    else Scan(assetId, source[1..], f)
  }

  /** `list(search_vulns(asset_id, source))`. */
  function SearchVulns(assetId: Value, source: seq<Record>): Result<seq<Triple>, Error> {
    Scan(assetId, source, Transform)
  }

  /** The filter keeps source order: it distributes over concatenation. */
  lemma {:induction false} MatchingAppend(assetId: Value, s1: seq<Record>, s2: seq<Record>)
    ensures Matching(assetId, s1 + s2) == Matching(assetId, s1) + Matching(assetId, s2)
  {
    if s1 == [] {
      assert s1 + s2 == s2;
    } else {
      assert (s1 + s2)[1..] == s1[1..] + s2;
      MatchingAppend(assetId, s1[1..], s2);
    }
  }

  /** A single record is kept exactly when it matches. */
  lemma MatchingSingle(assetId: Value, r: Record)
    ensures Matching(assetId, [r]) == if Matches(assetId, r) then [r] else []
  {
  }

  /** Every kept record matches, and every matching record is kept. */
  lemma {:induction false} MatchingMembers(assetId: Value, source: seq<Record>)
    ensures forall r :: r in Matching(assetId, source) ==> r in source && Matches(assetId, r)
    ensures forall r :: r in source && Matches(assetId, r) ==> r in Matching(assetId, source)
  {
    if source != [] {
      MatchingMembers(assetId, source[1..]);
      assert source == [source[0]] + source[1..];
    }
  }

  /** Every record has an `asset_id`. */
  predicate AllKeyed(source: seq<Record>) {
    forall i :: 0 <= i < |source| ==> "asset_id" in source[i]
  }

  /** Every record transforms without raising. */
  predicate AllTransform<T>(records: seq<Record>, f: Record -> Result<T, Error>) {
    forall k :: 0 <= k < |records| ==> f(records[k]).Ok?
  }

  lemma AllKeyedCons(source: seq<Record>)
    requires source != []
    ensures AllKeyed(source) <==> "asset_id" in source[0] && AllKeyed(source[1..])
  {
    if "asset_id" in source[0] && AllKeyed(source[1..]) {
      forall i | 0 <= i < |source| ensures "asset_id" in source[i] {
        if i > 0 { assert source[i] == source[1..][i - 1]; }
      }
    }
  }

  lemma AllTransformCons<T>(r: Record, rs: seq<Record>, f: Record -> Result<T, Error>)
    ensures AllTransform([r] + rs, f) <==> f(r).Ok? && AllTransform(rs, f)
  {
    var m := [r] + rs;
    if f(r).Ok? && AllTransform(rs, f) {
      forall k | 0 <= k < |m| ensures f(m[k]).Ok? {
        if k > 0 { assert m[k] == rs[k - 1]; }
      }
    }
    if AllTransform(m, f) {
      assert f(m[0]).Ok?;
      forall k | 0 <= k < |rs| ensures f(rs[k]).Ok? {
        assert m[k + 1] == rs[k];
      }
    }
  }

  /** A scan succeeds exactly when every record has an `asset_id` and every matching record transforms. */
  lemma {:induction false} ScanOk<T>(assetId: Value, source: seq<Record>, f: Record -> Result<T, Error>)
    ensures Scan(assetId, source, f).Ok? <==> AllKeyed(source) && AllTransform(Matching(assetId, source), f)
  {
    if source != [] {
      var tail := source[1..];
      ScanOk(assetId, tail, f);
      AllKeyedCons(source);
      if "asset_id" in source[0] && PyEq(source[0]["asset_id"], assetId) {
        AllTransformCons(source[0], Matching(assetId, tail), f);
      }
    }
  }

  /** A successful scan yields one result per matching record, in source order. */
  lemma {:induction false} ScanYields<T>(assetId: Value, source: seq<Record>, f: Record -> Result<T, Error>)
    requires Scan(assetId, source, f).Ok?
    ensures var ts := Scan(assetId, source, f).value;
      && |ts| == |Matching(assetId, source)|
      && forall k :: 0 <= k < |ts| ==> f(Matching(assetId, source)[k]) == Ok(ts[k])
  {
    if source != [] {
      var tail := source[1..];
      ScanYields(assetId, tail, f);
      if PyEq(source[0]["asset_id"], assetId) {
        var m, mt := Matching(assetId, source), Matching(assetId, tail);
        var ts, tt := Scan(assetId, source, f).value, Scan(assetId, tail, f).value;
        assert m == [source[0]] + mt;
        assert ts == [f(source[0]).value] + tt;
        forall k | 0 <= k < |ts| ensures f(m[k]) == Ok(ts[k]) {
          if k > 0 { assert m[k] == mt[k - 1] && ts[k] == tt[k - 1]; }
        }
      }
    }
  }

  /**
   * `search_vulns` raises exactly when some record has no `asset_id`, or some matching
   * record does not transform.
   */
  lemma SearchVulnsOk(assetId: Value, source: seq<Record>)
    ensures SearchVulns(assetId, source).Ok? <==>
      AllKeyed(source) && AllTransform(Matching(assetId, source), Transform)
  {
    ScanOk(assetId, source, Transform);
  }

  /** `search_vulns` yields one triple per matching record, in source order. */
  lemma SearchVulnsYields(assetId: Value, source: seq<Record>)
    requires SearchVulns(assetId, source).Ok?
    ensures var ts := SearchVulns(assetId, source).value;
      && |ts| == |Matching(assetId, source)|
      && forall k :: 0 <= k < |ts| ==> Transform(Matching(assetId, source)[k]) == Ok(ts[k])
  {
    ScanYields(assetId, source, Transform);
  }

  /** In every triple yielded, the vulnerability and the finding name the definition beside them. */
  lemma SearchVulnsLinked(assetId: Value, source: seq<Record>)
    requires SearchVulns(assetId, source).Ok?
    ensures var ts := SearchVulns(assetId, source).value;
      forall k :: 0 <= k < |ts| ==>
        && ts[k].vuln.vulnDefName == ts[k].def.name
        && ts[k].finding.vulnDefName == ts[k].def.name
        && ts[k].finding.scannerIdentifier == ts[k].vuln.scannerIdentifier
  {
    var ts := SearchVulns(assetId, source).value;
    SearchVulnsYields(assetId, source);
    forall k | 0 <= k < |ts|
      ensures ts[k].vuln.vulnDefName == ts[k].def.name && ts[k].finding.vulnDefName == ts[k].def.name
      ensures ts[k].finding.scannerIdentifier == ts[k].vuln.scannerIdentifier
    {
      TransformIdentity(Matching(assetId, source)[k]);
    }
  }

  /** A record with a different `asset_id` contributes nothing to the asset. */
  lemma SearchVulnsSkips(assetId: Value, source: seq<Record>, r: Record)
    requires "asset_id" in r && !PyEq(r["asset_id"], assetId)
    ensures Matching(assetId, source + [r]) == Matching(assetId, source)
  {
    MatchingAppend(assetId, source, [r]);
    MatchingSingle(assetId, r);
  }

  // ---------------------------------------------------------------------------
  // The three columns of a list of triples
  // ---------------------------------------------------------------------------

  function VulnsOf(ts: seq<Triple>): (vs: seq<Vulnerability>)
    ensures |vs| == |ts| && forall k :: 0 <= k < |ts| ==> vs[k] == ts[k].vuln
  {
    seq(|ts|, k requires 0 <= k < |ts| => ts[k].vuln)
  }

  function FindingsOf(ts: seq<Triple>): (gs: seq<Finding>)
    ensures |gs| == |ts| && forall k :: 0 <= k < |ts| ==> gs[k] == ts[k].finding
  {
    seq(|ts|, k requires 0 <= k < |ts| => ts[k].finding)
  }

  function DefsOf(ts: seq<Triple>): (ds: seq<VulnDef>)
    ensures |ds| == |ts| && forall k :: 0 <= k < |ts| ==> ds[k] == ts[k].def
  {
    seq(|ts|, k requires 0 <= k < |ts| => ts[k].def)
  }

  /** Taking one more triple extends each column by that triple's part. */
  lemma ColumnsOfPrefix(ts: seq<Triple>, k: nat)
    requires k < |ts|
    ensures VulnsOf(ts[..k + 1]) == VulnsOf(ts[..k]) + [ts[k].vuln]
    ensures FindingsOf(ts[..k + 1]) == FindingsOf(ts[..k]) + [ts[k].finding]
    ensures DefsOf(ts[..k + 1]) == DefsOf(ts[..k]) + [ts[k].def]
  {
  }
}
