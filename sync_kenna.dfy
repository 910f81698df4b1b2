/**
 * The in-memory part of `sync_kenna`: pick the asset and vulnerability records
 * out of the loaded export documents, then build one Data Importer document
 * with one asset per asset record, each asset owning the vulnerabilities and
 * findings of its matching vulnerability records, and one definition per
 * distinct definition name, in first-seen order.
 */
module SyncKenna {
  import opened Wrappers
  import opened PyValues
  import opened Kenna
  import opened VulnSearch

  // ---------------------------------------------------------------------------
  // Choosing the records out of the loaded documents
  // ---------------------------------------------------------------------------

  datatype Kind = AssetRecords | VulnRecords

  /** The records a document carries, if it is of kind `k`. */
  function Payload(d: ExportDocument, k: Kind): (p: Option<seq<Record>>)
    ensures p.Some? <==> (k == AssetRecords && d.AssetsExport?) || (k == VulnRecords && d.VulnsExport?)
    ensures d.AssetsExport? && p.Some? ==> p.value == d.assets
    ensures d.VulnsExport? && p.Some? ==> p.value == d.vulnerabilities
  {
    match d
    case AssetsExport(_, assets) => if k == AssetRecords then Some(assets) else None
    case VulnsExport(_, vulns) => if k == VulnRecords then Some(vulns) else None
  }

  /** The records of the last document of kind `k`, or none: a later document replaces an earlier one. */
  function LastPayload(models: seq<ExportDocument>, k: Kind): seq<Record>
    decreases |models|
  {
    if models == [] then []
    else
      var p := Payload(models[|models| - 1], k);
      if p.Some? then p.value else LastPayload(models[..|models| - 1], k)
  }

  /** Each export object validated in turn; the first one that fails validation aborts. */
  function LoadAll(files: seq<ExportJson>): Result<seq<ExportDocument>, Error>
    decreases |files|
  {
    if files == [] then Ok([])
    else
      var done :- LoadAll(files[..|files| - 1]);
      var d :- NewExport(files[|files| - 1]);
      Ok(done + [d])
  }

  /** The asset records and the vulnerability records chosen from the export objects. */
  function Chosen(files: seq<ExportJson>): Result<(seq<Record>, seq<Record>), Error> {
    var models :- LoadAll(files);
    Ok((LastPayload(models, AssetRecords), LastPayload(models, VulnRecords)))
  }

  /** Loading succeeds exactly when every object validates, and yields one document per object, in order. */
  lemma {:induction false} LoadAllOk(files: seq<ExportJson>)
    ensures LoadAll(files).Ok? <==> forall i :: 0 <= i < |files| ==> NewExport(files[i]).Ok?
    ensures LoadAll(files).Ok? ==>
      |LoadAll(files).value| == |files| &&
      forall i :: 0 <= i < |files| ==> LoadAll(files).value[i] == NewExport(files[i]).value
    decreases |files|
  {
    if files != [] {
      var prefix := files[..|files| - 1];
      LoadAllOk(prefix);
      assert forall i :: 0 <= i < |prefix| ==> files[i] == prefix[i];
    }
  }

  lemma LoadAllStep(files: seq<ExportJson>, i: nat)
    requires i < |files| && LoadAll(files[..i]).Ok?
    ensures LoadAll(files[..i + 1]) ==
      (var d :- NewExport(files[i]); Ok(LoadAll(files[..i]).value + [d]))
  {
    assert files[..i + 1][..i] == files[..i];
  }

  lemma {:induction false} LoadAllAbort(files: seq<ExportJson>, i: nat)
    requires i < |files| && LoadAll(files[..i]).Ok? && NewExport(files[i]).Err?
    ensures LoadAll(files) == Err(NewExport(files[i]).error)
    decreases |files|
  {
    var prefix := files[..|files| - 1];
    if i == |files| - 1 {
      assert prefix == files[..i];
    } else {
      assert prefix[..i] == files[..i] && prefix[i] == files[i];
      LoadAllAbort(prefix, i);
    }
  }

  /** The loop over the loaded export objects that assigns `assets` and `vulns`. */
  method LoadExports(files: seq<ExportJson>) returns (r: Result<(seq<Record>, seq<Record>), Error>)
    ensures r == Chosen(files)
  {
    var assets: seq<Record>, vulns: seq<Record> := [], [];
    ghost var models: seq<ExportDocument> := [];
    for i := 0 to |files|
      invariant LoadAll(files[..i]) == Ok(models)
      invariant assets == LastPayload(models, AssetRecords)
      invariant vulns == LastPayload(models, VulnRecords)
    {
      var model := NewExport(files[i]);
      if model.Err? {
        LoadAllAbort(files, i);
        return Err(model.error);
      }
      LoadAllStep(files, i);
      assert (models + [model.value])[..|models|] == models;
      if model.value.AssetsExport? {
        assets := model.value.assets;
      }
      if model.value.VulnsExport? {
        vulns := model.value.vulnerabilities;
      }
      models := models + [model.value];
    }
    assert files[..|files|] == files;
    return Ok((assets, vulns));
  }

  /** The records chosen are those of the last document of that kind. */
  lemma {:induction false} LastPayloadIsLast(models: seq<ExportDocument>, k: Kind, i: nat)
    requires i < |models| && Payload(models[i], k).Some?
    requires forall j :: i < j < |models| ==> Payload(models[j], k).None?
    ensures LastPayload(models, k) == Payload(models[i], k).value
    decreases |models|
  {
    if i < |models| - 1 {
      var prefix := models[..|models| - 1];
      assert prefix[i] == models[i];
      LastPayloadIsLast(prefix, k, i);
    }
  }

  /** Without a document of that kind, there are no records of that kind. */
  lemma {:induction false} LastPayloadAbsent(models: seq<ExportDocument>, k: Kind)
    requires forall j :: 0 <= j < |models| ==> Payload(models[j], k).None?
    ensures LastPayload(models, k) == []
    decreases |models|
  {
    if models != [] {
      LastPayloadAbsent(models[..|models| - 1], k);
    }
  }

  // ---------------------------------------------------------------------------
  // De-duplicating definitions by name
  // ---------------------------------------------------------------------------

  function Names(ds: seq<VulnDef>): (ns: seq<string>)
    ensures |ns| == |ds| && forall k :: 0 <= k < |ds| ==> ns[k] == ds[k].name
  {
    seq(|ds|, k requires 0 <= k < |ds| => ds[k].name)
  }

  lemma NamesAppend(ds: seq<VulnDef>, d: VulnDef)
    ensures Names(ds + [d]) == Names(ds) + [d.name]
  {
  }

  /** The definitions kept when each is appended only if its name has not been seen yet. */
  function FirstByName(ds: seq<VulnDef>): seq<VulnDef>
    decreases |ds|
  {
    if ds == [] then []
    else
      var kept := FirstByName(ds[..|ds| - 1]);
      var d := ds[|ds| - 1];
      if d.name in Names(kept) then kept else kept + [d]
  }

  /** One more definition is kept exactly when its name has not been kept yet. */
  lemma FirstByNameSnoc(ds: seq<VulnDef>, d: VulnDef)
    ensures FirstByName(ds + [d]) ==
      if d.name in Names(FirstByName(ds)) then FirstByName(ds) else FirstByName(ds) + [d]
  {
    assert (ds + [d])[..|ds|] == ds;
  }

  /** The position of the first definition named `n`. */
  function FirstIndex(ds: seq<VulnDef>, n: string): (i: nat)
    requires n in Names(ds)
    ensures i < |ds| && ds[i].name == n && n !in Names(ds[..i])
    decreases |ds|
  {
    var prefix := ds[..|ds| - 1];
    if n in Names(prefix) then
      var i := FirstIndex(prefix, n);
      assert ds[..i] == prefix[..i];
      i
    else
      assert ds[..|ds| - 1] == prefix;
      |ds| - 1
  }

  ghost predicate UniqueNames(ds: seq<VulnDef>) {
    forall i, j :: 0 <= i < j < |ds| ==> ds[i].name != ds[j].name
  }

  /**
   * Each of `kept` is the first definition of `ds` with its name, and `kept`
   * lists them in the order their names first occur in `ds`.
   */
  ghost predicate FirstSeen(kept: seq<VulnDef>, ds: seq<VulnDef>) {
    && (forall k :: 0 <= k < |kept| ==> kept[k].name in Names(ds) && kept[k] == ds[FirstIndex(ds, kept[k].name)])
    && (forall k1, k2 :: 0 <= k1 < k2 < |kept| ==>
          kept[k1].name in Names(ds) && kept[k2].name in Names(ds) &&
          FirstIndex(ds, kept[k1].name) < FirstIndex(ds, kept[k2].name))
  }

  /** No name is kept twice. */
  lemma {:induction false} FirstByNameUnique(ds: seq<VulnDef>)
    ensures UniqueNames(FirstByName(ds))
    decreases |ds|
  {
    if ds != [] {
      var prev, d := FirstByName(ds[..|ds| - 1]), ds[|ds| - 1];
      FirstByNameUnique(ds[..|ds| - 1]);
      assert UniqueNames(prev);
      if d.name !in Names(prev) {
        var kept := prev + [d];
        forall i, j | 0 <= i < j < |kept| ensures kept[i].name != kept[j].name {
          if j == |prev| {
            assert kept[i].name == Names(prev)[i];
          } else {
            assert kept[i] == prev[i] && kept[j] == prev[j];
            assert prev[i].name != prev[j].name;
          }
        }
        assert FirstByName(ds) == kept;
      } else {
        assert FirstByName(ds) == prev;
      }
    }
  }

  /** Every name that occurs is kept, and no other. */
  lemma {:induction false} FirstByNameCovers(ds: seq<VulnDef>)
    ensures forall n :: n in Names(FirstByName(ds)) <==> n in Names(ds)
    decreases |ds|
  {
    if ds != [] {
      var prefix, d := ds[..|ds| - 1], ds[|ds| - 1];
      FirstByNameCovers(prefix);
      assert ds == prefix + [d];
      NamesAppend(prefix, d);
      NamesAppend(FirstByName(prefix), d);
    }
  }

  /**
   * Each kept definition is the first one seen with its name, and the kept
   * definitions are in the order their names were first seen.
   */
  lemma {:induction false} FirstByNameFirstSeen(ds: seq<VulnDef>)
    ensures FirstSeen(FirstByName(ds), ds)
    decreases |ds|
  {
    if ds != [] {
      var prefix, d := ds[..|ds| - 1], ds[|ds| - 1];
      var kept, prev := FirstByName(ds), FirstByName(prefix);
      FirstByNameFirstSeen(prefix);
      assert FirstSeen(prev, prefix);
      FirstByNameCovers(prefix);
      assert ds == prefix + [d];
      NamesAppend(prefix, d);
      forall n | n in Names(prefix) ensures FirstIndex(ds, n) == FirstIndex(prefix, n) < |prefix| { }
      forall k | 0 <= k < |prev|
        ensures prev[k].name in Names(prefix) && prev[k].name in Names(ds)
        ensures prev[k] == ds[FirstIndex(ds, prev[k].name)]
      {
        assert prev[k].name == Names(prev)[k];
        var i := FirstIndex(prefix, prev[k].name);
        assert prev[k] == prefix[i] && FirstIndex(ds, prev[k].name) == i;
        assert ds[i] == prefix[i];
      }
      if d.name !in Names(prev) {
        assert kept == prev + [d];
        assert FirstIndex(ds, d.name) == |ds| - 1;
        forall k | 0 <= k < |kept| ensures kept[k].name in Names(ds) && kept[k] == ds[FirstIndex(ds, kept[k].name)] {
          if k < |prev| {
            assert kept[k] == prev[k];
          }
        }
        forall k1, k2 | 0 <= k1 < k2 < |kept|
          ensures kept[k1].name in Names(ds) && kept[k2].name in Names(ds)
          ensures FirstIndex(ds, kept[k1].name) < FirstIndex(ds, kept[k2].name)
        {
          assert kept[k1] == prev[k1];
          if k2 < |prev| {
            assert kept[k2] == prev[k2];
          }
        }
      } else {
        assert kept == prev;
      }
    }
  }

  // ---------------------------------------------------------------------------
  // Building the import document
  // ---------------------------------------------------------------------------

  /** The keyword arguments `sync_kenna` passes to `KennaAsset` for one asset record. */
  function AssetArgs(item: Record): (kw: Kwargs)
    ensures "tags" in kw && kw["tags"] == Get(item, "tags")
    ensures "priority" in kw && kw["priority"] == Get(item, "priority")
    ensures Get(kw, "last_seen_at") == Get(item, "last_seen_time")
  {
    map[
      "file" := Get(item, "file"),
      "ip_address" := Get(item, "ip_address"),
      "hostname" := Get(item, "hostname"),
      "netbios" := Get(item, "netbios"),
      "url" := Get(item, "url"),
      "fqdn" := Get(item, "fqdn"),
      "external_id" := Get(item, "external_id"),
      "database" := Get(item, "database"),
      "tags" := Get(item, "tags"),
      "owner" := Get(item, "owner"),
      "os" := Get(item, "os"),
      "os_version" := Get(item, "os_version"),
      "priority" := Get(item, "priority"),
      "last_seen_at" := Get(item, "last_seen_time")]
  }

  /** One iteration of the loop over the asset records: the asset and the definitions its records yield. */
  function BuildAsset(item: Record, vulns: seq<Record>): Result<(Asset, seq<VulnDef>), Error> {
    if "id" !in item then Err(KeyError("id")) else
    var asset :- NewAsset(AssetArgs(item));
    var ts :- SearchVulns(item["id"], vulns);
    Ok((asset.(vulns := asset.vulns + VulnsOf(ts), findings := asset.findings + FindingsOf(ts)), DefsOf(ts)))
  }

  /** Each record built by `f` in order, with everything the records yield concatenated; the first error aborts. */
  function BuildAll<A, D>(items: seq<Record>, f: Record -> Result<(A, seq<D>), Error>): Result<(seq<A>, seq<D>), Error>
    decreases |items|
  {
    if items == [] then Ok(([], []))
    else
      var done :- BuildAll(items[..|items| - 1], f);
      var next :- f(items[|items| - 1]);
      Ok((done.0 + [next.0], done.1 + next.1))
  }

  /** The assets built from the asset records in order, and every definition yielded, in order. */
  function BuildAssets(items: seq<Record>, vulns: seq<Record>): Result<(seq<Asset>, seq<VulnDef>), Error> {
    BuildAll(items, item => BuildAsset(item, vulns))
  }

  /** The document `sync_kenna` hands to the upload, or the error that aborts the run. */
  function Aggregate(assets: seq<Record>, vulns: seq<Record>): Result<ImportDocument, Error> {
    var built :- BuildAssets(assets, vulns);
    Ok(NewImporter().(assets := built.0, vulnDefs := FirstByName(built.1)))
  }

  /** The outcomes of one iteration of the loop over the asset records. */
  lemma BuildAssetCases(item: Record, vulns: seq<Record>)
    ensures "id" !in item ==> BuildAsset(item, vulns) == Err(KeyError("id"))
    ensures "id" in item && NewAsset(AssetArgs(item)).Err? ==>
      BuildAsset(item, vulns) == Err(NewAsset(AssetArgs(item)).error)
    ensures "id" in item && NewAsset(AssetArgs(item)).Ok? && SearchVulns(item["id"], vulns).Err? ==>
      BuildAsset(item, vulns) == Err(SearchVulns(item["id"], vulns).error)
    ensures "id" in item && NewAsset(AssetArgs(item)).Ok? && SearchVulns(item["id"], vulns).Ok? ==>
      var a, ts := NewAsset(AssetArgs(item)).value, SearchVulns(item["id"], vulns).value;
      BuildAsset(item, vulns) == Ok((a.(vulns := a.vulns + VulnsOf(ts), findings := a.findings + FindingsOf(ts)), DefsOf(ts)))
  {
  }

  lemma BuildAllStep<A, D>(items: seq<Record>, f: Record -> Result<(A, seq<D>), Error>, i: nat, x: A, ys: seq<D>)
    requires i < |items| && BuildAll(items[..i], f).Ok? && f(items[i]) == Ok((x, ys))
    ensures BuildAll(items[..i + 1], f) == Ok((BuildAll(items[..i], f).value.0 + [x], BuildAll(items[..i], f).value.1 + ys))
  {
    assert items[..i + 1][..i] == items[..i];
  }

  lemma {:induction false} BuildAllAbort<A, D>(items: seq<Record>, f: Record -> Result<(A, seq<D>), Error>, i: nat, e: Error)
    requires i < |items| && BuildAll(items[..i], f).Ok? && f(items[i]) == Err(e)
    ensures BuildAll(items, f) == Err(e)
    decreases |items|
  {
    var prefix := items[..|items| - 1];
    if i == |items| - 1 {
      assert prefix == items[..i];
    } else {
      assert prefix[..i] == items[..i] && prefix[i] == items[i];
      BuildAllAbort(prefix, f, i, e);
    }
  }

  lemma {:induction false} BuildAllEach<A, D>(items: seq<Record>, f: Record -> Result<(A, seq<D>), Error>)
    requires BuildAll(items, f).Ok?
    ensures var xs := BuildAll(items, f).value.0;
      && |xs| == |items|
      && forall i :: 0 <= i < |items| ==> f(items[i]).Ok? && xs[i] == f(items[i]).value.0
    decreases |items|
  {
    if items != [] {
      var prefix := items[..|items| - 1];
      BuildAllEach(prefix, f);
      var done := BuildAll(prefix, f).value.0;
      var x := f(items[|items| - 1]).value.0;
      assert BuildAll(items, f).value.0 == done + [x];
      forall i | 0 <= i < |prefix| ensures items[i] == prefix[i] && (done + [x])[i] == done[i] { }
    }
  }

  lemma {:induction false} BuildAllRefs(items: seq<Record>, f: Record -> Result<(Asset, seq<VulnDef>), Error>)
    requires BuildAll(items, f).Ok?
    requires forall x :: f(x).Ok? ==> RefsOf(f(x).value.0.vulns) == Names(f(x).value.1)
    ensures Names(BuildAll(items, f).value.1) == AllRefs(BuildAll(items, f).value.0)
    decreases |items|
  {
    if items != [] {
      var prefix, item := items[..|items| - 1], items[|items| - 1];
      BuildAllRefs(prefix, f);
      var (done, ds) := BuildAll(prefix, f).value;
      var (a, defs) := f(item).value;
      assert BuildAll(items, f).value == (done + [a], ds + defs);
      NamesConcat(ds, defs);
      assert (done + [a])[..|done|] == done;
    }
  }

  /** A record built after the records before it extends the build by its asset and definitions. */
  lemma BuildAssetsStep(items: seq<Record>, vulns: seq<Record>, i: nat, asset: Asset, defs: seq<VulnDef>)
    requires i < |items| && BuildAssets(items[..i], vulns).Ok? && BuildAsset(items[i], vulns) == Ok((asset, defs))
    ensures BuildAssets(items[..i + 1], vulns) ==
      Ok((BuildAssets(items[..i], vulns).value.0 + [asset], BuildAssets(items[..i], vulns).value.1 + defs))
  {
    BuildAllStep(items, item => BuildAsset(item, vulns), i, asset, defs);
  }

  /** An error in record `i`, after the records before it were built, is the error of the whole build. */
  lemma BuildAssetsAbort(items: seq<Record>, vulns: seq<Record>, i: nat, e: Error)
    requires i < |items| && BuildAssets(items[..i], vulns).Ok? && BuildAsset(items[i], vulns) == Err(e)
    ensures BuildAssets(items, vulns) == Err(e)
  {
    BuildAllAbort(items, item => BuildAsset(item, vulns), i, e);
  }

  /**
   * The loop over the triples found for one asset: each vulnerability and
   * finding joins the asset's lists, and each definition joins the document
   * unless its name has been seen.
   */
  method AddTriples(vulns: seq<Vulnerability>, findings: seq<Finding>, vulnDefs: seq<VulnDef>, seen: seq<string>,
                    triples: seq<Triple>, ghost defs: seq<VulnDef>)
    returns (vulns': seq<Vulnerability>, findings': seq<Finding>, vulnDefs': seq<VulnDef>, seen': seq<string>)
    requires vulnDefs == FirstByName(defs) && seen == Names(vulnDefs)
    ensures vulns' == vulns + VulnsOf(triples) && findings' == findings + FindingsOf(triples)
    ensures vulnDefs' == FirstByName(defs + DefsOf(triples))
    ensures seen' == Names(vulnDefs')
  {
    vulns', findings', vulnDefs', seen' := vulns, findings, vulnDefs, seen;
    ghost var all := defs;
    assert defs + DefsOf(triples[..0]) == defs;
    for k := 0 to |triples|
      invariant vulns' == vulns + VulnsOf(triples[..k]) && findings' == findings + FindingsOf(triples[..k])
      invariant all == defs + DefsOf(triples[..k])
      invariant vulnDefs' == FirstByName(all)
      invariant seen' == Names(vulnDefs')
    {
      var t := triples[k];
      ColumnsOfPrefix(triples, k);
      FirstByNameSnoc(all, t.def);
      all := all + [t.def];
      vulns' := vulns' + [t.vuln];
      findings' := findings' + [t.finding];
      if t.def.name !in seen' {
        NamesAppend(vulnDefs', t.def);
        seen' := seen' + [t.def.name];
        vulnDefs' := vulnDefs' + [t.def];
      }
    }
    assert triples[..|triples|] == triples;
  }

  /** `sync_kenna` up to the upload: the loops that build the import document. */
  method SyncKenna(files: seq<ExportJson>) returns (r: Result<ImportDocument, Error>)
    ensures r == (var chosen :- Chosen(files); Aggregate(chosen.0, chosen.1))
  {
    var kennaData := NewImporter();
    var loaded := LoadExports(files);
    if loaded.Err? {
      return Err(loaded.error);
    }
    var (assets, vulns) := loaded.value;
    var seenVulnDef: seq<string> := [];
    ghost var defs: seq<VulnDef> := [];
    var i := 0;
    while i < |assets|
      invariant 0 <= i <= |assets|
      invariant BuildAssets(assets[..i], vulns) == Ok((kennaData.assets, defs))
      invariant kennaData == NewImporter().(assets := kennaData.assets, vulnDefs := FirstByName(defs))
      invariant seenVulnDef == Names(kennaData.vulnDefs)
    {
      var item := assets[i];
      BuildAssetCases(item, vulns);
      if "id" !in item {
        BuildAssetsAbort(assets, vulns, i, KeyError("id"));
        return Err(KeyError("id"));
      }
      var assetId := item["id"];
      var made := NewAsset(AssetArgs(item));
      if made.Err? {
        BuildAssetsAbort(assets, vulns, i, made.error);
        return Err(made.error);
      }
      var found := SearchVulns(assetId, vulns);
      if found.Err? {
        BuildAssetsAbort(assets, vulns, i, found.error);
        return Err(found.error);
      }
      var kennaAsset := made.value;
      var assetVulns, assetFindings, vulnDefs;
      assetVulns, assetFindings, vulnDefs, seenVulnDef :=
        AddTriples(kennaAsset.vulns, kennaAsset.findings, kennaData.vulnDefs, seenVulnDef, found.value, defs);
      kennaAsset := kennaAsset.(vulns := assetVulns, findings := assetFindings);
      kennaData := kennaData.(vulnDefs := vulnDefs);
      defs := defs + DefsOf(found.value);
      BuildAssetsStep(assets, vulns, i, kennaAsset, DefsOf(found.value));
      kennaData := kennaData.(assets := kennaData.assets + [kennaAsset]);
      i := i + 1;
    }
    assert assets[..|assets|] == assets;
    return Ok(kennaData);
  }

  // ---------------------------------------------------------------------------
  // What the import document holds
  // ---------------------------------------------------------------------------

  /** `a` is the asset built from `item`: its fields from the record, its vulnerabilities and findings from the search. */
  ghost predicate BuiltFrom(a: Asset, item: Record, vulns: seq<Record>) {
    && "id" in item
    && NewAsset(AssetArgs(item)).Ok?
    && SearchVulns(item["id"], vulns).Ok?
    && var base, ts := NewAsset(AssetArgs(item)).value, SearchVulns(item["id"], vulns).value;
       a == base.(vulns := base.vulns + VulnsOf(ts), findings := base.findings + FindingsOf(ts))
  }

  /** The definition names the vulnerabilities of `vs` refer to, in order. */
  function RefsOf(vs: seq<Vulnerability>): (ns: seq<string>)
    ensures |ns| == |vs| && forall k :: 0 <= k < |vs| ==> ns[k] == vs[k].vulnDefName
  {
    seq(|vs|, k requires 0 <= k < |vs| => vs[k].vulnDefName)
  }

  /** The definition names referred to by the vulnerabilities of all of `assets`, asset by asset. */
  function AllRefs(assets: seq<Asset>): seq<string>
    decreases |assets|
  {
    if assets == [] then [] else AllRefs(assets[..|assets| - 1]) + RefsOf(assets[|assets| - 1].vulns)
  }

  lemma NamesConcat(ds1: seq<VulnDef>, ds2: seq<VulnDef>)
    ensures Names(ds1 + ds2) == Names(ds1) + Names(ds2)
  {
  }

  /** A successful iteration builds the asset from its record, and yields the definitions the search found. */
  lemma BuildAssetBuilt(item: Record, vulns: seq<Record>)
    requires BuildAsset(item, vulns).Ok?
    ensures BuiltFrom(BuildAsset(item, vulns).value.0, item, vulns)
    ensures BuildAsset(item, vulns).value.1 == DefsOf(SearchVulns(item["id"], vulns).value)
  {
    BuildAssetCases(item, vulns);
  }

  /** A built asset pairs its k-th vulnerability with its k-th finding, and both name the k-th definition found. */
  lemma BuiltFromLinked(a: Asset, item: Record, vulns: seq<Record>)
    requires BuiltFrom(a, item, vulns)
    ensures var defs := DefsOf(SearchVulns(item["id"], vulns).value);
      && |a.vulns| == |a.findings| == |defs|
      && RefsOf(a.vulns) == Names(defs)
      && forall k :: 0 <= k < |defs| ==> a.findings[k].vulnDefName == defs[k].name
  {
    SearchVulnsLinked(item["id"], vulns);
    var base := NewAsset(AssetArgs(item)).value;
    assert base.vulns == [] && base.findings == [];
  }

  /** A successful build has one asset per record, each the one its record's iteration builds. */
  lemma BuildAssetsEach(items: seq<Record>, vulns: seq<Record>)
    requires BuildAssets(items, vulns).Ok?
    ensures var assets := BuildAssets(items, vulns).value.0;
      && |assets| == |items|
      && forall i :: 0 <= i < |items| ==> BuildAsset(items[i], vulns).Ok? && assets[i] == BuildAsset(items[i], vulns).value.0
  {
    BuildAllEach(items, item => BuildAsset(item, vulns));
  }

  /** The definitions a successful build yields are exactly the ones its assets' vulnerabilities name, in order. */
  lemma BuildAssetsRefs(items: seq<Record>, vulns: seq<Record>)
    requires BuildAssets(items, vulns).Ok?
    ensures Names(BuildAssets(items, vulns).value.1) == AllRefs(BuildAssets(items, vulns).value.0)
  {
    var f := item => BuildAsset(item, vulns);
    forall x | f(x).Ok? ensures RefsOf(f(x).value.0.vulns) == Names(f(x).value.1) {
      BuildAssetBuilt(x, vulns);
      BuiltFromLinked(f(x).value.0, x, vulns);
    }
    BuildAllRefs(items, f);
  }

  /** A successful build has one asset per record, each built from its record. */
  lemma BuildAssetsShape(items: seq<Record>, vulns: seq<Record>)
    requires BuildAssets(items, vulns).Ok?
    ensures var assets := BuildAssets(items, vulns).value.0;
      && |assets| == |items|
      && forall i :: 0 <= i < |items| ==> BuiltFrom(assets[i], items[i], vulns)
  {
    BuildAssetsEach(items, vulns);
    forall i | 0 <= i < |items| ensures BuiltFrom(BuildAssets(items, vulns).value.0[i], items[i], vulns) {
      BuildAssetBuilt(items[i], vulns);
    }
  }

  /** Every record built into the document, with the search that fed it. */
  lemma AggregateAssets(assetRecs: seq<Record>, vulnRecs: seq<Record>)
    requires Aggregate(assetRecs, vulnRecs).Ok?
    ensures var doc := Aggregate(assetRecs, vulnRecs).value;
      && doc.version == 2 && !doc.skipAutoclose && doc.resetTags == Some(false)
      && |doc.assets| == |assetRecs|
      && forall i :: 0 <= i < |assetRecs| ==> BuiltFrom(doc.assets[i], assetRecs[i], vulnRecs)
  {
    BuildAssetsShape(assetRecs, vulnRecs);
  }

  /**
   * One asset of the document: its fields are those of its record, and its
   * vulnerabilities and findings are the transforms of its matching
   * vulnerability records, one each, in export order.
   */
  lemma BuiltFromSearch(a: Asset, item: Record, vulns: seq<Record>)
    requires BuiltFrom(a, item, vulns)
    ensures var m := Matching(item["id"], vulns);
      && |a.vulns| == |a.findings| == |m|
      && forall k :: 0 <= k < |m| ==>
           Transform(m[k]).Ok? && Transform(m[k]).value.vuln == a.vulns[k] && Transform(m[k]).value.finding == a.findings[k]
  {
    var m, ts := Matching(item["id"], vulns), SearchVulns(item["id"], vulns).value;
    SearchVulnsYields(item["id"], vulns);
    var base := NewAsset(AssetArgs(item)).value;
    assert a.vulns == VulnsOf(ts) && a.findings == FindingsOf(ts);
    forall k | 0 <= k < |m|
      ensures Transform(m[k]).Ok? && Transform(m[k]).value.vuln == a.vulns[k] && Transform(m[k]).value.finding == a.findings[k]
    {
      assert Transform(m[k]) == Ok(ts[k]);
    }
  }

  /** The fields of a built asset are those `KennaAsset` gives the keyword arguments taken from its record. */
  lemma BuiltFromFields(a: Asset, item: Record, vulns: seq<Record>)
    requires BuiltFrom(a, item, vulns)
    ensures AssetFrom(AssetArgs(item), a)
  {
  }

  /**
   * The definitions of the document: no name twice, each the first one
   * yielded with its name, in first-yielded order, and exactly the names the
   * vulnerabilities of the document refer to.
   */
  lemma AggregateVulnDefs(assetRecs: seq<Record>, vulnRecs: seq<Record>)
    requires Aggregate(assetRecs, vulnRecs).Ok?
    ensures var doc := Aggregate(assetRecs, vulnRecs).value;
      && UniqueNames(doc.vulnDefs)
      && FirstSeen(doc.vulnDefs, BuildAssets(assetRecs, vulnRecs).value.1)
      && forall n :: n in Names(doc.vulnDefs) <==> n in AllRefs(doc.assets)
  {
    var defs := BuildAssets(assetRecs, vulnRecs).value.1;
    BuildAssetsRefs(assetRecs, vulnRecs);
    FirstByNameUnique(defs);
    FirstByNameFirstSeen(defs);
    FirstByNameCovers(defs);
  }

  /** Whenever one asset record cannot be built, the whole run fails and nothing is produced. */
  lemma AggregateAborts(assetRecs: seq<Record>, vulnRecs: seq<Record>, i: nat)
    requires i < |assetRecs| && BuildAsset(assetRecs[i], vulnRecs).Err?
    ensures Aggregate(assetRecs, vulnRecs).Err?
  {
    if Aggregate(assetRecs, vulnRecs).Ok? {
      BuildAssetsEach(assetRecs, vulnRecs);
    }
  }

  /** An asset record without `id`, or without `tags`, aborts the run. */
  lemma AssetRecordRequiresIdAndTags(item: Record, vulns: seq<Record>)
    requires "id" !in item || "tags" !in item
    ensures BuildAsset(item, vulns).Err?
  {
    BuildAssetCases(item, vulns);
    if "id" in item {
      AssetTagsNoneRejected(AssetArgs(item));
    }
  }

  /** With at least one asset record, a vulnerability record without `asset_id` aborts the run. */
  lemma UnkeyedVulnRecordAborts(assetRecs: seq<Record>, vulnRecs: seq<Record>)
    requires |assetRecs| > 0 && !AllKeyed(vulnRecs)
    ensures Aggregate(assetRecs, vulnRecs).Err?
  {
    var item := assetRecs[0];
    BuildAssetCases(item, vulnRecs);
    if "id" in item {
      SearchVulnsOk(item["id"], vulnRecs);
    }
    AggregateAborts(assetRecs, vulnRecs, 0);
  }

  /** A matching vulnerability record that does not transform (say, a non-CVE `cve_id`) aborts the run. */
  lemma UntransformableVulnRecordAborts(assetRecs: seq<Record>, vulnRecs: seq<Record>, i: nat, k: nat)
    requires i < |assetRecs| && "id" in assetRecs[i]
    requires k < |Matching(assetRecs[i]["id"], vulnRecs)| && Transform(Matching(assetRecs[i]["id"], vulnRecs)[k]).Err?
    ensures Aggregate(assetRecs, vulnRecs).Err?
  {
    var item := assetRecs[i];
    BuildAssetCases(item, vulnRecs);
    SearchVulnsOk(item["id"], vulnRecs);
    AggregateAborts(assetRecs, vulnRecs, i);
  }

  /** The priority of an asset whose record has none is None: the default of 10 never applies here. */
  lemma MissingPriorityNotDefaulted(item: Record, vulns: seq<Record>)
    requires "priority" !in item && BuildAsset(item, vulns).Ok?
    ensures BuildAsset(item, vulns).value.0.priority == None
  {
    BuildAssetCases(item, vulns);
    AssetDefaults(AssetArgs(item));
  }

  /** Example: an asset record with an id and a hostname but no `tags` key aborts the run, whatever the vulnerability records. */
  lemma HostOnlyAssetAborts(vulnRecs: seq<Record>)
    ensures Aggregate([map["id" := VStr("A1"), "hostname" := VStr("h1")]], vulnRecs).Err?
  {
    var item: Record := map["id" := VStr("A1"), "hostname" := VStr("h1")];
    AssetRecordRequiresIdAndTags(item, vulnRecs);
    AggregateAborts([item], vulnRecs, 0);
  }
}
