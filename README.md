# kenna_sync: a Dafny model of the reshaping core

`kenna_sync` copies the assets and vulnerabilities of one Kenna (Cisco
Vulnerability Management) instance into another. It downloads two exports from
the source instance: one of asset records and one of vulnerability records.
It reshapes them into a single Kenna Data Importer (KDI) document and uploads
that document to the destination instance.

This project models the reshaping layer and proves properties of it:

- **The KDI schema** (`kenna.py`, module `Kenna`). It covers the definition,
  vulnerability, finding and asset records, the importer document, and the
  two-shape export document. Each record type has a constructor function
  `NewX(kw)`. It validates keyword arguments the way the schema library does
  and returns a `Result`. A key missing from `kw` means the argument was not
  supplied. `VNull` means an explicit `None`.
- **`search_vulns`** (`run_sync.py:30-66`, module `VulnSearch`). It keeps the
  vulnerability records whose `asset_id` equals the asset's id. Each record it
  keeps becomes a (vulnerability, definition, finding) triple.
- **The aggregation of `sync_kenna`** (`run_sync.py:69-105`, module
  `SyncKenna`). The loop over the loaded exports keeps the last asset export
  and the last vulnerability export. The loops over the asset records build the
  document. `SyncKenna.SyncKenna` is a method with these loops. It is proved
  equal to the functional specification `Aggregate` applied to the records
  that `Chosen` picks. The properties of the document are proved about
  `Aggregate`.

Supporting modules:

- `PyValues` models the dynamic values of a decoded JSON record (`None`,
  bool, int, str, list), the record as a `map<string, Value>`, and the Python
  operations the core uses on them:
  - `dict.get` and `or`;
  - `==` (including `True == 1`);
  - `in` on strings and lists;
  - indexing `[0]`;
  - `str()` in an f-string.
- `KennaPatterns` holds hand-written recognisers for the two identifier
  patterns `^CVE-\d+-\d+` and `^CWE-\d+`.

The model is written in terms of values. `sync_kenna` builds `kenna_asset` and
only then appends it, so no object is shared when it is updated. The appends
to `kenna_asset.vulns`, `kenna_asset.findings`, `seen_vuln_def`,
`kenna_data.vuln_defs` and `kenna_data.assets` become reassignments of local
values inside the loops.

Some field declarations and the code that fills them point different ways.
The model follows what the code does:

- **`tags` and `priority` of an asset.** The asset record declares `tags` with
  an empty-list default (kenna.py:83) and `priority` with the default 10
  (kenna.py:87). But `sync_kenna` always passes `tags=item.get('tags')` and
  `priority=item.get('priority')` (run_sync.py:81-95). So a record without
  `tags` passes an explicit `None`, which the `List[str]` field rejects, and
  the run aborts. A record without `priority` gets `None`, not 10: the default
  applies only when the argument is not supplied at all. See
  `SyncKenna.AssetRecordRequiresIdAndTags`, `SyncKenna.HostOnlyAssetAborts` and
  `SyncKenna.MissingPriorityNotDefaulted`.
- **A missing `cve_id`.** `item['cve_id']` raises `KeyError` and aborts the
  run. It does not produce a definition with a null name.
- **A `cve_id` that is not CVE-prefixed.** It fails the definition's pattern
  and aborts the run (`SyncKenna.UntransformableVulnRecordAborts`).
- **`severity`.** The field's description text gives the range `[0..10]`, but
  the field declares no lower or upper bound (kenna.py:56-58), so any integer
  is accepted (`Kenna.FindingSeverityUnbounded`).
- **`meta`.** The export `meta` is a dictionary keyed only by `total_count`,
  but that key may be absent.

## Model

| member | source | states |
|---|---|---|
| PyValues.PyEq | run_sync.py:32 | no contract of its own; behaviour stated by PyEqOnScalars and MatchingSingle |
| PyValues.PyEqOnScalars | run_sync.py:32 | on two strings or two ints, Python `==` is equality of the values |
| PyValues.Contains | run_sync.py:42 | no contract of its own; behaviour stated by ContainsIffOccurs, ContainsInContext and StrIn |
| PyValues.ContainsIffOccurs | run_sync.py:42 | the substring test holds exactly when the needle occurs at some position of the string |
| PyValues.ContainsInContext | run_sync.py:42 | a string containing the needle anywhere, with any text around it, passes the substring test |
| PyValues.StrIn | run_sync.py:42 | on a str, `needle in v` holds exactly when the needle occurs at some position; on a list, exactly when some element `==` the needle; any other value is a TypeError |
| PyValues.NatToDecimal | run_sync.py:33 | `str(n)` of a natural number is a decimal numeral without leading zeros whose digits, read most significant first, spell `n` |
| PyValues.IntToDecimal | run_sync.py:33 | `str(i)` starts with `-` exactly when `i` is negative; what follows the sign is a numeral without leading zeros spelling `|i|` |
| PyValues.NatToDecimalCanonical | run_sync.py:33 | every numeral without leading zeros is the rendering of the number it spells: the rendering is the one canonical numeral |
| PyValues.NatToDecimalInjective | run_sync.py:33 | distinct naturals render differently |
| PyValues.IntToDecimalInjective | run_sync.py:33 | distinct integers render differently, sign included |
| PyValues.Render | run_sync.py:33 | no contract of its own; behaviour stated by IntToDecimal, TransformIdentity, ScannerIdentifiersDistinct and MixedIdsCollide |
| KennaPatterns.DigitRun | kenna.py:14 | the leading digit run is all digits and is followed by a non-digit or the end |
| KennaPatterns.IsCvePrefixed | kenna.py:11-14 | no contract of its own; behaviour stated by CveRecogniserCorrect, CvePrefixExtends, CveAcceptsIdentifier and CveRejectsIncomplete |
| KennaPatterns.IsCwePrefixed | kenna.py:16-18 | no contract of its own; behaviour stated by CweRecogniserCorrect and CwePrefixExtends |
| KennaPatterns.CveRecogniserCorrect | kenna.py:11-14 | the recogniser accepts exactly the strings that begin with `CVE-`, digits, `-`, digits |
| KennaPatterns.CweRecogniserCorrect | kenna.py:16-18 | the recogniser accepts exactly the strings that begin with `CWE-` and digits |
| KennaPatterns.CvePrefixExtends | kenna.py:14 | the CVE pattern is anchored only at the start: appending any text keeps a string accepted |
| KennaPatterns.CwePrefixExtends | kenna.py:18 | the CWE pattern is anchored only at the start: appending any text keeps a string accepted |
| KennaPatterns.CveAcceptsIdentifier | kenna.py:14 | `CVE-2021-1234` is accepted |
| KennaPatterns.CveRejectsIncomplete | kenna.py:14 | `CVE-2021`, `CVE-2021-` and lower-case `cve-2021-1234` are rejected |
| Kenna.ReqStr | kenna.py:10 | a required str field is accepted exactly when it is supplied as a string, which it then holds |
| Kenna.OptStr | kenna.py:15 | an optional str field accepts a string, None or no argument, and holds the string or None |
| Kenna.IntIn | kenna.py:31 | a required bounded int field is accepted exactly when it is an int within the bounds |
| Kenna.OptInt | kenna.py:87 | an optional int field holds the int, None for an explicit None, or its default when not supplied |
| Kenna.StrList | kenna.py:83 | a list-of-str field holds the strings of the list, or the empty list when not supplied; None is rejected |
| Kenna.DumpVulnDef | kenna.py:6-21 | a definition written back as arguments names exactly its seven fields |
| Kenna.NewVulnDef | kenna.py:6-21 | accepted exactly when the types, the required fields and both identifier patterns hold; every field holds its argument; errors name `KennaVulnDef` |
| Kenna.VulnDefRoundTrip | kenna.py:6-21 | every valid definition is rebuilt unchanged from its arguments |
| Kenna.ReqStatus | kenna.py:38 | status is accepted exactly when it is `"open"` or `"closed"` |
| Kenna.DumpVulnerability | kenna.py:24-41 | a vulnerability written back as arguments names exactly its eleven fields |
| Kenna.NewVulnerability | kenna.py:24-41 | accepted exactly when `scanner_identifier`, `scanner_type`, `last_seen_at` and `vuln_def_name` are strings, `scanner_score` is an int in [0,10], `override_score` is absent, None or an int in [0,100], status is open/closed, and each optional field is absent, None or of its type; every field holds its argument |
| Kenna.VulnerabilityRoundTrip | kenna.py:24-41 | every valid vulnerability is rebuilt unchanged from its arguments |
| Kenna.DumpFinding | kenna.py:44-61 | a finding written back as arguments names exactly its fields except `additional_fields` |
| Kenna.NewFinding | kenna.py:44-61 | accepted exactly when `scanner_identifier`, `scanner_type`, `last_seen_at` and `vuln_def_name` are strings and each optional field is absent, None or of its type; every field holds its argument, and the free-form fields are the ones given |
| Kenna.FindingRoundTrip | kenna.py:44-61 | every finding is rebuilt unchanged from its arguments |
| Kenna.FindingSeverityUnbounded | kenna.py:56-58 | a severity of 42 is accepted and kept: there is no range check |
| Kenna.OptAssetType | kenna.py:88 | the asset type is accepted exactly when it is absent, None, `"container"` or `"image"` |
| Kenna.NewAsset | kenna.py:64-92 | accepted exactly when every field has its type; every field holds its argument or default; a new asset has no vulns and no findings |
| Kenna.AssetDefaults | kenna.py:83-92 | priority is 10 only when not supplied and None for an explicit None; tags are empty when not supplied |
| Kenna.AssetTagsNoneRejected | kenna.py:83 | an explicit None for tags is rejected |
| Kenna.NewImporter | kenna.py:95-108 | a new document has version 2, `skip_autoclose` false, `reset_tags` false, and no assets or definitions |
| Kenna.NewExport | kenna.py:111-122 | an export validates exactly when `meta` holds only integer `total_count` entries and an `assets` or `vulnerabilities` list is present; it keeps that list |
| Kenna.DumpExport | kenna.py:111-122 | an export written back keeps its meta keys and its shape |
| Kenna.ExportRoundTrip | kenna.py:111-122 | every valid export document is recovered from the object it dumps to |
| VulnSearch.StatusArg | run_sync.py:42 | a missing status is a KeyError; a status that is neither a str nor a list is a TypeError; a str status gives `"open"` exactly when `open` occurs in it; an accepted status is `"open"` or `"closed"` |
| VulnSearch.PortArg | run_sync.py:44 | no contract of its own; behaviour stated by TransformPort |
| VulnSearch.Transform | run_sync.py:33-65 | no contract of its own; behaviour stated by TransformOk, TransformParts, TransformIdentity, TransformStatus, TransformPort, TransformDescription, TransformCopies and TransformMissingKeys |
| VulnSearch.TransformOk | run_sync.py:33-65 | a record transforms exactly when it has `id` and `cve_id`, status and port can be read, and the three constructors accept their arguments |
| VulnSearch.TransformParts | run_sync.py:33-65 | a successful transform is made of the three constructors applied to the arguments built from the record |
| VulnSearch.TransformIdentity | run_sync.py:33-64 | the vulnerability and the finding share the id `SourceID_` + str(id); the definition's name and CVE identifiers, and both `vuln_def_name`s, are the record's `cve_id`, which is CVE-prefixed |
| VulnSearch.TransformStatus | run_sync.py:42 | status is open exactly when `"open"` occurs in the status string, or is an element of the status list |
| VulnSearch.ReopenedIsOpen | run_sync.py:42 | `"reopened"` contains `"open"` |
| VulnSearch.TransformPort | run_sync.py:44 | the port is the first element of a non-empty port list, and None when the port is missing or empty |
| VulnSearch.TransformDescription | run_sync.py:51 | the description is the record's description when truthy, and otherwise its `cve_description` |
| VulnSearch.TransformCopies | run_sync.py:38-60 | scores, timestamps, details, due date, severity and solution are copied from the record |
| VulnSearch.TransformMissingKeys | run_sync.py:33-42 | a missing `id`, `cve_id` or `status` raises KeyError, in that order |
| VulnSearch.ScannerIdentifiersDistinct | run_sync.py:33 | records with distinct integer ids get distinct scanner identifiers |
| VulnSearch.MixedIdsCollide | run_sync.py:33 | an int id 5 and a str id `"5"` give the same scanner identifier `SourceID_5` |
| VulnSearch.Matching | run_sync.py:31-32 | no contract of its own; behaviour stated by MatchingAppend, MatchingSingle and MatchingMembers |
| VulnSearch.MatchingAppend | run_sync.py:31-32 | the filter keeps source order: it distributes over concatenation |
| VulnSearch.MatchingSingle | run_sync.py:32 | a single record is kept exactly when its `asset_id` equals the asset id |
| VulnSearch.MatchingMembers | run_sync.py:31-32 | the kept records are exactly the source records whose `asset_id` equals the asset id |
| VulnSearch.AllKeyedCons | run_sync.py:31-32 | every record has `asset_id` exactly when the first does and the rest all do |
| VulnSearch.AllTransformCons | run_sync.py:33-66 | every record transforms exactly when the first does and the rest all do |
| VulnSearch.Scan | run_sync.py:30-66 | no contract of its own; behaviour stated by ScanOk and ScanYields |
| VulnSearch.SearchVulns | run_sync.py:30-66 | no contract of its own; behaviour stated by SearchVulnsOk, SearchVulnsYields, SearchVulnsLinked and SearchVulnsSkips |
| VulnSearch.ScanOk | run_sync.py:30-66 | the scan succeeds exactly when every record has `asset_id` and every matching record transforms |
| VulnSearch.ScanYields | run_sync.py:30-66 | a successful scan yields one result per matching record, in source order |
| VulnSearch.SearchVulnsOk | run_sync.py:30-66 | `search_vulns` raises exactly when a record lacks `asset_id` or a matching record does not transform |
| VulnSearch.SearchVulnsYields | run_sync.py:30-66 | `search_vulns` yields the transform of each matching record, in source order, and nothing else |
| VulnSearch.SearchVulnsLinked | run_sync.py:45-64 | in every triple yielded, the vulnerability and the finding name the definition beside them and share a scanner identifier |
| VulnSearch.SearchVulnsSkips | run_sync.py:32 | a record with a different `asset_id` yields nothing |
| VulnSearch.ColumnsOfPrefix | run_sync.py:99-104 | one more triple adds its vulnerability, finding and definition at the end of each list |
| SyncKenna.LoadAll | run_sync.py:71-74 | no contract of its own; behaviour stated by LoadAllOk, LoadAllStep and LoadAllAbort |
| SyncKenna.LastPayload | run_sync.py:71-78 | no contract of its own; behaviour stated by LastPayloadIsLast and LastPayloadAbsent |
| SyncKenna.Chosen | run_sync.py:71-78 | no contract of its own; behaviour stated by LoadExports, LastPayloadIsLast and LastPayloadAbsent |
| SyncKenna.LoadAllOk | run_sync.py:17-27 | loading succeeds exactly when every export object validates, and yields one document per object, in order |
| SyncKenna.LoadAllStep | run_sync.py:74 | loading one more object adds its document, or fails with its error |
| SyncKenna.LoadAllAbort | run_sync.py:74 | the first object that fails validation aborts loading with its error |
| SyncKenna.LoadExports | run_sync.py:71-78 | the loop over the loaded exports yields the records `Chosen` picks, or the first validation error |
| SyncKenna.LastPayloadIsLast | run_sync.py:71-78 | the records kept are those of the last document of their kind: a later export replaces an earlier one |
| SyncKenna.LastPayloadAbsent | run_sync.py:71-72 | with no document of a kind, there are no records of that kind |
| SyncKenna.NamesAppend | run_sync.py:103 | appending a definition appends its name |
| SyncKenna.FirstByName | run_sync.py:102-104 | no contract of its own; behaviour stated by FirstByNameSnoc, FirstByNameUnique, FirstByNameCovers and FirstByNameFirstSeen |
| SyncKenna.FirstByNameSnoc | run_sync.py:102-104 | one more definition is kept exactly when its name is not among the names kept so far |
| SyncKenna.FirstIndex | run_sync.py:102-104 | the position of the first definition with a given name |
| SyncKenna.FirstByNameUnique | run_sync.py:102-104 | the kept definitions have pairwise distinct names |
| SyncKenna.FirstByNameCovers | run_sync.py:102-104 | every name yielded is kept, and no other |
| SyncKenna.FirstByNameFirstSeen | run_sync.py:102-104 | each kept definition is the first one yielded with its name, and they are in first-yielded order |
| SyncKenna.BuildAsset | run_sync.py:80-105 | no contract of its own; behaviour stated by BuildAssetCases, BuildAssetBuilt, BuiltFromSearch, BuiltFromFields and BuiltFromLinked |
| SyncKenna.BuildAssets | run_sync.py:80-105 | no contract of its own; behaviour stated by BuildAssetsStep, BuildAssetsAbort, BuildAssetsEach, BuildAssetsRefs and BuildAssetsShape |
| SyncKenna.Aggregate | run_sync.py:69-105 | no contract of its own; behaviour stated by SyncKenna, AggregateAssets, AggregateVulnDefs and AggregateAborts |
| SyncKenna.BuildAssetCases | run_sync.py:80-105 | one iteration fails with a missing `id`, with the asset's validation error, or with the search's error; otherwise it gives the asset with the search's vulns and findings, and the definitions found |
| SyncKenna.BuildAllStep | run_sync.py:80-105 | building one more record adds its result at the end |
| SyncKenna.BuildAllAbort | run_sync.py:80-105 | the first record that fails aborts the build with its error |
| SyncKenna.BuildAllEach | run_sync.py:80-105 | a successful build has one result per record, each the one its record gives |
| SyncKenna.BuildAllRefs | run_sync.py:99-105 | when each record yields the definitions its vulnerabilities name, so does the whole build |
| SyncKenna.BuildAssetsStep | run_sync.py:105 | an iteration that succeeds adds its asset and its definitions to the build |
| SyncKenna.BuildAssetsAbort | run_sync.py:80-105 | the first asset record that fails aborts the run with its error |
| SyncKenna.AddTriples | run_sync.py:99-104 | the inner loop appends every vulnerability and finding to the asset's lists, and extends the definitions to the first-seen selection of all definitions so far, with `seen_vuln_def` their names |
| SyncKenna.SyncKenna | run_sync.py:69-105 | the loops produce exactly `Aggregate` of the chosen asset and vulnerability records, or the first error |
| SyncKenna.NamesConcat | run_sync.py:104 | the names of two concatenated lists are the concatenated names |
| SyncKenna.BuildAssetBuilt | run_sync.py:81-105 | a successful iteration builds the asset from its record and search, and yields the definitions the search found |
| SyncKenna.BuiltFromLinked | run_sync.py:99-104 | a built asset has as many findings as vulnerabilities, and the k-th of each names the k-th definition found |
| SyncKenna.BuildAssetsEach | run_sync.py:80-105 | a successful run has one asset per asset record, each the asset its record builds |
| SyncKenna.BuildAssetsRefs | run_sync.py:99-104 | the definitions yielded are exactly the ones the assets' vulnerabilities name, in order |
| SyncKenna.BuildAssetsShape | run_sync.py:80-105 | a successful run has one asset per asset record, in order, each built from its record |
| SyncKenna.AggregateAssets | run_sync.py:70-105 | the document has version 2, both flags off, and one asset per asset record, in order, each built from its record |
| SyncKenna.BuiltFromSearch | run_sync.py:99-101 | an asset's vulns and findings have equal length, equal to the number of matching records, and are their transforms in export order |
| SyncKenna.BuiltFromFields | run_sync.py:82-97 | an asset's fields are those `KennaAsset` gives the arguments read from its record |
| SyncKenna.AggregateVulnDefs | run_sync.py:99-104 | the document's definitions have distinct names, are the first-yielded with each name in first-yielded order, and are named exactly by the vulnerabilities of the document |
| SyncKenna.AggregateAborts | run_sync.py:80-105 | any asset record that cannot be built aborts the run: there is no partial document |
| SyncKenna.AssetRecordRequiresIdAndTags | run_sync.py:81-91 | an asset record without `id`, or without `tags`, cannot be built |
| SyncKenna.UnkeyedVulnRecordAborts | run_sync.py:32 | with at least one asset record, a vulnerability record without `asset_id` aborts the run |
| SyncKenna.UntransformableVulnRecordAborts | run_sync.py:35-65 | a matching vulnerability record that does not transform aborts the run |
| SyncKenna.MissingPriorityNotDefaulted | run_sync.py:95 | an asset whose record has no priority gets None, not 10 |
| SyncKenna.HostOnlyAssetAborts | run_sync.py:80-98 | an asset record holding only an id and a hostname aborts the run |

## Left out

- `request_download.py` is not part of this model. It holds HTTP requests, the export status poll with `time.sleep`, and the file download.
- `upload_kdi_to_kenna` (run_sync.py:115-123) is left out. It is a multipart HTTP post, and the JSON serialisation with `exclude_none` belongs to the schema library.
- `load_file` and `search_files` (run_sync.py:17-27): gzip decompression, globbing the directory and JSON parsing are left out. The model starts from the parsed top-level objects (`Kenna.ExportJson`), in the order the glob yields them. It keeps their validation into an export document.
- The environment variables read at import time (run_sync.py:12-14) and all `print` calls are left out. Neither affects the document.
- Values are limited to None, bool, int, str and lists of these. Floats and nested objects in export records are not modelled. Neither is the validation of a nested `additional_fields` dictionary, which `search_vulns` never passes.
- Kenna.NewVulnDef, Kenna.NewVulnerability, Kenna.NewFinding, Kenna.NewAsset: the schema library coerces compatible types (a numeric string for an int, for example) and reports every failing field. These constructors accept only exact types. They report the first failing field, in declaration order, as a single `ValidationError`.
- PyValues.Repr: `str()` of a string inside a list is rendered between single quotes, without Python's escaping of quotes and backslashes. This affects only the text of a scanner identifier built from a list-valued `id`.
- KennaPatterns.DigitRun: `\d` is read as the ASCII digits `0`-`9`. The regular-expression engine also accepts other Unicode decimal digits.
- Kenna.NewExport: the choice between the two export shapes is modelled as "asset export first". An object with both an `assets` and a `vulnerabilities` list is read as an asset export. Extra top-level keys are ignored.
- VulnSearch.ScannerIdentifiersDistinct: distinct ids give distinct scanner identifiers only when both are ints. An int id and a str id with the same digits collide (`VulnSearch.MixedIdsCollide`); the code does nothing to tell them apart.
- The asset record type has no dump and round-trip lemma like the other three record types. Its constructor's contract already ties every field to its argument.
