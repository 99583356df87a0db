# BlueDetect core in Dafny

BlueDetect is a small Express server that reads a CSV file of domain names and
probes each domain to decide whether it runs the Umbraco CMS. This project
models its core in `server.js` and proves properties of the model:

- **Scorer** (`scorer.dfy`, module `Scorer`): `analyzeResponseForUmbraco`.
  A non-200 status gives a one-line verdict. A page whose meta generator tag
  names another platform is excluded. Otherwise nine weighted rules add up a
  score, and the verdict is "Umbraco" at 3 points or more. The evidence list is
  a summary line followed by one line per rule that fired, in rule order. The
  case-insensitive generator regular expression is modelled as a deterministic
  matcher (`MatchFrom`, `FirstGenerator`, `MetaGenerator`). The method
  `AnalyzeResponseForUmbraco` keeps the source's `score +=` and
  `evidence.push`, and it is proved equal to the specification function
  `Classify`.
- **CSV rows** (`csv_domains.dfy`, module `CsvDomains`): the `/upload` row
  handler picks the domain column from the first row. It takes the first
  domain-like cell, else the first header literal, else column 2, and lists
  the normalised cells of the later rows. The `/check` row handler lists the
  normalised cells of every row, apart from a leading header row.
- **HTTP probe** (`http_probe.dfy`, module `HttpProbe`): `makeHTTPRequest`
  with its redirect following (at most 5 redirects; relative `Location`
  values are completed with the current scheme and host name), and
  `checkDomainWithHTTP` with its fallback from `https://` to `http://`.
- **Jobs** (`jobs.dfy`, module `Jobs`): the progress record of a job as a
  class, the loop `checkDomainsWithHTTP` that updates it, the `/stop` route,
  and the hourly sweep of the job registry.

The world outside the process becomes parameters:

- The network is a function `net: Request -> Reply`. It gives the reply that
  a request (URL, client, redirect depth) receives: a transport failure, or a
  status code with headers and a decoded body.
- In the job loop, each domain's probe is an oracle `attempt: string ->
  Attempt`. `Jobs.Attempts(net)` ties the oracle to `HttpProbe.Probe`.
  The `Threw` and `Escaped` outcomes model the loop's two `catch` blocks.
  `checkDomainWithHTTP` catches all its errors, so with the real probe
  neither outcome happens (`Jobs.AttemptsReturn`).
- The `/stop` requests that arrive while a job runs are a sequence of flags
  `stops`. `stops[i]` says that a stop arrived while iteration `i` awaited
  the probe or the 500 ms delay. The next loop test sees the flag, or the
  final status line does.
- The clock is a parameter `now` (milliseconds). The job id is a parameter.

## Model

| member | source | states |
|---|---|---|
| Strings.StartsWithPrefix | server.js:1185-1187 | `startsWith(p)` holds exactly when the text begins with the characters of `p` |
| Strings.StartsWith | server.js:1185-1187 | `startsWith`; its meaning is stated by `StartsWithPrefix` |
| Strings.Contains | server.js:1315 | `includes`; its meaning is stated by `ContainsAt` and `ContainsWitness` |
| Strings.ContainsAt | server.js:1315 | a text occurring at some index is found by `includes` |
| Strings.ContainsWitness | server.js:1315 | a text found by `includes` occurs at some index |
| Strings.Lower | server.js:893 | `toLowerCase` keeps the length and maps each character by itself |
| Strings.LowerIdempotent | server.js:1275 | lower-casing twice is lower-casing once |
| Strings.Trim | server.js:922 | `trim` removes a run of whitespace from each end and nothing else; a non-empty result has no whitespace at either end |
| Strings.TrimBoth | server.js:922 | removing a whitespace prefix and then a whitespace suffix leaves the block that `trim` describes |
| Strings.IsWhitespace | server.js:922 | the characters `trim` and `\s` treat as whitespace, the ECMAScript set |
| Strings.NatToStringRoundTrip | server.js:1469 | the decimal text of a score reads back as that score |
| Strings.NatToString | server.js:1469 | the decimal digits a template prints for a non-negative number: non-empty digits, no leading zero unless 0 |
| Strings.IntToString | server.js:1209 | the decimal text a template prints for a status code, with a `-` for a negative one; never empty |
| Strings.Join | server.js:1336-1419 | `.join(', ')` on the found items of a rule's evidence line |
| Scorer.SkipWhitespace | server.js:1273 | `\s+` consumes exactly a maximal run of whitespace |
| Scorer.SkipNonQuote | server.js:1273 | `[^'"]+` consumes exactly a maximal run of non-quote characters |
| Scorer.MatchFrom | server.js:1273 | a match of the generator pattern ends inside the text and captures a non-empty, quote-free block of it |
| Scorer.FirstGenerator | server.js:1273 | the leftmost match's capture is a non-empty, quote-free block of the content |
| Scorer.MetaGenerator | server.js:1273-1274 | the generator captured by `content.match`, or none; its properties are stated by the lemmas below |
| Scorer.ScanPast | server.js:1273 | no match starts before the first `<` |
| Scorer.MatchRendered | server.js:1273 | the pattern matches the plain spelling of a generator tag (single spaces, double quotes, lower-case literals), capturing the generator it was written with |
| Scorer.NoGeneratorWithoutTag | server.js:1273-1274 | content without `<` has no generator match |
| Scorer.ScanOn | server.js:1273 | a position where no match starts is skipped by the leftmost-match search |
| Scorer.ScanMisses | server.js:1273 | a run of positions where no match starts is skipped by the leftmost-match search |
| Scorer.GeneratorOfTag | server.js:1273-1275 | when no match starts before a generator tag, that tag is the one found and its value is captured exactly |
| Scorer.TagBreaksMeta | server.js:1273 | `<meta` does not start at a position followed by a `<` within its next four characters |
| Scorer.NoMatchBeforeTag | server.js:1273 | markup without `<meta` before a generator tag holds no match start |
| Scorer.NamesOtherPlatform | server.js:1278-1302 | the lower-cased generator contains one of the listed platform names; see `LeadingPlatform` |
| Scorer.Excluded | server.js:1274-1309 | the page has a generator naming another platform; see `OtherPlatformExcluded` |
| Scorer.LeadingPlatform | server.js:1278-1302 | a generator starting with a listed platform name names another platform |
| Scorer.OtherPlatformExcluded | server.js:1273-1309 | a 200 page whose first generator tag names another platform is excluded, with the exclusion line as its only evidence |
| Scorer.HeadMarkupHasNoMeta | server.js:1273 | a plain `<html><head><title>` prefix holds no `<meta` |
| Scorer.WordPressNamesOtherPlatform | server.js:1278-1302 | the generator `WordPress 6.4` is a tag value that names another platform |
| Scorer.WordPressExcluded | server.js:1273-1309 | a page with head markup and a `WordPress 6.4` generator tag is excluded, whatever follows it |
| Scorer.FoundElementsMembers | server.js:1413-1416 | the filter keeps exactly the listed elements the content contains, and it is non-empty iff one of them occurs |
| Scorer.FoundFoldedMembers | server.js:1386-1389 | the case-insensitive filter keeps exactly the patterns whose lower-cased form occurs in the lower-cased content |
| Scorer.FoundDirsPlain | server.js:1368-1371 | the directory filter is the plain containment filter |
| Scorer.HeaderPresentByKey | server.js:1348-1353 | a header counts iff some header name contains it, case-insensitively |
| Scorer.AdminPathRuleFires | server.js:1315-1318 | the admin-path rule fires iff the URL contains `/umbraco` |
| Scorer.ElementRuleFires | server.js:1404-1420 | the element rule fires iff some listed element occurs in the content |
| Scorer.ElementsNone | server.js:1413-1416 | content lacking a character that every element contains yields no element |
| Scorer.FoldedNone | server.js:1386-1389 | content lacking a letter (in either case) that every pattern contains yields no pattern |
| Scorer.FoundFilePaths | server.js:1330-1333 | the paths found in the URL or the content, in list order |
| Scorer.HeaderPresent | server.js:1348-1353 | the direct header lookup or the case-insensitive key search; see `HeaderPresentByKey` |
| Scorer.FoundHeaders | server.js:1348-1353 | the header names present, in list order |
| Scorer.FoundDirs | server.js:1368-1371 | the directories found in either containment form; see `FoundDirsPlain` |
| Scorer.FoundFolded | server.js:1386-1389 | the patterns found case-insensitively; see `FoundFoldedMembers` and `FoldedNone` |
| Scorer.FoundElements | server.js:1413-1416 | the elements found; see `FoundElementsMembers` and `ElementsNone` |
| Scorer.AdminPathRule | server.js:1315-1318 | rule 1, weight 3; when it fires is stated by `AdminPathRuleFires` |
| Scorer.FilePathRule | server.js:1321-1337 | rule 2, weight 3, on the Umbraco file paths in the content or the URL; see `PluginsPathFires` |
| Scorer.HeaderRule | server.js:1342-1357 | rule 3, weight 2, on the ASP.NET header names; see `HeaderPresentByKey` |
| Scorer.DirRule | server.js:1360-1375 | rule 4, weight 2, on the Umbraco directories in the content; see `FoundDirsPlain` |
| Scorer.CdfRule | server.js:1378-1393 | rule 5, weight 2, on the Client Dependency patterns, case-insensitively; see `FoundFoldedMembers` |
| Scorer.AspxRule | server.js:1398-1401 | rule 6, weight 1, on `.aspx` in the content or the URL |
| Scorer.ElementRule | server.js:1404-1420 | rule 7, weight 1; when it fires is stated by `ElementRuleFires` |
| Scorer.JsRule | server.js:1423-1437 | rule 8, weight 1, on the Umbraco script names in the content |
| Scorer.TextRule | server.js:1440-1456 | rule 9, weight 1, on the Umbraco text patterns, case-insensitively |
| Scorer.AwardStep | server.js:1316-1317 | one rule adds its weight when it fires, and appends exactly its line |
| Scorer.Award | server.js:1316-1317 | one `score +=` and `evidence.push` when a rule fires; see `AwardStep` |
| Scorer.Accumulate | server.js:1312-1456 | the nine rules awarded in source order; see `AccumulateSums` |
| Scorer.Tallied | server.js:1312-1456 | the tally of the scorer's nine rules on a page; see `ApplyRules` and `ScoredVerdict` |
| Scorer.WeightedScore | server.js:1312-1456 | the sum of the fired rules' weights; see `ScoredVerdict` and `PluginsAndHeaderScore` |
| Scorer.AccumulateSums | server.js:1312-1456 | the score after the nine rules is the sum of the fired rules' weights |
| Scorer.Confidence | server.js:1459-1463 | `high` iff the score is 6 or more, `medium` iff it is 3 to 5, `low` otherwise |
| Scorer.Summarize | server.js:1466-1474 | the verdict is positive iff the score is at least 3; the evidence is the summary line followed by the rule lines |
| Scorer.Classify | server.js:1262-1475 | a non-200 status gives `Status code: N` alone; an excluded generator gives the exclusion line alone; evidence is never empty |
| Scorer.ContributionBound | server.js:1312-1456 | a rule contributes at most its weight |
| Scorer.NineRuleVerdict | server.js:1312-1474 | over any nine rules, the score is at most 16, the verdict is the threshold test, and the evidence has one line per fired rule |
| Scorer.ScoredVerdict | server.js:1312-1474 | for a non-excluded 200, the score is at most 16, the verdict is `score >= 3`, and the evidence is the summary line then the fired rules' lines in order |
| Scorer.AdminPathDetects | server.js:1315-1318 | a non-excluded 200 at a URL containing `/umbraco` is detected |
| Scorer.PluginsAndHeaderScore | server.js:1321-1376 | `/App_Plugins/` in the content plus an `x-aspnet-version` header scores at least 7, with high confidence |
| Scorer.PluginsPathFires | server.js:1321-1376 | `/App_Plugins/` fires both the file-path rule and the directory rule |
| Scorer.PluginsDirFound | server.js:1360-1371 | `/App_Plugins/` is among the directories found |
| Scorer.Record | server.js:1316-1317 | one `score +=` and `evidence.push` step is the rule's award |
| Scorer.ApplyRules | server.js:1312-1456 | the nine imperative steps compute the specified tally |
| Scorer.Conclude | server.js:1458-1474 | the confidence and the `unshift` of the summary line give the specified verdict |
| Scorer.AnalyzeResponseForUmbraco | server.js:1262-1475 | the scorer's result is `Classify` of its inputs |
| CsvDomains.FindFirst | server.js:892-913 | the first cell at or after the start that passes the scan, or none when no cell passes |
| CsvDomains.LooksLikeDomain | server.js:893-899 | the first-row test: a dot, no space, no `@`, not a header literal, after lower-casing; see `HeaderNotDomainLike` |
| CsvDomains.DomainColumn | server.js:890-916 | the column the first row selects; its three cases are stated by `DomainColumnCases` |
| CsvDomains.CellAt | server.js:920 | `row[domainCol]`: the cell, or none beyond the row |
| CsvDomains.CellText | server.js:893 | `row[i] \|\| ''`: the cell, or the empty text beyond the row |
| CsvDomains.DomainColumnCases | server.js:890-916 | the column is the first domain-like cell, else the first header literal, else 2 |
| CsvDomains.HeaderNotDomainLike | server.js:895-899 | no cell is both a header literal and domain-like |
| CsvDomains.DomainLikeBeatsHeader | server.js:890-916 | a domain-like cell after a leading header literal wins the column |
| CsvDomains.DetectDomainColumn | server.js:890-916 | the imperative scans give the specified column |
| CsvDomains.StripScheme | server.js:922 | the result is a suffix of the cell |
| CsvDomains.StripSlash | server.js:922 | the result is the cell, or the cell less its last character |
| CsvDomains.NormalizeCell | server.js:920-924 | a kept cell was present, non-empty and not `domain`; what is kept is a non-empty block of the cell |
| CsvDomains.NormalizeUrl | server.js:922 | `https://d/` and `http://d/` normalise to `d` |
| CsvDomains.SchemedCell | server.js:922 | a cell that strips to `d/` is kept as `d` |
| CsvDomains.NormalizeOf | server.js:920-924 | a cell kept after trim, scheme strip and slash strip is kept as that text |
| CsvDomains.StripHttps | server.js:922 | a leading `https://` is removed |
| CsvDomains.StripHttp | server.js:922 | a leading `http://` is removed |
| CsvDomains.TrimUntouched | server.js:922 | a cell with no whitespace at the ends is not changed by `trim` |
| CsvDomains.TrimPadded | server.js:922 | one space at each end is removed by `trim` |
| CsvDomains.PaddedCellKept | server.js:920-924 | a space-padded cell is kept as its inner text |
| CsvDomains.PaddedHeaderKept | server.js:920-924 | the cell ` domain ` is kept, as `domain` |
| CsvDomains.Kept | server.js:920-924 | a row adds at most one non-empty domain |
| CsvDomains.ExtractDomains | server.js:918-925 | the rows give at most one domain each, all non-empty |
| CsvDomains.ExtractSnoc | server.js:918-925 | one more row appends exactly that row's kept cell |
| CsvDomains.UploadDomains | server.js:918-925 | the kept cells of the rows after the first; see `UploadHandler` and `CheckAfterUpload` |
| CsvDomains.CheckDomains | server.js:968-979 | the kept cells of all rows, less a leading header row; see `CheckHandler` and `CheckAfterUpload` |
| CsvDomains.KeepCell | server.js:920-924 | the handler's `push` appends the row's kept cell |
| CsvDomains.UploadHandler | server.js:888-929 | the stored column is the first row's column (`null` with no rows); the list holds the kept cells of the later rows, in order |
| CsvDomains.CheckHandler | server.js:958-979 | the list holds the kept cells in the stored column (2 when none was stored), the first row skipped iff its cell is a header literal |
| CsvDomains.CheckAfterUpload | server.js:888-979 | the check lists exactly the upload's domains, preceded by the first row's own domain unless that cell is a header literal |
| CsvDomains.CountsClose | server.js:888-979 | the check's count is the upload's count or one more |
| CsvDomains.DomainLikeFirstRowCounted | server.js:888-979 | a domain-like first row is probed by the check but missing from the upload's list |
| CsvDomains.DomainLikeKept | server.js:895-899 | a domain-like cell is kept, and keeps its dot |
| HttpProbe.HostEnd | server.js:1161-1163 | the host ends at the first `/`, `:`, `?` or `#` |
| HttpProbe.SchemeLength | server.js:1161 | the scheme is `http://`, `https://` or missing |
| HttpProbe.HostName | server.js:1161-1163 | a parsed host name is non-empty, lower-case, and holds neither a delimiter nor a forbidden host character; a URL with userinfo (`@`) before its path does not parse |
| HttpProbe.AuthorityEnd | server.js:1161 | the authority ends at the first `/`, `\\`, `?` or `#` |
| HttpProbe.AuthorityEndAt | server.js:1161 | a position before which no path starts, and at which one starts or the text ends, is the end of the authority |
| HttpProbe.ForbiddenInHost | server.js:1161 | a forbidden host character before the first delimiter makes the URL unparsable |
| HttpProbe.PrefixTests | server.js:1185-1197 | the slice tests used for `startsWith` agree with it |
| HttpProbe.RedirectTarget | server.js:1183-1190 | the URL a `Location` leads to; see `RelativeRedirectStays` |
| HttpProbe.HasLocation | server.js:1181-1182 | `if (location)`: a `location` header with a non-empty value |
| HttpProbe.IsHttpsUrl | server.js:1197 | `redirectUrl.startsWith('https://')`; see `PrefixTests` and `FetchFollows` |
| HttpProbe.Respond | server.js:1153-1212 | one request: unparsable, settled or followed; see `RespondPage`, `RespondRelative` and `Send` |
| HttpProbe.Chain | server.js:1155-1200 | the redirect recursion; see `ChainBounded`, `ChainEndless` and `ChainFifth` |
| HttpProbe.Fetch | server.js:1153-1212 | the chain against the network; see `FetchBounded` and `FollowRedirects` |
| HttpProbe.Settle | server.js:1204-1237 | how the promise settles once the chain has ended: rejected, `Status code: N`, or the scorer's verdict; see `SettleEvidence` and `MakeHTTPRequest` |
| HttpProbe.SettleEvidence | server.js:1204-1237 | a resolved request always carries evidence |
| HttpProbe.ChainBounded | server.js:1155-1200 | at most six requests are sent, at depths 0, 1, 2, ... in order |
| HttpProbe.ChainEndless | server.js:1155-1200 | redirects that never stop end in `Too many redirects (max 5)` after six requests |
| HttpProbe.ChainFifth | server.js:1155-1200 | the sixth request, at depth 5, is still sent and its answer is kept |
| HttpProbe.FetchBounded | server.js:1153-1200 | a probe sends at most six requests, the k-th at depth k |
| HttpProbe.HostNameOf | server.js:1161-1163 | the host of `scheme + host + /path` is that host |
| HttpProbe.RelativeRedirectStays | server.js:1184-1197 | a relative `Location` keeps the host and the scheme of the current request |
| HttpProbe.RespondPage | server.js:1204-1237 | a 200 at a parsed URL yields that page |
| HttpProbe.RespondRelative | server.js:1180-1200 | a 301/302 with a relative `Location` is followed, to a URL with a host |
| HttpProbe.EndlessRedirects | server.js:1155-1200 | endless relative redirects are rejected after six requests |
| HttpProbe.FifthRedirectFollowed | server.js:1155-1237 | five redirects are followed, and the page at depth 5 is analysed |
| HttpProbe.RedirectWithoutLocation | server.js:1180-1211 | a 301/302 without `Location` resolves to `Status code: N` after one request |
| HttpProbe.Send | server.js:1161-1212 | one request's handling is the specified step |
| HttpProbe.FetchStops | server.js:1153-1212 | a reply that is not followed ends the chain |
| HttpProbe.FetchFollows | server.js:1180-1200 | a followed reply continues at the target, with https iff it starts with `https://`, one level deeper |
| HttpProbe.FollowRedirects | server.js:1153-1212 | the loop ends with the chain's final answer |
| HttpProbe.MakeHTTPRequest | server.js:1153-1259 | the result is the settled chain: rejected on failure, `Status code: N` for a non-200, the scorer's verdict for a page |
| HttpProbe.Fallback | server.js:1120-1148 | positive iff either scheme is positive; the http result replaces the https one unless https was positive or http was rejected |
| HttpProbe.PositiveHttpsAlone | server.js:1125-1131 | a positive https answer is the result |
| HttpProbe.EvidenceEmptyOnlyIfBothRejected | server.js:1120-1148 | the evidence is empty iff both schemes were rejected |
| HttpProbe.Probe | server.js:1118-1150 | both probes of a domain and the fallback between them; see `Fallback`, `PositiveHttpsAlone` and `UnparsableDomain` |
| HttpProbe.ProbeUrlUnparsable | server.js:1125 | a domain whose host part holds a forbidden character gives a probe URL that does not parse |
| HttpProbe.UnsentFetch | server.js:1161 | a URL that does not parse is rejected before any request is sent |
| HttpProbe.UnparsableDomain | server.js:1118-1150 | a domain with such a character is probed with no request sent, and gives a negative verdict with no evidence |
| HttpProbe.CheckDomainWithHTTP | server.js:1118-1150 | the result is the specified probe verdict |
| Jobs.Progress.constructor | server.js:982-991 | a new job is running, with zero counters, empty lists and no current domain |
| Jobs.Progress.Stop | server.js:1028 | the status becomes stopped, whatever it was, and no other field changes |
| Jobs.HitOf | server.js:1083-1091 | a domain is recorded iff its probe returned a positive verdict, with that verdict's evidence |
| Jobs.Hits | server.js:1083-1091 | the entries the probed domains add, in order; see `HitsStep`, `HitsAppend` and `HitsMembers` |
| Jobs.DomainsOf | server.js:1086-1090 | the name list follows the evidence list, entry by entry |
| Jobs.Started | server.js:1068-1072 | the loop runs up to and including the first iteration after which a stop or an escaped error happened |
| Jobs.Runs | server.js:1068-1072 | the number of iterations, none on a stopped job; see `NothingAfterStop` and `NoStopProbesAll` |
| Jobs.FinalStatus | server.js:1105-1112 | `error` after an escaped error, `stopped` after a stop, `completed` otherwise; see `CheckDomainsWithHTTP` |
| Jobs.Crashed | server.js:1108-1112 | the run ends in the outer `catch`: its last iteration's error escaped; see `CheckDomainsWithHTTP` and `ReturningJobEnds` |
| Jobs.HitsAppend | server.js:1068-1103 | the hits of two runs are the hits of each, in order |
| Jobs.HitsMembers | server.js:1083-1091 | a domain is recorded iff it was probed and found positive; at most one record per probe |
| Jobs.ThrownProbeAddsNothing | server.js:1097-1099 | a probe that throws adds nothing |
| Jobs.NothingAfterStop | server.js:1068-1072 | no domain after a stop is probed |
| Jobs.NoStopProbesAll | server.js:1068-1106 | without stops or escaped errors every domain is probed and the job completes |
| Jobs.CheckDomainsWithHTTP | server.js:1064-1115 | the probed domains are the first k; `checked` is k; the lists and `successCount` grow by exactly the hits, in input order; the final status and `currentDomain`/`error` are as the loop leaves them; a record whose `successCount` equals the length of both lists keeps that agreement |
| Jobs.Visit | server.js:1074-1102 | one iteration sets `currentDomain` and `checked = i + 1` and appends the domain's hit |
| Jobs.Attempts | server.js:1083 | the oracle of the loop built from `HttpProbe.Probe` against the network |
| Jobs.AttemptsReturn | server.js:1118-1150 | the real probe never throws: its `try`/`catch` is modelled by `Probe` and `Settle` being total |
| Jobs.ReturningJobEnds | server.js:1064-1106 | a job whose probes all return ends stopped or completed, with no current domain |
| Jobs.CountersAgree | server.js:1076-1091 | `successCount` is at most `checked`, and the two lists have the same length |
| Jobs.Unexpired | server.js:1494-1499 | a job survives iff it is at most 24 hours old, unchanged |
| Jobs.SweepIdempotent | server.js:1494-1499 | a second sweep at the same time removes nothing |
| Jobs.SweepMonotone | server.js:1494-1499 | a later sweep keeps no job that an earlier one removed |
| Jobs.Registry.constructor | server.js:44 | the registry starts empty |
| Jobs.Registry.Start | server.js:982-991 | the job id maps to a fresh running record |
| Jobs.Registry.Stop | server.js:1020-1030 | a missing job is reported; a present one is stopped whatever its status, with its counters, lists and current domain unchanged |
| Jobs.Registry.Sweep | server.js:1478-1500 | afterwards the registry is exactly the jobs at most 24 hours old |

## Where the code differs from its written design

The model follows the code in each case.

- Column detection: a domain-like cell wins over a header literal in the same
  first row. The header literals are only a fallback when no cell looks like a
  domain (`CsvDomains.DomainLikeBeatsHeader`).
- The first row never enters the upload's list, even when it holds a domain.
  The check does probe that domain, so the two counts can differ by one
  (`CsvDomains.DomainLikeFirstRowCounted`).
- The `domain` test is made on the untrimmed cell, and `trim` comes after it:
  the cell ` domain ` passes the test and is probed as `domain`
  (`CsvDomains.PaddedHeaderKept`).
- Domain-like cells exclude only the space character, not all whitespace.
- `/App_Plugins/` matches both the file-path rule and the directory rule. With
  an ASP.NET version header this scores 7, with high confidence
  (`Scorer.PluginsAndHeaderScore`).
- Both probe URLs end in `/umbraco/`, so any non-excluded 200 that comes back
  without a redirect counts as Umbraco from the URL alone
  (`Scorer.AdminPathDetects`).
- A `Location` starting with an upper-case `HTTPS://` is handled as relative,
  and it is not treated as https for the next request. A relative redirect
  keeps the host name but drops the port (`HttpProbe.RelativeRedirectStays`).
- `/stop` sets `stopped` even on a completed or failed job
  (`Jobs.Progress.Stop`). The outer error branch leaves `currentDomain` set
  (`Jobs.CheckDomainsWithHTTP`).

## Left out

- The web UI, static files, Express routing, multer uploads, the file system and the JSON responses: side effects around the core, not its logic.
- The `/progress` and `/download` routes (server.js:1008-1060): they only read the record or render it to CSV.
- CSV tokenisation by `csv-parse`: the handlers take rows that are already split, with empty lines skipped.
- Gzip and deflate decoding, TLS, sockets, request headers and the 15 s timeout: the `net` parameter yields the decoded body or a failure.
- Console logging and the 500 ms delay between domains: they change no state.
- `setInterval` scheduling, `Date.now` job ids and clock reads: the time is a parameter.
- Concurrency between the job loop and `/stop` requests: modelled by the `stops` flags, one per iteration.
- The file part of the hourly sweep (server.js:1483-1492): it deletes files, not registry entries.
- The iteration order of the `Map` in the sweep: the resulting registry does not depend on it.
- Strings.Lower: models `toLowerCase` on ASCII letters only; other characters are kept as they are.
- Scorer.MatchFrom: the case-insensitive regular expression is modelled as a deterministic matcher of the one pattern the scorer uses, not as a general regex engine.
- Scorer.MatchRendered: proved only for the plain spelling that `Render` produces (single spaces, double quotes, lower-case literals); the matcher itself accepts any whitespace run, either quote and any letter case, but no lemma states that it matches every such spelling.
- HttpProbe.HostName: models `new URL` for `http://` and `https://` URLs only, with the host ending at `/`, `\`, `:`, `?` or `#`. It rejects a host holding a control character, whitespace, `%`, `<`, `>`, `@`, `[`, `]`, `^` or `|`, and any `@` before the path. Where `new URL` would accept, it does not model: stripping userinfo (`user@host` is rejected instead), removing tab, LF and CR from the input, percent-decoding `%` escapes, IPv6 literals in `[...]`, dropping U+FEFF, IDNA and punycode mapping, lower-casing beyond ASCII, stripping leading and trailing spaces and control characters from the whole input, and validating the port. It also does not model the IPv4 host parser, which runs when the last label of the host ends in a number: such a host is taken as plain text, so `shop.1` or `1.2.3.256` is requested where `new URL` throws, and `0x7f.1` is not rewritten to `127.0.0.1`. Nor does it skip a run of `/` and `\` after the scheme, so a `Location` such as `https:/x.com/` or `http:\\x.com` that `new URL` accepts is rejected as invalid.
- Jobs.CheckDomainsWithHTTP: the probe oracle is a function of the domain, and the network a function of the request, so a domain listed twice receives identical probe results both times; the real loop sends its requests again and may see different replies.
- Jobs.CountersAgree: the relation `checked <= total` is not stated for the record, because `total` is fixed at creation and the loop does not check it.
