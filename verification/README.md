# Cloud misconfiguration checker — Dafny model

This project models the core of a browser-based cloud configuration checker in Dafny.

- `analyzeMisconfig` runs 22 fixed rules over the lower-cased compact JSON serialisation of an uploaded AWS, GCP or Azure configuration document.
- Each rule that fires adds one finding (kind, fixed severity, location) and one summary line.
- The findings are then counted by severity and mapped to an overall risk level through a decision table.
- The location of a finding comes from `findJsonPath`. It makes a pre-order walk of the document that records member paths whose string value contains the rule's search term or whose key contains one of its key hints. If nothing is recorded, it falls back to the first matching line of the 2-space pretty-printed document (`"Line N"`), and failing that to `"Unknown"`.
- The second part models the fall-back readers of the server-side analysis endpoint. When a language model's reply holds no JSON, the summary, the allowed and denied actions, the security issues and the risk level are pulled out of the reply's lines by keyword. A defaulting step then fills every report field the result lacks.

Modules:

| file | module | what it holds |
|---|---|---|
| `text.dfy` | `Text` | JavaScript string operations: `\s` white space, `trim`, ASCII `toLowerCase`, `includes`, `split`/`join`, the list-marker strip |
| `json.dfy` | `Json` | the document tree and JavaScript truthiness |
| `patterns.dfy` | `Patterns` | the regular-expression fragment the rules use, with backtracking semantics |
| `rules.dfy` | `Rules` | the 22 rules: trigger, severity, wording, summary line, location lookup |
| `locator.dfy` | `PathLocator` | `findJsonPath` as a specification (`Locate`) and as the walk with a shared `paths` array (`PathCollector`) |
| `analyzer.dfy` | `MisconfigAnalyzer` | `analyzeMisconfig`, the counts, the risk table and the report-level properties |
| `scenarios.dfy` | `Scenarios` | the report for `{"password":"p@ss123"}` |
| `salvage.dfy` | `Salvage` | `extractSummary`, `extractAllowedActions`, `extractDeniedActions`, `extractSecurityIssues`, `extractRiskLevel` |
| `defaults.dfy` | `Defaults` | the in-place defaulting of the result object |

The two serialisations the analyzer reads are parameters of the model:

- `compact` is `JSON.stringify(data)`.
- `pretty` is `JSON.stringify(data, null, 2)`.

Lower-casing and line splitting are modelled on them.

Points where the code behaves differently from what a reader might expect, which the model keeps as written:

- **IAM wildcard needs a bare `*`.** The `IAM Wildcard Permission` expression at `src/services/misconfigAnalyzer.js:173` needs `*` right after the optional quote. So a statement with `"Action":"s3:*"` fires `S3 Overly Permissive Actions` (line 129) but not the IAM wildcard check.
- **Location may be empty.** `findJsonPath` returns the empty path when a root member has an empty key: `{"": "public-read"}` is located at `""`. See `PathLocator.EmptyRootKeyLocation` and `PathLocator.LocateNonEmpty`.
- **`불가능` check is dead code.** In `extractAllowedActions`, a line with `불가능` always contains `가능`, so it takes the section-opening branch first. Only `denied` ends the allowed section (`Salvage.NotPossibleOpensAllowed`).
- **Four literals never match.** These rule literals contain upper-case letters and are searched for in lower-cased text:
  - `s3:PutObject`
  - `MultiFactorAuthAge`
  - `IpAddress`
  - `"Effect": "Deny"`

  They are kept as written (`Rules.UpperCaseAlternativesNeverMatch`).
- **Literals that need a space.** Literals such as `"status": "suspended"` contain `": "`. The compact serialisation never has a space there, and the model keeps them as written.

## Model

| member | source | states |
|---|---|---|
| Text.Lower | src/services/misconfigAnalyzer.js:5 | lower-casing keeps the length and maps every character through ASCII `toLowerCase` |
| Text.Split | api/analyze.js:232 | `split('\n')` yields at least one part and no part holds the separator |
| Text.SplitJoin | api/analyze.js:232 | joining the parts of a split with the separator gives back the text |
| Text.TrimStart | api/analyze.js:235 | the result is no longer than the input, as many leading characters of the input as it is shorter by are all white space, and the result does not start with white space |
| Text.TrimStartIsSuffix | api/analyze.js:235 | what `trimStart` keeps is the input's own suffix, so together with `TrimStart` it removes exactly the leading white space |
| Text.TrimEnd | api/analyze.js:235 | the result is no longer than the input, the input's characters past the result's length are all white space, and the result does not end with white space |
| Text.TrimEndIsPrefix | api/analyze.js:235 | what `trimEnd` keeps is the input's own prefix, so together with `TrimEnd` it removes exactly the trailing white space |
| Text.TrimKeepsWord | api/analyze.js:235 | trimming keeps every word that neither starts nor ends with white space |
| Text.StripMarker | api/analyze.js:251 | for `replace(/^[-•\d.\s]+/, '')`: the result is no longer than the input, as many leading characters of the input as it is shorter by are all marker characters, and the result does not start with one |
| Text.StripMarkerIsSuffix | api/analyze.js:251 | what the marker pattern leaves is the input's own suffix, so together with `StripMarker` it removes exactly the longest leading run of marker characters |
| Text.CleanItemKeepsWord | api/analyze.js:251 | a cleaned list item still holds every word that starts with no marker character and ends with no white space |
| Text.LowerExcludesUpper | src/services/misconfigAnalyzer.js:99-157 | lower-cased text never contains a word with an upper-case letter |
| Text.NatToString | src/services/misconfigAnalyzer.js:422 | the decimal rendering of a line number is non-empty, made of digits, reads back (`DigitsValue`) as the number itself, and starts with `0` only for zero |
| Text.NatToStringInjective | src/services/misconfigAnalyzer.js:422 | distinct line numbers render as distinct texts |
| Patterns.LiteralTest | src/services/misconfigAnalyzer.js:11-16 | a one-literal expression with the `i` flag tests exactly like `includes` on lower-cased text |
| Patterns.TestNeedsLead | src/services/misconfigAnalyzer.js:56-57 | an expression that starts with a literal matches only text that holds that literal |
| Patterns.LeadBlocked | src/services/misconfigAnalyzer.js:317-322 | lower-case text lacking a character of the leading literal matches no such expression |
| Rules.AllRulesInSourceOrder | src/services/misconfigAnalyzer.js:17-346 | the rule list holds every rule once, each at the position of its block in the source |
| Rules.OnlyCredentialsAreCritical | src/services/misconfigAnalyzer.js:323-333 | a rule is Critical if and only if it is Hardcoded Credentials |
| Rules.OnlyExplicitDenyIsLow | src/services/misconfigAnalyzer.js:156-168 | a rule is Low if and only if it is S3 Missing Explicit Deny |
| Rules.UpperCaseAlternativesNeverMatch | src/services/misconfigAnalyzer.js:99-157 | the four upper-case alternatives never occur in the lower-cased serialisation |
| Rules.ShortTextFiresNothing | src/services/misconfigAnalyzer.js:17-346 | no rule fires on a serialisation shorter than three characters |
| PathLocator.FirstLineHit | src/services/misconfigAnalyzer.js:418-424 | finds the first line holding the term case-insensitively: that line hits, no earlier line does, and with no result no line does |
| PathLocator.PathCollector.Traverse | src/services/misconfigAnalyzer.js:382-409 | the walk appends to `paths` exactly the paths of the pre-order specification: per member the value hit, then the key hit, then the subtree; array elements in index order |
| PathLocator.FindJsonPath | src/services/misconfigAnalyzer.js:379-427 | returns the first recorded path, else `Line N` for the first matching pretty line, else `Unknown` |
| PathLocator.CollectedPathsExtend | src/services/misconfigAnalyzer.js:389-393 | every path recorded below a non-empty path extends it with `.key` or `[i]` |
| PathLocator.LocateNonEmpty | src/services/misconfigAnalyzer.js:393-426 | the location is non-empty whenever no root member has the empty key |
| PathLocator.EmptyRootKeyLocation | src/services/misconfigAnalyzer.js:393-414 | `{"": "public-read"}` is located at the empty path |
| PathLocator.LocateFirstMember | src/services/misconfigAnalyzer.js:392-406 | when the first root member hits by value or by key, the location is its key |
| PathLocator.ScalarMembersRecordNothing | src/services/misconfigAnalyzer.js:397-406 | numbers, booleans and null under keys that miss every hint record no path |
| MisconfigAnalyzer.CheckRule | src/services/misconfigAnalyzer.js:17-28 | one guarded block pushes the rule's finding at its location and its summary line exactly when it fires |
| MisconfigAnalyzer.AnalysisOfBlocks | src/services/misconfigAnalyzer.js:17-375 | the report is what the 22 blocks push, in order, with the counts and the risk level of those findings |
| MisconfigAnalyzer.AnalyzeMisconfig | src/services/misconfigAnalyzer.js:2-376 | the method's report equals the report specification |
| MisconfigAnalyzer.FiredRules | src/services/misconfigAnalyzer.js:17-346 | the firing rules are exactly the listed rules that fire, kept in source order |
| MisconfigAnalyzer.FindingsFollowFired | src/services/misconfigAnalyzer.js:17-346 | the k-th finding belongs to the k-th firing rule and carries that rule's severity and location |
| MisconfigAnalyzer.SummariesFollowFired | src/services/misconfigAnalyzer.js:17-346 | the k-th summary line is the k-th firing rule's summary |
| MisconfigAnalyzer.CountsAddUp | src/services/misconfigAnalyzer.js:349-373 | the four severity counts add up to the number of findings |
| MisconfigAnalyzer.CountOfSoleRule | src/services/misconfigAnalyzer.js:349-351 | the only rule of a severity yields a count of one when it fired and zero otherwise |
| MisconfigAnalyzer.TwoHighsGiveMedium | src/services/misconfigAnalyzer.js:356-359 | two High findings and no Critical one give Medium |
| MisconfigAnalyzer.RiskMonotone | src/services/misconfigAnalyzer.js:353-362 | more findings of every severity never lower the risk level |
| MisconfigAnalyzer.ReportCounts | src/services/misconfigAnalyzer.js:364-375 | one summary line per finding; the total equals the number of findings and is at most 22; the breakdown adds up to the total |
| MisconfigAnalyzer.ReportFollowsRules | src/services/misconfigAnalyzer.js:17-346 | the report lists the firing rules once each, in source order, each with its finding and its summary line |
| MisconfigAnalyzer.CriticalMeansCredentials | src/services/misconfigAnalyzer.js:323-355 | the Critical count is one exactly when credentials are found, and the risk level is Critical exactly then |
| MisconfigAnalyzer.LowMeansMissingDeny | src/services/misconfigAnalyzer.js:156-168 | the Low count is one exactly when S3 Missing Explicit Deny fires, and zero otherwise |
| MisconfigAnalyzer.ShortSerialisationIsClean | src/services/misconfigAnalyzer.js:5-362 | `{}` and `[]` (any serialisation shorter than three characters) give no findings and risk level Low |
| Scenarios.PasswordTextIsLower | src/services/misconfigAnalyzer.js:5 | the serialisation of `{"password":"p@ss123"}` is unchanged by lower-casing |
| Scenarios.CredentialMatchesAt | src/services/misconfigAnalyzer.js:317-322 | the credential expression for `password` matches at offset 1 of any text laid out as `{"password":"…"}` with a seven-character unquoted value |
| Scenarios.S3RulesNeedMissingChars | src/services/misconfigAnalyzer.js:17-168 | no S3 rule fires on lower-case text lacking the characters e, u, c, i, m, t, k, l |
| Scenarios.OtherRulesNeedMissingChars | src/services/misconfigAnalyzer.js:170-346 | on such text no rule from the twelfth on fires except Hardcoded Credentials |
| Scenarios.PasswordFiresOnlyCredentials | src/services/misconfigAnalyzer.js:17-346 | on `{"password":"p@ss123"}` a rule fires if and only if it is Hardcoded Credentials |
| Scenarios.OnlyCredentialsReport | src/services/misconfigAnalyzer.js:323-375 | when only the credential rule fires, the report is that one Critical finding with risk level Critical |
| Scenarios.PasswordKeyIsHint | src/services/misconfigAnalyzer.js:324 | the key `password` hits the credential rule's key hints |
| Scenarios.PasswordDocumentReport | src/services/misconfigAnalyzer.js:317-333 | `{"password":"p@ss123"}` gives one Critical Hardcoded Credentials finding at `password`, one summary line, total 1, risk level Critical |
| Salvage.FirstTen | api/analyze.js:260 | `slice(0, 10)` keeps the first ten elements, or all when there are fewer |
| Salvage.ExtractSummary | api/analyze.js:231-239 | the loop's result equals the summary specification |
| Salvage.SummaryIsFirstMatch | api/analyze.js:233-238 | the summary starts at the first summary line, and is the default text when there is none |
| Salvage.SummaryMentionsKeyword | api/analyze.js:234-238 | the summary is never empty: it is the default text or holds the keyword that selected it |
| Salvage.SummaryKeepsWord | api/analyze.js:235 | a keyword of the selected line survives the join and the trim |
| Salvage.AllowedLineOf | api/analyze.js:250-254 | an item read off a line is the cleaned text of a list line, non-empty, without `불가능` or `denied` |
| Salvage.ExtractAllowedActions | api/analyze.js:241-261 | the loop with its section flag, `continue` and `break` returns the allowed-actions specification |
| Salvage.NotPossibleOpensAllowed | api/analyze.js:246-258 | a line with `불가능` always opens the section, so the scan stops exactly at a non-opening line with `denied` |
| Salvage.StopLineOffersNothing | api/analyze.js:252-257 | the line that stops the scan contributes no item |
| Salvage.AllowedEndsAtStop | api/analyze.js:256-258 | after an opener, nothing past the first stopping line is collected |
| Salvage.AllowedScanItems | api/analyze.js:245-258 | every collected item comes from a non-opening line inside an opened section |
| Salvage.AllowedActionsAreListItems | api/analyze.js:241-260 | at most ten actions, each the cleaned item of a list line after an opening line; this lemma states membership only, and the order and multiplicity of the items are those of the lines, as `AllowedScanItems` states |
| Salvage.AllowedCollectsListItems | api/analyze.js:245-255 | a qualifying list item after an opener, before any stopping line, is collected |
| Salvage.DeniedLineOf | api/analyze.js:272-276 | an item read off a line is the non-empty cleaned text of a list line |
| Salvage.ExtractDeniedActions | api/analyze.js:263-280 | the loop with its section flag and `continue` returns the denied-actions specification |
| Salvage.ScanDeniedLine | api/analyze.js:268-277 | one pass of the loop body: an opening line sets the section flag and pushes nothing; any other line keeps the flag and, inside the section, pushes the cleaned text of a list line when it is not empty |
| Salvage.DeniedScanItems | api/analyze.js:267-277 | an item is collected if and only if it comes from a non-opening list line inside an opened section |
| Salvage.DeniedActionsAreListItems | api/analyze.js:263-278 | an action is collected if and only if it is the non-empty cleaned item of a non-opening list line after an opening line; this lemma states membership only, and the order and multiplicity of the items are those of the lines, as `DeniedScanItems` states |
| Salvage.SeverityOf | api/analyze.js:291-300 | a line's severity, when it has one, is High, Medium or Low |
| Salvage.ExtractSecurityIssues | api/analyze.js:282-316 | the loop with its mutable current issue returns the security-issues specification |
| Salvage.IssueScanSeverities | api/analyze.js:287-313 | the pushed issues carry, in order, the open issue's severity and then one severity per severity line |
| Salvage.SecurityIssuesFollowSeverityLines | api/analyze.js:282-316 | one issue per severity line, in order, at most ten; each severity is High, Medium or Low and is announced by a line of the reply |
| Salvage.SecurityIssueSpans | api/analyze.js:282-316 | the issues are one per severity line, in order: no line before the first severity line and no line inside a span announces a severity, the k-th issue has the k-th severity line's severity, and its description and recommendation are the text of the last naming line in its own span (from its severity line up to the next one), or "" when there is none |
| Salvage.IssueScanSpans | api/analyze.js:287-313 | the scan's pushes and its final push yield exactly the span issues of the severity lines, in order |
| Salvage.LastTextIsLast | api/analyze.js:302-310 | a span's text is "" when no line of the span offers the field, and otherwise the text of the last line in the span that offers it, so later naming lines overwrite earlier ones |
| Salvage.FieldOfLine | api/analyze.js:302-310 | a line offers a description (recommendation) exactly when it contains `이슈`, `문제` or `취약점` (`권장`, `개선` or `recommendation`), and then offers its cleaned text |
| Salvage.SeverityIndices | api/analyze.js:291-300 | the severity-line positions are increasing and each is a line announcing a severity |
| Salvage.NextSeverity | api/analyze.js:291-300 | the next severity line at or after a position, with no severity line before it |
| Salvage.ReplyRiskLevel | api/analyze.js:318-322 | the risk level is High, Medium or Low |
| Salvage.RiskLevelCoversIssues | api/analyze.js:291-322 | a High issue makes the risk level High, and a Medium issue makes it High or Medium |
| Defaults.WithDefaults | api/analyze.js:186-200 | after defaulting every field is truthy, and every field that was truthy is unchanged |
| Defaults.ParsedResult.ApplyDefaults | api/analyze.js:186-200 | the in-place updates leave the object's fields equal to the defaulting specification of the old fields |
| Defaults.DefaultsIdempotent | api/analyze.js:186-200 | defaulting twice is defaulting once |
| Defaults.DefaultRiskLevel | api/analyze.js:198-200 | a missing risk level becomes Medium exactly when the issue list has elements and Low otherwise; a missing issue list gives Low |
| Defaults.DefaultValues | api/analyze.js:186-197 | a missing summary gets the fall-back text; missing action and issue lists become `[]` |
| Defaults.CompleteNeedsNoDefaults | api/analyze.js:186-200 | a result whose fields are all truthy is left as it is |
| Defaults.Record | api/analyze.js:172-180 | the contract fixes only that the issue list is an array with one element per salvaged issue; the other fields (summary, action arrays, risk level, and each issue object's `severity`, `issue` and `recommendation`) are given by the body |
| Defaults.SalvagedNeedsNoDefaults | api/analyze.js:172-200 | defaulting never alters a salvaged record: all its fields are already truthy |

## Left out

- I/O and the HTTP handler are not modelled. This covers request dispatch, the environment lookup, the `fetch` to the language model, the status responses, and the JSON-block search with `JSON.parse` of the reply. They are network I/O and foreign parsing. The model starts from the parsed result, or from the reply text for the salvage readers.
- `JSON.stringify` is taken as input, not computed. The model does not reproduce its number formatting, string escaping or `for...in` key order (integer-like keys first). The compact and pretty serialisations are parameters, and objects are member sequences in order.
- Unicode case mapping is not modelled. `toLowerCase` is ASCII-only. Non-ASCII letters keep their case.
- `undefined`, cyclic and non-object inputs are excluded by the `Doc` type. These include `undefined` passed to `analyzeMisconfig` and a reply whose JSON is an array, a string or `null`.
- `Rules.WordingOf` holds the description and recommendation texts of each finding. No property is stated about them, since they are fixed literals.
- Defaults.HasItems: models `securityIssues.length > 0` only for arrays and strings. An object with its own `length` property, and the comparison's number coercion, are not modelled.
- Salvage.ExtractSecurityIssues: the current issue is a value, not an object. The source's object is never changed after it is pushed, so value semantics give the same result.
- String lengths are counted in characters, not in UTF-16 code units. This matters only for `securityIssues` given as a string.
