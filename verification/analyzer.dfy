/** `analyzeMisconfig`: the 22 guarded checks over the lower-cased compact serialisation
    of the document, each appending one finding and one summary line when it fires,
    followed by the severity counts and the risk decision table. */
module MisconfigAnalyzer {
  import opened Text
  import opened Json
  import opened Rules
  import opened PathLocator

  /** One finding, as pushed onto `issues`: the rule that reported it (whose `WordingOf`
      gives its `type`, `description` and `recommendation`), its severity and its location. */
  datatype Issue = Issue(rule: RuleId, severity: Level, location: string)

  datatype Breakdown = Breakdown(critical: nat, high: nat, medium: nat, low: nat)

  /** What `analyzeMisconfig` returns. */
  datatype Report = Report(
    issues: seq<Issue>,
    misconfigs: seq<string>,
    riskLevel: Level,
    totalIssues: nat,
    severityBreakdown: Breakdown)

  /** Where the finding of rule `r` points: `findJsonPath` with the rule's key hints and term. */
  function LocationOf(r: RuleId, doc: Doc, pretty: string): string {
    Locate(doc, LookupOf(r).hints, LookupOf(r).searchTerm, pretty)
  }

  /** The finding rule `r` pushes, at `location`. */
  function IssueOf(r: RuleId, location: string): Issue {
    Issue(r, Severity(r), location)
  }

  /** The rules of `rules` that fire on `text`, in the order given. */
  function Fired(text: string, rules: seq<RuleId>): (fired: seq<RuleId>)
    ensures |fired| <= |rules|
  {
    if rules == [] then []
    else
      var last := rules[|rules| - 1];
      Fired(text, rules[..|rules| - 1]) + (if Fires(last, text) then [last] else [])
  }

  /** What the block of rule `r` pushes onto `issues`: its finding when it fires. */
  function Pushed(r: RuleId, text: string, doc: Doc, pretty: string): seq<Issue> {
    if Fires(r, text) then [IssueOf(r, LocationOf(r, doc, pretty))] else []
  }

  /** What the block of rule `r` pushes onto `misconfigs`. */
  function PushedSummary(r: RuleId, text: string): seq<string> {
    if Fires(r, text) then [Summary(r)] else []
  }

  /** The findings pushed by the blocks of `rules`, run in that order. */
  function Findings(text: string, doc: Doc, pretty: string, rules: seq<RuleId>): seq<Issue> {
    if rules == [] then []
    else Findings(text, doc, pretty, rules[..|rules| - 1]) + Pushed(rules[|rules| - 1], text, doc, pretty)
  }

  /** The summary lines pushed by the blocks of `rules`, run in that order. */
  function Summaries(text: string, rules: seq<RuleId>): seq<string> {
    if rules == [] then []
    else Summaries(text, rules[..|rules| - 1]) + PushedSummary(rules[|rules| - 1], text)
  }

  /** `issues.filter(i => i.severity === l).length` */
  function CountLevel(issues: seq<Issue>, l: Level): (n: nat)
    ensures n <= |issues|
  {
    if issues == [] then 0
    else CountLevel(issues[..|issues| - 1], l) + (if issues[|issues| - 1].severity == l then 1 else 0)
  }

  function BreakdownOf(issues: seq<Issue>): Breakdown {
    Breakdown(CountLevel(issues, Critical), CountLevel(issues, High), CountLevel(issues, Medium), CountLevel(issues, Low))
  }

  /** The risk decision table, first match wins. */
  function RiskLevelOf(b: Breakdown): Level {
    if b.critical > 0 then Critical
    else if b.high >= 3 then High
    else if b.high > 0 || b.medium >= 5 then Medium
    else Low
  }

  /** The report for a document, its compact serialisation and its 2-space pretty text. */
  function Analysis(doc: Doc, compact: string, pretty: string): Report {
    var text := Lower(compact);
    var issues := Findings(text, doc, pretty, AllRules);
    var b := BreakdownOf(issues);
    Report(issues, Summaries(text, AllRules), RiskLevelOf(b), |issues|, b)
  }

  /** One guarded block: when rule `r` fires, look up its location and push its finding
      and its summary line. */
  method CheckRule(
    r: RuleId, dataString: string, doc: Doc, pretty: string,
    issues: seq<Issue>, misconfigs: seq<string>)
    returns (issues': seq<Issue>, misconfigs': seq<string>)
    ensures issues' == issues + Pushed(r, dataString, doc, pretty)
    ensures misconfigs' == misconfigs + PushedSummary(r, dataString)
  {
    issues', misconfigs' := issues, misconfigs;
    if Fires(r, dataString) {
      var location := FindJsonPath(doc, LookupOf(r).hints, LookupOf(r).searchTerm, pretty);
      issues' := issues' + [IssueOf(r, location)];
      misconfigs' := misconfigs' + [Summary(r)];
    }
  }

  /** The blocks of `analyzeMisconfig`, one after the other, check `AllRules`. */
  lemma BlocksCheckAllRules()
    ensures [] + [S3PublicAccess] + [S3VersioningDisabled] + [S3EncryptionMissing] + [S3BucketPolicyPublic] + [S3CorsOverlyPermissive] + [S3HttpsNotEnforced] + [S3EncryptionNotRequired] + [S3MfaNotRequired] + [S3OverlyPermissiveActions] + [S3NoIpRestriction] + [S3MissingExplicitDeny] + [IamWildcardPermission] + [IamWeakPasswordPolicy] + [IamMfaNotEnabled] + [GcpOverprivilegedServiceAccount] + [GcpPublicBucket] + [GcpDefaultNetworkUsage] + [AzureNsgOpenAccess] + [AzureStoragePublicAccess] + [AzureKeyRotationMissing] + [HardcodedCredentials] + [LoggingDisabled] == AllRules
  {
  }

  /** Checking one more rule appends what that rule pushes. */
  lemma FindingsSnoc(text: string, doc: Doc, pretty: string, rules: seq<RuleId>, r: RuleId)
    ensures Findings(text, doc, pretty, rules + [r]) == Findings(text, doc, pretty, rules) + Pushed(r, text, doc, pretty)
  {
    assert (rules + [r])[..|rules|] == rules;
  }

  lemma SummariesSnoc(text: string, rules: seq<RuleId>, r: RuleId)
    ensures Summaries(text, rules + [r]) == Summaries(text, rules) + PushedSummary(r, text)
  {
    assert (rules + [r])[..|rules|] == rules;
  }

  /** The 22 blocks of `analyzeMisconfig`, one after the other, push the findings of `AllRules`. */
  lemma FindingsOfBlocks(text: string, doc: Doc, pretty: string)
    ensures Findings(text, doc, pretty, AllRules) == [] + Pushed(S3PublicAccess, text, doc, pretty) + Pushed(S3VersioningDisabled, text, doc, pretty) + Pushed(S3EncryptionMissing, text, doc, pretty) + Pushed(S3BucketPolicyPublic, text, doc, pretty) + Pushed(S3CorsOverlyPermissive, text, doc, pretty) + Pushed(S3HttpsNotEnforced, text, doc, pretty) + Pushed(S3EncryptionNotRequired, text, doc, pretty) + Pushed(S3MfaNotRequired, text, doc, pretty) + Pushed(S3OverlyPermissiveActions, text, doc, pretty) + Pushed(S3NoIpRestriction, text, doc, pretty) + Pushed(S3MissingExplicitDeny, text, doc, pretty) + Pushed(IamWildcardPermission, text, doc, pretty) + Pushed(IamWeakPasswordPolicy, text, doc, pretty) + Pushed(IamMfaNotEnabled, text, doc, pretty) + Pushed(GcpOverprivilegedServiceAccount, text, doc, pretty) + Pushed(GcpPublicBucket, text, doc, pretty) + Pushed(GcpDefaultNetworkUsage, text, doc, pretty) + Pushed(AzureNsgOpenAccess, text, doc, pretty) + Pushed(AzureStoragePublicAccess, text, doc, pretty) + Pushed(AzureKeyRotationMissing, text, doc, pretty) + Pushed(HardcodedCredentials, text, doc, pretty) + Pushed(LoggingDisabled, text, doc, pretty)
  {
    BlocksCheckAllRules();
    FindingsSnoc(text, doc, pretty, [], S3PublicAccess);
    FindingsSnoc(text, doc, pretty, [] + [S3PublicAccess], S3VersioningDisabled);
    FindingsSnoc(text, doc, pretty, [] + [S3PublicAccess] + [S3VersioningDisabled], S3EncryptionMissing);
    FindingsSnoc(text, doc, pretty, [] + [S3PublicAccess] + [S3VersioningDisabled] + [S3EncryptionMissing], S3BucketPolicyPublic);
    FindingsSnoc(text, doc, pretty, [] + [S3PublicAccess] + [S3VersioningDisabled] + [S3EncryptionMissing] + [S3BucketPolicyPublic], S3CorsOverlyPermissive);
    FindingsSnoc(text, doc, pretty, [] + [S3PublicAccess] + [S3VersioningDisabled] + [S3EncryptionMissing] + [S3BucketPolicyPublic] + [S3CorsOverlyPermissive], S3HttpsNotEnforced);
    FindingsSnoc(text, doc, pretty, [] + [S3PublicAccess] + [S3VersioningDisabled] + [S3EncryptionMissing] + [S3BucketPolicyPublic] + [S3CorsOverlyPermissive] + [S3HttpsNotEnforced], S3EncryptionNotRequired);
    FindingsSnoc(text, doc, pretty, [] + [S3PublicAccess] + [S3VersioningDisabled] + [S3EncryptionMissing] + [S3BucketPolicyPublic] + [S3CorsOverlyPermissive] + [S3HttpsNotEnforced] + [S3EncryptionNotRequired], S3MfaNotRequired);
    FindingsSnoc(text, doc, pretty, [] + [S3PublicAccess] + [S3VersioningDisabled] + [S3EncryptionMissing] + [S3BucketPolicyPublic] + [S3CorsOverlyPermissive] + [S3HttpsNotEnforced] + [S3EncryptionNotRequired] + [S3MfaNotRequired], S3OverlyPermissiveActions);
    FindingsSnoc(text, doc, pretty, [] + [S3PublicAccess] + [S3VersioningDisabled] + [S3EncryptionMissing] + [S3BucketPolicyPublic] + [S3CorsOverlyPermissive] + [S3HttpsNotEnforced] + [S3EncryptionNotRequired] + [S3MfaNotRequired] + [S3OverlyPermissiveActions], S3NoIpRestriction);
    FindingsSnoc(text, doc, pretty, [] + [S3PublicAccess] + [S3VersioningDisabled] + [S3EncryptionMissing] + [S3BucketPolicyPublic] + [S3CorsOverlyPermissive] + [S3HttpsNotEnforced] + [S3EncryptionNotRequired] + [S3MfaNotRequired] + [S3OverlyPermissiveActions] + [S3NoIpRestriction], S3MissingExplicitDeny);
    FindingsSnoc(text, doc, pretty, [] + [S3PublicAccess] + [S3VersioningDisabled] + [S3EncryptionMissing] + [S3BucketPolicyPublic] + [S3CorsOverlyPermissive] + [S3HttpsNotEnforced] + [S3EncryptionNotRequired] + [S3MfaNotRequired] + [S3OverlyPermissiveActions] + [S3NoIpRestriction] + [S3MissingExplicitDeny], IamWildcardPermission);
    FindingsSnoc(text, doc, pretty, [] + [S3PublicAccess] + [S3VersioningDisabled] + [S3EncryptionMissing] + [S3BucketPolicyPublic] + [S3CorsOverlyPermissive] + [S3HttpsNotEnforced] + [S3EncryptionNotRequired] + [S3MfaNotRequired] + [S3OverlyPermissiveActions] + [S3NoIpRestriction] + [S3MissingExplicitDeny] + [IamWildcardPermission], IamWeakPasswordPolicy);
    FindingsSnoc(text, doc, pretty, [] + [S3PublicAccess] + [S3VersioningDisabled] + [S3EncryptionMissing] + [S3BucketPolicyPublic] + [S3CorsOverlyPermissive] + [S3HttpsNotEnforced] + [S3EncryptionNotRequired] + [S3MfaNotRequired] + [S3OverlyPermissiveActions] + [S3NoIpRestriction] + [S3MissingExplicitDeny] + [IamWildcardPermission] + [IamWeakPasswordPolicy], IamMfaNotEnabled);
    FindingsSnoc(text, doc, pretty, [] + [S3PublicAccess] + [S3VersioningDisabled] + [S3EncryptionMissing] + [S3BucketPolicyPublic] + [S3CorsOverlyPermissive] + [S3HttpsNotEnforced] + [S3EncryptionNotRequired] + [S3MfaNotRequired] + [S3OverlyPermissiveActions] + [S3NoIpRestriction] + [S3MissingExplicitDeny] + [IamWildcardPermission] + [IamWeakPasswordPolicy] + [IamMfaNotEnabled], GcpOverprivilegedServiceAccount);
    FindingsSnoc(text, doc, pretty, [] + [S3PublicAccess] + [S3VersioningDisabled] + [S3EncryptionMissing] + [S3BucketPolicyPublic] + [S3CorsOverlyPermissive] + [S3HttpsNotEnforced] + [S3EncryptionNotRequired] + [S3MfaNotRequired] + [S3OverlyPermissiveActions] + [S3NoIpRestriction] + [S3MissingExplicitDeny] + [IamWildcardPermission] + [IamWeakPasswordPolicy] + [IamMfaNotEnabled] + [GcpOverprivilegedServiceAccount], GcpPublicBucket);
    FindingsSnoc(text, doc, pretty, [] + [S3PublicAccess] + [S3VersioningDisabled] + [S3EncryptionMissing] + [S3BucketPolicyPublic] + [S3CorsOverlyPermissive] + [S3HttpsNotEnforced] + [S3EncryptionNotRequired] + [S3MfaNotRequired] + [S3OverlyPermissiveActions] + [S3NoIpRestriction] + [S3MissingExplicitDeny] + [IamWildcardPermission] + [IamWeakPasswordPolicy] + [IamMfaNotEnabled] + [GcpOverprivilegedServiceAccount] + [GcpPublicBucket], GcpDefaultNetworkUsage);
    FindingsSnoc(text, doc, pretty, [] + [S3PublicAccess] + [S3VersioningDisabled] + [S3EncryptionMissing] + [S3BucketPolicyPublic] + [S3CorsOverlyPermissive] + [S3HttpsNotEnforced] + [S3EncryptionNotRequired] + [S3MfaNotRequired] + [S3OverlyPermissiveActions] + [S3NoIpRestriction] + [S3MissingExplicitDeny] + [IamWildcardPermission] + [IamWeakPasswordPolicy] + [IamMfaNotEnabled] + [GcpOverprivilegedServiceAccount] + [GcpPublicBucket] + [GcpDefaultNetworkUsage], AzureNsgOpenAccess);
    FindingsSnoc(text, doc, pretty, [] + [S3PublicAccess] + [S3VersioningDisabled] + [S3EncryptionMissing] + [S3BucketPolicyPublic] + [S3CorsOverlyPermissive] + [S3HttpsNotEnforced] + [S3EncryptionNotRequired] + [S3MfaNotRequired] + [S3OverlyPermissiveActions] + [S3NoIpRestriction] + [S3MissingExplicitDeny] + [IamWildcardPermission] + [IamWeakPasswordPolicy] + [IamMfaNotEnabled] + [GcpOverprivilegedServiceAccount] + [GcpPublicBucket] + [GcpDefaultNetworkUsage] + [AzureNsgOpenAccess], AzureStoragePublicAccess);
    FindingsSnoc(text, doc, pretty, [] + [S3PublicAccess] + [S3VersioningDisabled] + [S3EncryptionMissing] + [S3BucketPolicyPublic] + [S3CorsOverlyPermissive] + [S3HttpsNotEnforced] + [S3EncryptionNotRequired] + [S3MfaNotRequired] + [S3OverlyPermissiveActions] + [S3NoIpRestriction] + [S3MissingExplicitDeny] + [IamWildcardPermission] + [IamWeakPasswordPolicy] + [IamMfaNotEnabled] + [GcpOverprivilegedServiceAccount] + [GcpPublicBucket] + [GcpDefaultNetworkUsage] + [AzureNsgOpenAccess] + [AzureStoragePublicAccess], AzureKeyRotationMissing);
    FindingsSnoc(text, doc, pretty, [] + [S3PublicAccess] + [S3VersioningDisabled] + [S3EncryptionMissing] + [S3BucketPolicyPublic] + [S3CorsOverlyPermissive] + [S3HttpsNotEnforced] + [S3EncryptionNotRequired] + [S3MfaNotRequired] + [S3OverlyPermissiveActions] + [S3NoIpRestriction] + [S3MissingExplicitDeny] + [IamWildcardPermission] + [IamWeakPasswordPolicy] + [IamMfaNotEnabled] + [GcpOverprivilegedServiceAccount] + [GcpPublicBucket] + [GcpDefaultNetworkUsage] + [AzureNsgOpenAccess] + [AzureStoragePublicAccess] + [AzureKeyRotationMissing], HardcodedCredentials);
    FindingsSnoc(text, doc, pretty, [] + [S3PublicAccess] + [S3VersioningDisabled] + [S3EncryptionMissing] + [S3BucketPolicyPublic] + [S3CorsOverlyPermissive] + [S3HttpsNotEnforced] + [S3EncryptionNotRequired] + [S3MfaNotRequired] + [S3OverlyPermissiveActions] + [S3NoIpRestriction] + [S3MissingExplicitDeny] + [IamWildcardPermission] + [IamWeakPasswordPolicy] + [IamMfaNotEnabled] + [GcpOverprivilegedServiceAccount] + [GcpPublicBucket] + [GcpDefaultNetworkUsage] + [AzureNsgOpenAccess] + [AzureStoragePublicAccess] + [AzureKeyRotationMissing] + [HardcodedCredentials], LoggingDisabled);
  }

  lemma SummariesOfBlocks(text: string)
    ensures Summaries(text, AllRules) == [] + PushedSummary(S3PublicAccess, text) + PushedSummary(S3VersioningDisabled, text) + PushedSummary(S3EncryptionMissing, text) + PushedSummary(S3BucketPolicyPublic, text) + PushedSummary(S3CorsOverlyPermissive, text) + PushedSummary(S3HttpsNotEnforced, text) + PushedSummary(S3EncryptionNotRequired, text) + PushedSummary(S3MfaNotRequired, text) + PushedSummary(S3OverlyPermissiveActions, text) + PushedSummary(S3NoIpRestriction, text) + PushedSummary(S3MissingExplicitDeny, text) + PushedSummary(IamWildcardPermission, text) + PushedSummary(IamWeakPasswordPolicy, text) + PushedSummary(IamMfaNotEnabled, text) + PushedSummary(GcpOverprivilegedServiceAccount, text) + PushedSummary(GcpPublicBucket, text) + PushedSummary(GcpDefaultNetworkUsage, text) + PushedSummary(AzureNsgOpenAccess, text) + PushedSummary(AzureStoragePublicAccess, text) + PushedSummary(AzureKeyRotationMissing, text) + PushedSummary(HardcodedCredentials, text) + PushedSummary(LoggingDisabled, text)
  {
    BlocksCheckAllRules();
    SummariesSnoc(text, [], S3PublicAccess);
    SummariesSnoc(text, [] + [S3PublicAccess], S3VersioningDisabled);
    SummariesSnoc(text, [] + [S3PublicAccess] + [S3VersioningDisabled], S3EncryptionMissing);
    SummariesSnoc(text, [] + [S3PublicAccess] + [S3VersioningDisabled] + [S3EncryptionMissing], S3BucketPolicyPublic);
    SummariesSnoc(text, [] + [S3PublicAccess] + [S3VersioningDisabled] + [S3EncryptionMissing] + [S3BucketPolicyPublic], S3CorsOverlyPermissive);
    SummariesSnoc(text, [] + [S3PublicAccess] + [S3VersioningDisabled] + [S3EncryptionMissing] + [S3BucketPolicyPublic] + [S3CorsOverlyPermissive], S3HttpsNotEnforced);
    SummariesSnoc(text, [] + [S3PublicAccess] + [S3VersioningDisabled] + [S3EncryptionMissing] + [S3BucketPolicyPublic] + [S3CorsOverlyPermissive] + [S3HttpsNotEnforced], S3EncryptionNotRequired);
    SummariesSnoc(text, [] + [S3PublicAccess] + [S3VersioningDisabled] + [S3EncryptionMissing] + [S3BucketPolicyPublic] + [S3CorsOverlyPermissive] + [S3HttpsNotEnforced] + [S3EncryptionNotRequired], S3MfaNotRequired);
    SummariesSnoc(text, [] + [S3PublicAccess] + [S3VersioningDisabled] + [S3EncryptionMissing] + [S3BucketPolicyPublic] + [S3CorsOverlyPermissive] + [S3HttpsNotEnforced] + [S3EncryptionNotRequired] + [S3MfaNotRequired], S3OverlyPermissiveActions);
    SummariesSnoc(text, [] + [S3PublicAccess] + [S3VersioningDisabled] + [S3EncryptionMissing] + [S3BucketPolicyPublic] + [S3CorsOverlyPermissive] + [S3HttpsNotEnforced] + [S3EncryptionNotRequired] + [S3MfaNotRequired] + [S3OverlyPermissiveActions], S3NoIpRestriction);
    SummariesSnoc(text, [] + [S3PublicAccess] + [S3VersioningDisabled] + [S3EncryptionMissing] + [S3BucketPolicyPublic] + [S3CorsOverlyPermissive] + [S3HttpsNotEnforced] + [S3EncryptionNotRequired] + [S3MfaNotRequired] + [S3OverlyPermissiveActions] + [S3NoIpRestriction], S3MissingExplicitDeny);
    SummariesSnoc(text, [] + [S3PublicAccess] + [S3VersioningDisabled] + [S3EncryptionMissing] + [S3BucketPolicyPublic] + [S3CorsOverlyPermissive] + [S3HttpsNotEnforced] + [S3EncryptionNotRequired] + [S3MfaNotRequired] + [S3OverlyPermissiveActions] + [S3NoIpRestriction] + [S3MissingExplicitDeny], IamWildcardPermission);
    SummariesSnoc(text, [] + [S3PublicAccess] + [S3VersioningDisabled] + [S3EncryptionMissing] + [S3BucketPolicyPublic] + [S3CorsOverlyPermissive] + [S3HttpsNotEnforced] + [S3EncryptionNotRequired] + [S3MfaNotRequired] + [S3OverlyPermissiveActions] + [S3NoIpRestriction] + [S3MissingExplicitDeny] + [IamWildcardPermission], IamWeakPasswordPolicy);
    SummariesSnoc(text, [] + [S3PublicAccess] + [S3VersioningDisabled] + [S3EncryptionMissing] + [S3BucketPolicyPublic] + [S3CorsOverlyPermissive] + [S3HttpsNotEnforced] + [S3EncryptionNotRequired] + [S3MfaNotRequired] + [S3OverlyPermissiveActions] + [S3NoIpRestriction] + [S3MissingExplicitDeny] + [IamWildcardPermission] + [IamWeakPasswordPolicy], IamMfaNotEnabled);
    SummariesSnoc(text, [] + [S3PublicAccess] + [S3VersioningDisabled] + [S3EncryptionMissing] + [S3BucketPolicyPublic] + [S3CorsOverlyPermissive] + [S3HttpsNotEnforced] + [S3EncryptionNotRequired] + [S3MfaNotRequired] + [S3OverlyPermissiveActions] + [S3NoIpRestriction] + [S3MissingExplicitDeny] + [IamWildcardPermission] + [IamWeakPasswordPolicy] + [IamMfaNotEnabled], GcpOverprivilegedServiceAccount);
    SummariesSnoc(text, [] + [S3PublicAccess] + [S3VersioningDisabled] + [S3EncryptionMissing] + [S3BucketPolicyPublic] + [S3CorsOverlyPermissive] + [S3HttpsNotEnforced] + [S3EncryptionNotRequired] + [S3MfaNotRequired] + [S3OverlyPermissiveActions] + [S3NoIpRestriction] + [S3MissingExplicitDeny] + [IamWildcardPermission] + [IamWeakPasswordPolicy] + [IamMfaNotEnabled] + [GcpOverprivilegedServiceAccount], GcpPublicBucket);
    SummariesSnoc(text, [] + [S3PublicAccess] + [S3VersioningDisabled] + [S3EncryptionMissing] + [S3BucketPolicyPublic] + [S3CorsOverlyPermissive] + [S3HttpsNotEnforced] + [S3EncryptionNotRequired] + [S3MfaNotRequired] + [S3OverlyPermissiveActions] + [S3NoIpRestriction] + [S3MissingExplicitDeny] + [IamWildcardPermission] + [IamWeakPasswordPolicy] + [IamMfaNotEnabled] + [GcpOverprivilegedServiceAccount] + [GcpPublicBucket], GcpDefaultNetworkUsage);
    SummariesSnoc(text, [] + [S3PublicAccess] + [S3VersioningDisabled] + [S3EncryptionMissing] + [S3BucketPolicyPublic] + [S3CorsOverlyPermissive] + [S3HttpsNotEnforced] + [S3EncryptionNotRequired] + [S3MfaNotRequired] + [S3OverlyPermissiveActions] + [S3NoIpRestriction] + [S3MissingExplicitDeny] + [IamWildcardPermission] + [IamWeakPasswordPolicy] + [IamMfaNotEnabled] + [GcpOverprivilegedServiceAccount] + [GcpPublicBucket] + [GcpDefaultNetworkUsage], AzureNsgOpenAccess);
    SummariesSnoc(text, [] + [S3PublicAccess] + [S3VersioningDisabled] + [S3EncryptionMissing] + [S3BucketPolicyPublic] + [S3CorsOverlyPermissive] + [S3HttpsNotEnforced] + [S3EncryptionNotRequired] + [S3MfaNotRequired] + [S3OverlyPermissiveActions] + [S3NoIpRestriction] + [S3MissingExplicitDeny] + [IamWildcardPermission] + [IamWeakPasswordPolicy] + [IamMfaNotEnabled] + [GcpOverprivilegedServiceAccount] + [GcpPublicBucket] + [GcpDefaultNetworkUsage] + [AzureNsgOpenAccess], AzureStoragePublicAccess);
    SummariesSnoc(text, [] + [S3PublicAccess] + [S3VersioningDisabled] + [S3EncryptionMissing] + [S3BucketPolicyPublic] + [S3CorsOverlyPermissive] + [S3HttpsNotEnforced] + [S3EncryptionNotRequired] + [S3MfaNotRequired] + [S3OverlyPermissiveActions] + [S3NoIpRestriction] + [S3MissingExplicitDeny] + [IamWildcardPermission] + [IamWeakPasswordPolicy] + [IamMfaNotEnabled] + [GcpOverprivilegedServiceAccount] + [GcpPublicBucket] + [GcpDefaultNetworkUsage] + [AzureNsgOpenAccess] + [AzureStoragePublicAccess], AzureKeyRotationMissing);
    SummariesSnoc(text, [] + [S3PublicAccess] + [S3VersioningDisabled] + [S3EncryptionMissing] + [S3BucketPolicyPublic] + [S3CorsOverlyPermissive] + [S3HttpsNotEnforced] + [S3EncryptionNotRequired] + [S3MfaNotRequired] + [S3OverlyPermissiveActions] + [S3NoIpRestriction] + [S3MissingExplicitDeny] + [IamWildcardPermission] + [IamWeakPasswordPolicy] + [IamMfaNotEnabled] + [GcpOverprivilegedServiceAccount] + [GcpPublicBucket] + [GcpDefaultNetworkUsage] + [AzureNsgOpenAccess] + [AzureStoragePublicAccess] + [AzureKeyRotationMissing], HardcodedCredentials);
    SummariesSnoc(text, [] + [S3PublicAccess] + [S3VersioningDisabled] + [S3EncryptionMissing] + [S3BucketPolicyPublic] + [S3CorsOverlyPermissive] + [S3HttpsNotEnforced] + [S3EncryptionNotRequired] + [S3MfaNotRequired] + [S3OverlyPermissiveActions] + [S3NoIpRestriction] + [S3MissingExplicitDeny] + [IamWildcardPermission] + [IamWeakPasswordPolicy] + [IamMfaNotEnabled] + [GcpOverprivilegedServiceAccount] + [GcpPublicBucket] + [GcpDefaultNetworkUsage] + [AzureNsgOpenAccess] + [AzureStoragePublicAccess] + [AzureKeyRotationMissing] + [HardcodedCredentials], LoggingDisabled);
  }

  /** The report, with the findings and summary lines written block by block. */
  lemma AnalysisOfBlocks(doc: Doc, compact: string, pretty: string)
    ensures var text := Lower(compact);
      var issues := [] + Pushed(S3PublicAccess, text, doc, pretty) + Pushed(S3VersioningDisabled, text, doc, pretty) + Pushed(S3EncryptionMissing, text, doc, pretty) + Pushed(S3BucketPolicyPublic, text, doc, pretty) + Pushed(S3CorsOverlyPermissive, text, doc, pretty) + Pushed(S3HttpsNotEnforced, text, doc, pretty) + Pushed(S3EncryptionNotRequired, text, doc, pretty) + Pushed(S3MfaNotRequired, text, doc, pretty) + Pushed(S3OverlyPermissiveActions, text, doc, pretty) + Pushed(S3NoIpRestriction, text, doc, pretty) + Pushed(S3MissingExplicitDeny, text, doc, pretty) + Pushed(IamWildcardPermission, text, doc, pretty) + Pushed(IamWeakPasswordPolicy, text, doc, pretty) + Pushed(IamMfaNotEnabled, text, doc, pretty) + Pushed(GcpOverprivilegedServiceAccount, text, doc, pretty) + Pushed(GcpPublicBucket, text, doc, pretty) + Pushed(GcpDefaultNetworkUsage, text, doc, pretty) + Pushed(AzureNsgOpenAccess, text, doc, pretty) + Pushed(AzureStoragePublicAccess, text, doc, pretty) + Pushed(AzureKeyRotationMissing, text, doc, pretty) + Pushed(HardcodedCredentials, text, doc, pretty) + Pushed(LoggingDisabled, text, doc, pretty);
      Analysis(doc, compact, pretty)
        == Report(issues, [] + PushedSummary(S3PublicAccess, text) + PushedSummary(S3VersioningDisabled, text) + PushedSummary(S3EncryptionMissing, text) + PushedSummary(S3BucketPolicyPublic, text) + PushedSummary(S3CorsOverlyPermissive, text) + PushedSummary(S3HttpsNotEnforced, text) + PushedSummary(S3EncryptionNotRequired, text) + PushedSummary(S3MfaNotRequired, text) + PushedSummary(S3OverlyPermissiveActions, text) + PushedSummary(S3NoIpRestriction, text) + PushedSummary(S3MissingExplicitDeny, text) + PushedSummary(IamWildcardPermission, text) + PushedSummary(IamWeakPasswordPolicy, text) + PushedSummary(IamMfaNotEnabled, text) + PushedSummary(GcpOverprivilegedServiceAccount, text) + PushedSummary(GcpPublicBucket, text) + PushedSummary(GcpDefaultNetworkUsage, text) + PushedSummary(AzureNsgOpenAccess, text) + PushedSummary(AzureStoragePublicAccess, text) + PushedSummary(AzureKeyRotationMissing, text) + PushedSummary(HardcodedCredentials, text) + PushedSummary(LoggingDisabled, text), RiskLevelOf(BreakdownOf(issues)), |issues|, BreakdownOf(issues))
  {
    FindingsOfBlocks(Lower(compact), doc, pretty);
    SummariesOfBlocks(Lower(compact));
  }

  /** `analyzeMisconfig(data)`, given `compact` = `JSON.stringify(data)` and `pretty` =
      `JSON.stringify(data, null, 2)`. */
  method AnalyzeMisconfig(doc: Doc, compact: string, pretty: string) returns (report: Report)
    ensures report == Analysis(doc, compact, pretty)
  {
    var dataString := Lower(compact);
    var issues: seq<Issue> := [];
    var misconfigs: seq<string> := [];
    issues, misconfigs := CheckRule(S3PublicAccess, dataString, doc, pretty, issues, misconfigs);
    issues, misconfigs := CheckRule(S3VersioningDisabled, dataString, doc, pretty, issues, misconfigs);
    issues, misconfigs := CheckRule(S3EncryptionMissing, dataString, doc, pretty, issues, misconfigs);
    issues, misconfigs := CheckRule(S3BucketPolicyPublic, dataString, doc, pretty, issues, misconfigs);
    issues, misconfigs := CheckRule(S3CorsOverlyPermissive, dataString, doc, pretty, issues, misconfigs);
    issues, misconfigs := CheckRule(S3HttpsNotEnforced, dataString, doc, pretty, issues, misconfigs);
    issues, misconfigs := CheckRule(S3EncryptionNotRequired, dataString, doc, pretty, issues, misconfigs);
    issues, misconfigs := CheckRule(S3MfaNotRequired, dataString, doc, pretty, issues, misconfigs);
    issues, misconfigs := CheckRule(S3OverlyPermissiveActions, dataString, doc, pretty, issues, misconfigs);
    issues, misconfigs := CheckRule(S3NoIpRestriction, dataString, doc, pretty, issues, misconfigs);
    issues, misconfigs := CheckRule(S3MissingExplicitDeny, dataString, doc, pretty, issues, misconfigs);
    issues, misconfigs := CheckRule(IamWildcardPermission, dataString, doc, pretty, issues, misconfigs);
    issues, misconfigs := CheckRule(IamWeakPasswordPolicy, dataString, doc, pretty, issues, misconfigs);
    issues, misconfigs := CheckRule(IamMfaNotEnabled, dataString, doc, pretty, issues, misconfigs);
    issues, misconfigs := CheckRule(GcpOverprivilegedServiceAccount, dataString, doc, pretty, issues, misconfigs);
    issues, misconfigs := CheckRule(GcpPublicBucket, dataString, doc, pretty, issues, misconfigs);
    issues, misconfigs := CheckRule(GcpDefaultNetworkUsage, dataString, doc, pretty, issues, misconfigs);
    issues, misconfigs := CheckRule(AzureNsgOpenAccess, dataString, doc, pretty, issues, misconfigs);
    issues, misconfigs := CheckRule(AzureStoragePublicAccess, dataString, doc, pretty, issues, misconfigs);
    issues, misconfigs := CheckRule(AzureKeyRotationMissing, dataString, doc, pretty, issues, misconfigs);
    issues, misconfigs := CheckRule(HardcodedCredentials, dataString, doc, pretty, issues, misconfigs);
    issues, misconfigs := CheckRule(LoggingDisabled, dataString, doc, pretty, issues, misconfigs);

    AnalysisOfBlocks(doc, compact, pretty);
    var criticalCount := CountLevel(issues, Critical);
    var highCount := CountLevel(issues, High);
    var mediumCount := CountLevel(issues, Medium);
    var riskLevel := Low;
    if criticalCount > 0 {
      riskLevel := Critical;
    } else if highCount >= 3 {
      riskLevel := High;
    } else if highCount > 0 || mediumCount >= 5 {
      riskLevel := Medium;
    } else if |issues| > 0 {
      riskLevel := Low;
    }
    report := Report(issues, misconfigs, riskLevel, |issues|,
      Breakdown(criticalCount, highCount, mediumCount, CountLevel(issues, Low)));
  }

  // ---------- findings and summary lines follow the firing rules ----------

  /** Rules listed by increasing position in the source. */
  predicate InSourceOrder(rules: seq<RuleId>) {
    forall i, j :: 0 <= i < j < |rules| ==> Rank(rules[i]) < Rank(rules[j])
  }

  /** The firing rules are exactly the rules that fire, and they keep the source order. */
  lemma {:induction false} FiredRules(text: string, rules: seq<RuleId>)
    requires InSourceOrder(rules)
    ensures forall r :: r in Fired(text, rules) <==> r in rules && Fires(r, text)
    ensures InSourceOrder(Fired(text, rules))
  {
    if rules != [] {
      var init, last := rules[..|rules| - 1], rules[|rules| - 1];
      FiredRules(text, init);
      var before := Fired(text, init);
      assert rules == init + [last];
      forall i | 0 <= i < |before|
        ensures Rank(before[i]) < Rank(last)
      {
        assert before[i] in init;
        var k :| 0 <= k < |init| && init[k] == before[i];
        assert rules[k] == init[k];
      }
    }
  }

  /** The k-th finding is the finding of the k-th firing rule, at that rule's location. */
  lemma {:induction false} FindingsFollowFired(text: string, doc: Doc, pretty: string, rules: seq<RuleId>)
    ensures |Findings(text, doc, pretty, rules)| == |Fired(text, rules)|
    ensures forall k :: 0 <= k < |Fired(text, rules)| ==>
      var r := Fired(text, rules)[k];
      Findings(text, doc, pretty, rules)[k] == IssueOf(r, LocationOf(r, doc, pretty))
  {
    if rules != [] {
      FindingsFollowFired(text, doc, pretty, rules[..|rules| - 1]);
    }
  }

  /** The k-th summary line is the summary of the k-th firing rule. */
  lemma {:induction false} SummariesFollowFired(text: string, rules: seq<RuleId>)
    ensures |Summaries(text, rules)| == |Fired(text, rules)|
    ensures forall k :: 0 <= k < |Fired(text, rules)| ==>
      Summaries(text, rules)[k] == Summary(Fired(text, rules)[k])
  {
    if rules != [] {
      SummariesFollowFired(text, rules[..|rules| - 1]);
    }
  }

  // ---------- severity counts ----------

  lemma CountLevelSnoc(issues: seq<Issue>, x: Issue, l: Level)
    ensures CountLevel(issues + [x], l) == CountLevel(issues, l) + (if x.severity == l then 1 else 0)
  {
    assert (issues + [x])[..|issues|] == issues;
  }

  /** Every severity is one of the four levels, so the four counts add up to the total. */
  lemma {:induction false} CountsAddUp(issues: seq<Issue>)
    ensures CountLevel(issues, Critical) + CountLevel(issues, High)
          + CountLevel(issues, Medium) + CountLevel(issues, Low) == |issues|
  {
    if issues != [] {
      CountsAddUp(issues[..|issues| - 1]);
    }
  }

  /** When `r0` is the only rule of severity `l`, findings made by distinct rules hold one
      finding of that severity if `r0` is among those rules, and none otherwise. */
  lemma {:induction false} CountOfSoleRule(issues: seq<Issue>, rules: seq<RuleId>, l: Level, r0: RuleId)
    requires |issues| == |rules| && InSourceOrder(rules)
    requires forall k :: 0 <= k < |issues| ==> issues[k].severity == Severity(rules[k])
    requires forall r :: Severity(r) == l <==> r == r0
    ensures CountLevel(issues, l) == if r0 in rules then 1 else 0
  {
    if issues != [] {
      var n := |issues| - 1;
      assert rules == rules[..n] + [rules[n]];
      CountOfSoleRule(issues[..n], rules[..n], l, r0);
      if rules[n] == r0 {
        forall k | 0 <= k < n
          ensures rules[k] != r0
        {
          assert Rank(rules[k]) < Rank(rules[n]);
        }
      }
    }
  }

  // ---------- the risk decision table ----------

  /** The decision table read row by row: each level, and the condition that selects it. */
  lemma RiskTable(b: Breakdown)
    ensures RiskLevelOf(b) == Critical <==> b.critical > 0
    ensures RiskLevelOf(b) == High <==> b.critical == 0 && b.high >= 3
    ensures RiskLevelOf(b) == Medium <==> b.critical == 0 && b.high < 3 && (b.high > 0 || b.medium >= 5)
    ensures RiskLevelOf(b) == Low <==> b.critical == 0 && b.high == 0 && b.medium < 5
  {
  }

  /** Two High findings and no Critical one give Medium, whatever the other counts. */
  lemma TwoHighsGiveMedium(b: Breakdown)
    requires b.critical == 0 && b.high == 2
    ensures RiskLevelOf(b) == Medium
  {
  }

  /** Levels ranked from Low (0) to Critical (3). */
  function LevelRank(l: Level): nat {
    match l
    case Low => 0
    case Medium => 1
    case High => 2
    case Critical => 3
  }

  /** More findings of every severity never lower the risk level. */
  lemma RiskMonotone(b: Breakdown, b': Breakdown)
    requires b.critical <= b'.critical && b.high <= b'.high && b.medium <= b'.medium
    ensures LevelRank(RiskLevelOf(b)) <= LevelRank(RiskLevelOf(b'))
  {
  }

  // ---------- the report ----------

  /** Counts are consistent: one summary line per finding, the total is the number of
      findings, at most one per rule, and the breakdown adds up to the total. */
  lemma ReportCounts(doc: Doc, compact: string, pretty: string)
    ensures var report := Analysis(doc, compact, pretty);
      var b := report.severityBreakdown;
      && |report.misconfigs| == |report.issues| == report.totalIssues <= |AllRules|
      && b.critical + b.high + b.medium + b.low == report.totalIssues
  {
    var text := Lower(compact);
    FindingsFollowFired(text, doc, pretty, AllRules);
    SummariesFollowFired(text, AllRules);
    CountsAddUp(Findings(text, doc, pretty, AllRules));
  }

  /** The findings are those of the firing rules, each once, in source order, with the
      k-th summary line belonging to the k-th finding. */
  lemma ReportFollowsRules(doc: Doc, compact: string, pretty: string)
    ensures var report := Analysis(doc, compact, pretty);
      var fired := Fired(Lower(compact), AllRules);
      && (forall r :: r in fired <==> Fires(r, Lower(compact)))
      && InSourceOrder(fired)
      && |report.issues| == |report.misconfigs| == |fired|
      && forall k :: 0 <= k < |fired| ==>
           && report.issues[k] == IssueOf(fired[k], LocationOf(fired[k], doc, pretty))
           && report.misconfigs[k] == Summary(fired[k])
  {
    var text := Lower(compact);
    AllRulesInSourceOrder();
    FiredRules(text, AllRules);
    FindingsFollowFired(text, doc, pretty, AllRules);
    SummariesFollowFired(text, AllRules);
  }

  /** Hardcoded Credentials is the only Critical rule: the report holds one Critical
      finding when credentials are found and none otherwise, and its risk level is
      Critical exactly then. */
  lemma CriticalMeansCredentials(doc: Doc, compact: string, pretty: string)
    ensures var report := Analysis(doc, compact, pretty);
      && report.severityBreakdown.critical == (if Fires(HardcodedCredentials, Lower(compact)) then 1 else 0)
      && (report.riskLevel == Critical <==> Fires(HardcodedCredentials, Lower(compact)))
  {
    var text := Lower(compact);
    ReportFollowsRules(doc, compact, pretty);
    forall r
      ensures Severity(r) == Critical <==> r == HardcodedCredentials
    {
      OnlyCredentialsAreCritical(r);
    }
    CountOfSoleRule(Findings(text, doc, pretty, AllRules), Fired(text, AllRules), Critical, HardcodedCredentials);
  }

  /** S3 Missing Explicit Deny is the only Low rule: the Low count is one when it fires
      and zero otherwise. */
  lemma LowMeansMissingDeny(doc: Doc, compact: string, pretty: string)
    ensures Analysis(doc, compact, pretty).severityBreakdown.low
         == if Fires(S3MissingExplicitDeny, Lower(compact)) then 1 else 0
  {
    var text := Lower(compact);
    ReportFollowsRules(doc, compact, pretty);
    forall r
      ensures Severity(r) == Low <==> r == S3MissingExplicitDeny
    {
      OnlyExplicitDenyIsLow(r);
    }
    CountOfSoleRule(Findings(text, doc, pretty, AllRules), Fired(text, AllRules), Low, S3MissingExplicitDeny);
  }

  /** A serialisation shorter than three characters, such as `{}` or `[]`, gives an empty
      report with risk level Low. */
  lemma ShortSerialisationIsClean(doc: Doc, compact: string, pretty: string)
    requires |compact| < 3
    ensures Analysis(doc, compact, pretty)
         == Report([], [], Low, 0, Breakdown(0, 0, 0, 0))
  {
    var text := Lower(compact);
    ReportFollowsRules(doc, compact, pretty);
    var fired := Fired(text, AllRules);
    if fired != [] {
      ShortTextFiresNothing(fired[0], text);
      assert false;
    }
  }
}
