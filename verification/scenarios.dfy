/** Worked documents: what `analyzeMisconfig` reports for a one-member credentials document. */
module Scenarios {
  import opened Text
  import opened Patterns
  import opened Json
  import opened Rules
  import opened PathLocator
  import opened MisconfigAnalyzer

  /** `JSON.stringify({"password": "p@ss123"})` */
  const PasswordText: string := "{\"password\":\"p@ss123\"}"

  const PasswordDoc: Doc := Obj([Member("password", Str("p@ss123"))])

  /** The text has no upper-case letter, so lower-casing keeps it. */
  lemma PasswordTextIsLower()
    ensures Lower(PasswordText) == PasswordText
    ensures forall x :: x in PasswordText ==> !IsUpper(x)
  {
    assert forall x :: x in PasswordText ==> !IsUpper(x);
    LowerOfLower(PasswordText);
  }

  /** The credential pattern for `password` matches from offset 1 of any text laid out
      as `{"password":"…"}` with a seven-character value. */
  lemma CredentialMatchesAt(t: string)
    requires |t| == 22 && t[1..11] == "\"password\"" && t[11] == ':' && t[12] == '"'
    requires forall k :: 13 <= k < 20 ==> t[k] != '"'
    requires t[20] == '"'
    ensures MatchAt(CredentialPattern("password"), t, 1)
  {
    var p := CredentialPattern("password");
    var tail := [Star(NotDQuote), Lit("\"")];
    assert MatchAt([Lit("\"")], t, 20) by {
      assert t[20..21] == "\"";
    }
    assert MatchAt(tail, t, 20);
    assert MatchAt(tail, t, 19);
    assert MatchAt(tail, t, 18);
    assert MatchAt(tail, t, 17);
    assert MatchAt(tail, t, 16);
    assert MatchAt(tail, t, 15);
    assert MatchAt(tail, t, 14);
    assert MatchAt(p[5..], t, 13) by {
      assert p[5..] == [Plus(NotDQuote), Lit("\"")];
      assert [Star(NotDQuote)] + p[6..] == tail;
    }
    assert MatchAt(p[4..], t, 12) by {
      assert t[12..13] == "\"";
    }
    assert MatchAt(p[3..], t, 12);
    assert MatchAt(p[2..], t, 11) by {
      assert t[11..12] == ":";
    }
    assert MatchAt(p[1..], t, 11);
  }

  /** On a lower-case text lacking `e`, `u`, `c`, `i`, `m`, `t`, `k` and `l`, none of the
      S3 rules (the first eleven) fires: each needs one of those characters. */
  lemma S3RulesNeedMissingChars(t: string, r: RuleId)
    requires forall x :: x in t ==> !IsUpper(x)
    requires 'e' !in t && 'u' !in t && 'c' !in t && 'i' !in t
    requires 'm' !in t && 't' !in t && 'k' !in t && 'l' !in t
    ensures Rank(r) < 11 ==> !Fires(r, t)
  {
    match r
    case S3PublicAccess =>
      LeadBlocked([Lit("public-read")], t, 'u');
      LeadBlocked([Lit("publicread")], t, 'u');
      LeadBlocked(KeyValue("acl", [Lit("\"public-read\"")]), t, 'c');
      LeadBlocked(KeyValue("acl", [Lit("\"public\"")]), t, 'c');
    case S3VersioningDisabled =>
      MissingCharExcludes(t, "versioning", 'e');
    case S3EncryptionMissing =>
      MissingCharExcludes(t, "server-side-encryption", 'e');
    case S3BucketPolicyPublic =>
      LeadBlocked(PublicPrincipalPattern, t, 'i');
    case S3CorsOverlyPermissive =>
      MissingCharExcludes(t, "cors", 'c');
    case S3HttpsNotEnforced =>
      MissingCharExcludes(t, "\"action\"", 'c');
    case S3EncryptionNotRequired =>
      MissingCharExcludes(t, "s3:putobject", 'u');
      MissingCharExcludes(t, "s3:PutObject", 'u');
    case S3MfaNotRequired =>
      MissingCharExcludes(t, "s3:deleteobject", 'e');
      MissingCharExcludes(t, "s3:putobject", 'u');
      MissingCharExcludes(t, "taxdocuments", 't');
    case S3OverlyPermissiveActions =>
      MissingCharExcludes(t, "\"action\"", 'c');
    case S3NoIpRestriction | S3MissingExplicitDeny =>
      LeadBlocked(PublicPrincipalPattern, t, 'i');
      MissingCharExcludes(t, "\"principal\": \"*\"", 'i');
    case IamWildcardPermission | IamWeakPasswordPolicy | IamMfaNotEnabled
      | GcpOverprivilegedServiceAccount | GcpPublicBucket | GcpDefaultNetworkUsage
      | AzureNsgOpenAccess | AzureStoragePublicAccess | AzureKeyRotationMissing
      | HardcodedCredentials | LoggingDisabled =>
  }

  /** On the same kind of text, none of the IAM, GCP, Azure and logging rules fires. */
  lemma OtherRulesNeedMissingChars(t: string, r: RuleId)
    requires forall x :: x in t ==> !IsUpper(x)
    requires 'e' !in t && 'u' !in t && 'c' !in t && 'i' !in t
    requires 'm' !in t && 't' !in t && 'k' !in t && 'l' !in t
    ensures 11 <= Rank(r) && r != HardcodedCredentials ==> !Fires(r, t)
  {
    match r
    case IamWildcardPermission =>
      LeadBlocked(WildcardActionPattern, t, 'c');
    case IamWeakPasswordPolicy =>
      MissingCharExcludes(t, "passwordpolicy", 'l');
    case IamMfaNotEnabled =>
      MissingCharExcludes(t, "mfa", 'm');
    case GcpOverprivilegedServiceAccount =>
      LeadBlocked([Lit("roles/owner")], t, 'l');
      LeadBlocked([Lit("roles/editor")], t, 'l');
      LeadBlocked([Lit("roles/iam.securityadmin")], t, 'l');
    case GcpPublicBucket =>
      LeadBlocked([Lit("allusers")], t, 'l');
      LeadBlocked([Lit("allauthenticatedusers")], t, 'l');
      LeadBlocked(AllUsersMembersPattern, t, 'm');
    case GcpDefaultNetworkUsage =>
      MissingCharExcludes(t, "default", 'e');
    case AzureNsgOpenAccess =>
      MissingCharExcludes(t, "sourceaddressprefix", 'u');
    case AzureStoragePublicAccess =>
      MissingCharExcludes(t, "storageaccount", 't');
    case AzureKeyRotationMissing =>
      MissingCharExcludes(t, "keyvault", 'k');
    case LoggingDisabled =>
      MissingCharExcludes(t, "logging", 'l');
    case S3PublicAccess | S3VersioningDisabled | S3EncryptionMissing | S3BucketPolicyPublic
      | S3CorsOverlyPermissive | S3HttpsNotEnforced | S3EncryptionNotRequired
      | S3MfaNotRequired | S3OverlyPermissiveActions | S3NoIpRestriction
      | S3MissingExplicitDeny | HardcodedCredentials =>
  }

  /** Characters of the rule words that the text lacks. */
  lemma PasswordTextLacksEuci()
    ensures 'e' !in PasswordText && 'u' !in PasswordText
    ensures 'c' !in PasswordText && 'i' !in PasswordText
  {
  }

  lemma PasswordTextLacksMtkl()
    ensures 'm' !in PasswordText && 't' !in PasswordText
    ensures 'k' !in PasswordText && 'l' !in PasswordText
  {
  }

  /** Exactly one rule fires on `{"password":"p@ss123"}`: Hardcoded Credentials. */
  lemma PasswordFiresOnlyCredentials(r: RuleId)
    ensures Fires(r, PasswordText) <==> r == HardcodedCredentials
  {
    PasswordTextIsLower();
    if r == HardcodedCredentials {
      assert PasswordText[1..11] == "\"password\"";
      CredentialMatchesAt(PasswordText);
    } else {
      PasswordTextLacksEuci();
      PasswordTextLacksMtkl();
      S3RulesNeedMissingChars(PasswordText, r);
      OtherRulesNeedMissingChars(PasswordText, r);
    }
  }

  lemma FirstTwoDiffer(rules: seq<RuleId>)
    requires InSourceOrder(rules)
    ensures |rules| >= 2 ==> rules[0] != rules[1]
  {
  }

  /** A rule list in source order that holds exactly one rule is that rule alone. */
  lemma SoleRule(rules: seq<RuleId>, r0: RuleId)
    requires InSourceOrder(rules)
    requires forall r :: r in rules <==> r == r0
    ensures rules == [r0]
  {
    assert r0 in rules;
    forall i | 0 <= i < |rules|
      ensures rules[i] == r0
    {
      assert rules[i] in rules;
    }
    FirstTwoDiffer(rules);
  }

  /** When credentials are the only finding, the report holds that one Critical finding
      at the credentials location, and its risk level is Critical. */
  lemma OnlyCredentialsReport(doc: Doc, compact: string, pretty: string)
    requires forall r :: Fires(r, Lower(compact)) <==> r == HardcodedCredentials
    ensures Analysis(doc, compact, pretty) == Report(
      [Issue(HardcodedCredentials, Critical, LocationOf(HardcodedCredentials, doc, pretty))],
      [Summary(HardcodedCredentials)], Critical, 1, Breakdown(1, 0, 0, 0))
  {
    var text := Lower(compact);
    OnlyCredentialsFired(text);
    FindingsFollowFired(text, doc, pretty, AllRules);
    SummariesFollowFired(text, AllRules);
    var report := Analysis(doc, compact, pretty);
    var finding := Issue(HardcodedCredentials, Critical, LocationOf(HardcodedCredentials, doc, pretty));
    assert report.issues == [finding];
    assert report.misconfigs == [Summary(HardcodedCredentials)];
    OneCriticalBreakdown(finding);
  }

  /** When only the credentials rule fires, the blocks push exactly its finding. */
  lemma OnlyCredentialsFired(text: string)
    requires forall r :: Fires(r, text) <==> r == HardcodedCredentials
    ensures Fired(text, AllRules) == [HardcodedCredentials]
  {
    AllRulesInSourceOrder();
    FiredRules(text, AllRules);
    SoleRule(Fired(text, AllRules), HardcodedCredentials);
  }

  /** A lone Critical finding makes the breakdown one Critical and nothing else. */
  lemma OneCriticalBreakdown(finding: Issue)
    requires finding.severity == Critical
    ensures BreakdownOf([finding]) == Breakdown(1, 0, 0, 0)
  {
    assert [finding][..0] == [];
  }

  /** The first hint, `password`, is found in the key `password`. */
  lemma PasswordKeyIsHint()
    ensures KeyHit("password", LookupOf(HardcodedCredentials).hints)
  {
    var w := "password";
    LowerOfLower(w);
    assert OccursAt(Lower(w), Lower(LookupOf(HardcodedCredentials).hints[0]), 0);
  }

  /** `analyzeMisconfig({"password": "p@ss123"})` reports one Critical Hardcoded
      Credentials finding located at `password`, and rates the document Critical. */
  lemma PasswordDocumentReport(pretty: string)
    ensures Analysis(PasswordDoc, PasswordText, pretty) == Report(
      [Issue(HardcodedCredentials, Critical, "password")],
      [Summary(HardcodedCredentials)], Critical, 1, Breakdown(1, 0, 0, 0))
  {
    PasswordTextIsLower();
    forall r
      ensures Fires(r, Lower(PasswordText)) <==> r == HardcodedCredentials
    {
      PasswordFiresOnlyCredentials(r);
    }
    OnlyCredentialsReport(PasswordDoc, PasswordText, pretty);
    PasswordKeyIsHint();
    LocateFirstMember(PasswordDoc, LookupOf(HardcodedCredentials).hints, LookupOf(HardcodedCredentials).searchTerm, pretty);
  }
}
