/** The 22 misconfiguration rules of `analyzeMisconfig`: each is a trigger over the
    lower-cased compact serialisation of the document, plus the fixed finding it
    produces (kind, severity, description, recommendation, summary line) and the
    key hints and search term its location lookup uses. */
module Rules {
  import opened Text
  import opened Patterns

  datatype Level = Critical | High | Medium | Low

  /** The rules, named after the finding type each one reports. */
  datatype RuleId =
    | S3PublicAccess | S3VersioningDisabled | S3EncryptionMissing | S3BucketPolicyPublic
    | S3CorsOverlyPermissive | S3HttpsNotEnforced | S3EncryptionNotRequired | S3MfaNotRequired
    | S3OverlyPermissiveActions | S3NoIpRestriction | S3MissingExplicitDeny
    | IamWildcardPermission | IamWeakPasswordPolicy | IamMfaNotEnabled
    | GcpOverprivilegedServiceAccount | GcpPublicBucket | GcpDefaultNetworkUsage
    | AzureNsgOpenAccess | AzureStoragePublicAccess | AzureKeyRotationMissing
    | HardcodedCredentials | LoggingDisabled

  /** The order in which the rules are evaluated, which is the order of the findings. */
  const AllRules: seq<RuleId> := [
    S3PublicAccess, S3VersioningDisabled, S3EncryptionMissing, S3BucketPolicyPublic,
    S3CorsOverlyPermissive, S3HttpsNotEnforced, S3EncryptionNotRequired, S3MfaNotRequired,
    S3OverlyPermissiveActions, S3NoIpRestriction, S3MissingExplicitDeny,
    IamWildcardPermission, IamWeakPasswordPolicy, IamMfaNotEnabled,
    GcpOverprivilegedServiceAccount, GcpPublicBucket, GcpDefaultNetworkUsage,
    AzureNsgOpenAccess, AzureStoragePublicAccess, AzureKeyRotationMissing,
    HardcodedCredentials, LoggingDisabled]

  /** The position of a rule's block in the source. */
  function Rank(r: RuleId): nat {
    match r
    case S3PublicAccess => 0
    case S3VersioningDisabled => 1
    case S3EncryptionMissing => 2
    case S3BucketPolicyPublic => 3
    case S3CorsOverlyPermissive => 4
    case S3HttpsNotEnforced => 5
    case S3EncryptionNotRequired => 6
    case S3MfaNotRequired => 7
    case S3OverlyPermissiveActions => 8
    case S3NoIpRestriction => 9
    case S3MissingExplicitDeny => 10
    case IamWildcardPermission => 11
    case IamWeakPasswordPolicy => 12
    case IamMfaNotEnabled => 13
    case GcpOverprivilegedServiceAccount => 14
    case GcpPublicBucket => 15
    case GcpDefaultNetworkUsage => 16
    case AzureNsgOpenAccess => 17
    case AzureStoragePublicAccess => 18
    case AzureKeyRotationMissing => 19
    case HardcodedCredentials => 20
    case LoggingDisabled => 21
  }

  /** `AllRules` lists every rule once, in source order. */
  lemma AllRulesInSourceOrder()
    ensures forall k :: 0 <= k < |AllRules| ==> Rank(AllRules[k]) == k
    ensures forall r: RuleId :: r in AllRules
  {
    forall k | 0 <= k < |AllRules|
      ensures Rank(AllRules[k]) == k
    {
      assert k == 0 || k == 1 || k == 2 || k == 3 || k == 4 || k == 5 || k == 6 || k == 7 || k == 8 || k == 9 || k == 10 || k == 11 || k == 12 || k == 13 || k == 14 || k == 15 || k == 16 || k == 17 || k == 18 || k == 19 || k == 20 || k == 21;
    }
    forall r: RuleId
      ensures r in AllRules
    {
      assert AllRules[Rank(r)] == r;
    }
  }

  /** Hardcoded Credentials is the only Critical rule. */
  lemma OnlyCredentialsAreCritical(r: RuleId)
    ensures Severity(r) == Critical <==> r == HardcodedCredentials
  {
  }

  /** S3 Missing Explicit Deny is the only Low rule. */
  lemma OnlyExplicitDenyIsLow(r: RuleId)
    ensures Severity(r) == Low <==> r == S3MissingExplicitDeny
  {
  }

  /** The fixed texts of a rule's finding: its `type`, `description` and `recommendation`. */
  datatype Wording = Wording(kind: string, description: string, recommendation: string)

  /** The fixed severity of a rule's finding. */
  function Severity(r: RuleId): Level {
    match r
    case S3PublicAccess => High
    case S3VersioningDisabled => Medium
    case S3EncryptionMissing => High
    case S3BucketPolicyPublic => High
    case S3CorsOverlyPermissive => Medium
    case S3HttpsNotEnforced => High
    case S3EncryptionNotRequired => High
    case S3MfaNotRequired => Medium
    case S3OverlyPermissiveActions => High
    case S3NoIpRestriction => Medium
    case S3MissingExplicitDeny => Low
    case IamWildcardPermission => High
    case IamWeakPasswordPolicy => Medium
    case IamMfaNotEnabled => High
    case GcpOverprivilegedServiceAccount => High
    case GcpPublicBucket => High
    case GcpDefaultNetworkUsage => Medium
    case AzureNsgOpenAccess => High
    case AzureStoragePublicAccess => High
    case AzureKeyRotationMissing => Medium
    case HardcodedCredentials => Critical
    case LoggingDisabled => Medium
  }

  function WordingOf(r: RuleId): Wording {
    match r
    case S3PublicAccess => Wording("S3 Public Access",
      "S3 버킷이 public-read로 설정되어 있어 누구나 읽기 접근이 가능합니다.",
      "버킷 ACL을 private로 변경하고, 필요한 경우 버킷 정책으로 특정 사용자만 접근 허용하세요.")
    case S3VersioningDisabled => Wording("S3 Versioning Disabled",
      "S3 버킷 버전 관리가 비활성화되어 있어 실수로 삭제된 객체를 복구할 수 없습니다.",
      "버전 관리를 활성화하여 데이터 보호 및 복구 기능을 활용하세요.")
    case S3EncryptionMissing => Wording("S3 Encryption Missing",
      "S3 버킷에 서버 측 암호화가 설정되지 않았습니다.",
      "AES256 또는 AWS KMS를 사용한 서버 측 암호화를 활성화하세요.")
    case S3BucketPolicyPublic => Wording("S3 Bucket Policy Public",
      "S3 버킷 정책이 모든 주체(*)에게 접근을 허용합니다.",
      "Principal을 특정 IAM 사용자/역할로 제한하고, 필요한 액션만 허용하세요.")
    case S3CorsOverlyPermissive => Wording("S3 CORS Overly Permissive",
      "S3 CORS 설정이 모든 오리진(*)을 허용하고 있습니다.",
      "특정 도메인만 허용하도록 CORS 설정을 제한하세요.")
    case S3HttpsNotEnforced => Wording("S3 HTTPS Not Enforced",
      "S3 버킷 정책에 HTTPS 강제 조건이 없어 HTTP를 통한 비암호화 접근이 가능합니다.",
      "aws:SecureTransport 조건을 사용하여 HTTPS 연결만 허용하도록 정책을 수정하세요.")
    case S3EncryptionNotRequired => Wording("S3 Encryption Not Required",
      "S3 버킷 정책에 암호화 요구사항이 없어 암호화되지 않은 객체 업로드가 가능합니다.",
      "s3:x-amz-server-side-encryption 조건을 사용하여 SSE-KMS 또는 AES256 암호화를 필수로 요구하세요.")
    case S3MfaNotRequired => Wording("S3 MFA Not Required",
      "민감한 데이터에 대한 S3 작업에 MFA 요구사항이 없습니다.",
      "aws:MultiFactorAuthAge 조건을 사용하여 MFA 인증을 필수로 요구하세요.")
    case S3OverlyPermissiveActions => Wording("S3 Overly Permissive Actions",
      "S3 버킷 정책에 모든 S3 액션(s3:*)이 허용되어 있어 과도한 권한이 부여되었습니다.",
      "최소 권한 원칙에 따라 필요한 액션만 명시적으로 허용하세요 (예: s3:GetObject, s3:PutObject).")
    case S3NoIpRestriction => Wording("S3 No IP Restriction",
      "공개 접근이 허용된 S3 버킷에 IP 제한이 없어 전 세계 어디서나 접근이 가능합니다.",
      "aws:SourceIp 조건을 사용하여 허용된 IP 주소 범위만 접근할 수 있도록 제한하세요.")
    case S3MissingExplicitDeny => Wording("S3 Missing Explicit Deny",
      "공개 접근이 허용된 정책에 명시적 Deny 문이 없어 보안 제어가 약할 수 있습니다.",
      "명시적 Deny 문을 추가하여 특정 조건(예: HTTP, 비암호화)을 명확히 차단하세요.")
    case IamWildcardPermission => Wording("IAM Wildcard Permission",
      "IAM 정책에 모든 리소스(*)에 대한 모든 액션(*) 권한이 부여되어 있습니다.",
      "최소 권한 원칙에 따라 필요한 리소스와 액션만 명시적으로 허용하세요.")
    case IamWeakPasswordPolicy => Wording("IAM Weak Password Policy",
      "IAM 비밀번호 정책이 약합니다 (최소 길이 6자, 대문자/특수문자 불필요).",
      "최소 12자 이상, 대문자/소문자/숫자/특수문자 조합을 요구하는 강력한 비밀번호 정책을 설정하세요.")
    case IamMfaNotEnabled => Wording("IAM MFA Not Enabled",
      "IAM 사용자에게 MFA(다중 인증)가 활성화되지 않았습니다.",
      "모든 IAM 사용자에게 MFA를 필수로 설정하여 보안을 강화하세요.")
    case GcpOverprivilegedServiceAccount => Wording("GCP Overprivileged Service Account",
      "서비스 계정에 Owner, Editor 또는 Security Admin 역할이 부여되어 과도한 권한을 가지고 있습니다.",
      "최소 권한 원칙에 따라 필요한 역할만 부여하세요. Owner/Editor 대신 특정 서비스별 역할을 사용하세요.")
    case GcpPublicBucket => Wording("GCP Public Bucket",
      "GCP 스토리지 버킷이 모든 사용자(allUsers) 또는 인증된 사용자(allAuthenticatedUsers)에게 공개되어 있습니다.",
      "버킷 접근 권한을 특정 서비스 계정이나 IAM 역할로 제한하세요.")
    case GcpDefaultNetworkUsage => Wording("GCP Default Network Usage",
      "GCP 기본 네트워크를 사용하고 있어 보안 위험이 있습니다.",
      "커스텀 VPC 네트워크를 생성하여 사용하고, 기본 네트워크는 사용하지 마세요.")
    case AzureNsgOpenAccess => Wording("Azure NSG Open Access",
      "네트워크 보안 그룹(NSG)이 모든 IP(0.0.0.0/0)에서의 접근을 허용합니다.",
      "특정 IP 범위나 서브넷만 허용하도록 NSG 규칙을 제한하세요.")
    case AzureStoragePublicAccess => Wording("Azure Storage Public Access",
      "Azure 저장소 계정이 공개 접근을 허용하고 있습니다.",
      "allowBlobPublicAccess를 false로 설정하여 공개 접근을 차단하세요.")
    case AzureKeyRotationMissing => Wording("Azure Key Rotation Missing",
      "Azure Key Vault에 자동 키 로테이션이 설정되지 않았습니다.",
      "Key Vault에 자동 키 로테이션 정책을 설정하여 정기적으로 키를 갱신하세요.")
    case HardcodedCredentials => Wording("Hardcoded Credentials",
      "설정 파일에 하드코딩된 비밀번호, API 키 또는 자격 증명이 발견되었습니다.",
      "모든 자격 증명을 환경 변수, 시크릿 관리자 또는 Key Vault로 이동하세요.")
    case LoggingDisabled => Wording("Logging Disabled",
      "로깅이 비활성화되어 있어 보안 감사 및 모니터링이 불가능합니다.",
      "CloudTrail, Cloud Logging 또는 Monitor 로깅을 활성화하여 모든 활동을 기록하세요.")
  }

  /** The line a firing rule pushes onto `misconfigs`. */
  function Summary(r: RuleId): string {
    match r
    case S3PublicAccess => "S3 버킷이 public-read로 설정됨"
    case S3VersioningDisabled => "S3 버킷 버전 관리가 비활성화됨"
    case S3EncryptionMissing => "S3 버킷 암호화가 설정되지 않음"
    case S3BucketPolicyPublic => "S3 버킷 정책이 모든 주체에 접근 허용"
    case S3CorsOverlyPermissive => "S3 CORS가 모든 오리진을 허용"
    case S3HttpsNotEnforced => "S3 버킷 정책에 HTTPS 강제 조건 없음"
    case S3EncryptionNotRequired => "S3 버킷 정책에 암호화 요구사항 없음"
    case S3MfaNotRequired => "S3 버킷 정책에 MFA 요구사항 없음"
    case S3OverlyPermissiveActions => "S3 버킷 정책에 과도한 권한(s3:*) 부여"
    case S3NoIpRestriction => "S3 버킷 정책에 IP 제한 없음"
    case S3MissingExplicitDeny => "S3 버킷 정책에 명시적 Deny 문 없음"
    case IamWildcardPermission => "IAM 정책에 *:* 권한이 부여됨"
    case IamWeakPasswordPolicy => "IAM 비밀번호 정책이 약함"
    case IamMfaNotEnabled => "IAM MFA가 활성화되지 않음"
    case GcpOverprivilegedServiceAccount => "GCP 서비스 계정에 과도한 권한 부여"
    case GcpPublicBucket => "GCP 버킷이 공개적으로 접근 가능"
    case GcpDefaultNetworkUsage => "GCP 기본 네트워크 사용"
    case AzureNsgOpenAccess => "NSG가 0.0.0.0/0에서 접근 허용"
    case AzureStoragePublicAccess => "Azure 저장소 계정이 공개 접근 허용"
    case AzureKeyRotationMissing => "Azure 키 로테이션이 설정되지 않음"
    case HardcodedCredentials => "하드코딩된 자격 증명 발견"
    case LoggingDisabled => "로깅이 비활성화됨"
  }

  /** The key hints and the search term a firing rule hands to the location lookup. */
  datatype Lookup = Lookup(hints: seq<string>, searchTerm: string)

  function LookupOf(r: RuleId): Lookup {
    match r
    case S3PublicAccess => Lookup(["ACL", "acl"], "public-read")
    case S3VersioningDisabled => Lookup(["Versioning", "versioning"], "suspended")
    case S3EncryptionMissing => Lookup(["ServerSideEncryption", "server-side-encryption"], "encryption")
    case S3BucketPolicyPublic => Lookup(["Statement", "Principal"], "*")
    case S3CorsOverlyPermissive => Lookup(["CORS", "cors"], "allowedorigins")
    case S3HttpsNotEnforced => Lookup(["Statement", "Condition"], "SecureTransport")
    case S3EncryptionNotRequired => Lookup(["Statement", "Action"], "PutObject")
    case S3MfaNotRequired => Lookup(["Statement", "Condition"], "MultiFactorAuthAge")
    case S3OverlyPermissiveActions => Lookup(["Statement", "Action"], "s3:*")
    case S3NoIpRestriction => Lookup(["Statement", "Condition"], "SourceIp")
    case S3MissingExplicitDeny => Lookup(["Statement"], "Deny")
    case IamWildcardPermission => Lookup(["Statement", "Action"], "*")
    case IamWeakPasswordPolicy => Lookup(["PasswordPolicy", "passwordpolicy"], "password")
    case IamMfaNotEnabled => Lookup(["MFADevices", "mfa"], "mfa")
    case GcpOverprivilegedServiceAccount => Lookup(["bindings", "role"], "roles/owner")
    case GcpPublicBucket => Lookup(["bindings", "members"], "allUsers")
    case GcpDefaultNetworkUsage => Lookup(["network", "networkConfig"], "default")
    case AzureNsgOpenAccess => Lookup(["properties", "securityRules", "sourceAddressPrefix"], "0.0.0.0")
    case AzureStoragePublicAccess => Lookup(["properties", "allowBlobPublicAccess"], "true")
    case AzureKeyRotationMissing => Lookup(["properties", "rotationPolicy"], "rotation")
    case HardcodedCredentials => Lookup(["password", "secret", "apiKey", "accessKey"], "credential")
    case LoggingDisabled => Lookup(["Logging", "logging"], "disabled")
  }

  // ---------- the regular expressions, token by token ----------

  /** `"key"\s*:\s*` followed by `value`. */
  function KeyValue(key: string, value: Pattern): Pattern {
    [Lit("\"" + key + "\""), Star(Space), Lit(":"), Star(Space)] + value
  }

  /** `"key"\s*:\s*["']?word["']?` */
  function LooseKeyValue(key: string, word: string): Pattern {
    KeyValue(key, [Opt(Quote), Lit(word), Opt(Quote)])
  }

  /** `/"effect"\s*:\s*["']?allow["']?/i` */
  const AllowEffectPattern: Pattern := LooseKeyValue("effect", "allow")
  /** `/"principal"\s*:\s*["']?\*["']?/i` */
  const PublicPrincipalPattern: Pattern := LooseKeyValue("principal", "*")
  /** `/"action"\s*:\s*["']?\*["']?/i` */
  const WildcardActionPattern: Pattern := LooseKeyValue("action", "*")
  /** `/"resource"\s*:\s*["']?\*["']?/i` */
  const WildcardResourcePattern: Pattern := LooseKeyValue("resource", "*")

  /** `/"key"\s*:\s*"[^"]+"/i`: the key holds a non-empty string. */
  function CredentialPattern(key: string): Pattern {
    KeyValue(key, [Lit("\""), Plus(NotDQuote), Lit("\"")])
  }

  /** `/"members":\s*\[\s*"allusers"\s*\]/i` */
  const AllUsersMembersPattern: Pattern :=
    [Lit("\"members\":"), Star(Space), Lit("["), Star(Space), Lit("\"allusers\""), Star(Space), Lit("]")]

  // ---------- the shared sub-conditions ----------

  predicate AllowEffect(t: string) { Test(AllowEffectPattern, t) }

  predicate HasPublicAccess(t: string) {
    Test(PublicPrincipalPattern, t) || Contains(t, "\"principal\": \"*\"")
  }

  /** Whether rule `r` fires on the lower-cased serialisation `t`. Every literal is kept
      as written, including those with `": "` and those with upper-case letters. */
  predicate Fires(r: RuleId, t: string) {
    match r
    case S3PublicAccess =>
      || Test([Lit("public-read")], t) || Test([Lit("publicread")], t)
      || Test(KeyValue("acl", [Lit("\"public-read\"")]), t)
      || Test(KeyValue("acl", [Lit("\"public\"")]), t)
    case S3VersioningDisabled =>
      Contains(t, "versioning")
      && (Contains(t, "\"status\": \"suspended\"") || Contains(t, "\"enabled\": false"))
    case S3EncryptionMissing =>
      Contains(t, "server-side-encryption")
      && (Contains(t, "\"ssealgorithm\": \"none\"") || (!Contains(t, "aes256") && !Contains(t, "aws:kms")))
    case S3BucketPolicyPublic =>
      Test(PublicPrincipalPattern, t) && AllowEffect(t)
    case S3CorsOverlyPermissive =>
      Contains(t, "cors")
      && (Contains(t, "\"allowedorigins\": [\"*\"]") || Contains(t, "\"allowedorigins\": \"*\""))
    case S3HttpsNotEnforced =>
      var hasS3Statements := Contains(t, "\"action\"")
        && (Contains(t, "s3:") || (Contains(t, "\"resource\"") && Contains(t, "s3:::")));
      var hasSecureTransport := Contains(t, "aws:securetransport") || Contains(t, "\"securetransport\"");
      hasS3Statements && !hasSecureTransport && AllowEffect(t)
    case S3EncryptionNotRequired =>
      var hasPutObject := Contains(t, "s3:putobject") || Contains(t, "s3:PutObject");
      var hasEncryptionCondition :=
        Contains(t, "s3:x-amz-server-side-encryption") || Contains(t, "server-side-encryption");
      hasPutObject && !hasEncryptionCondition && AllowEffect(t)
    case S3MfaNotRequired =>
      var hasSensitiveActions :=
        Contains(t, "s3:deleteobject") || Contains(t, "s3:putobject") || Contains(t, "taxdocuments");
      var hasMfa := Contains(t, "aws:multifactorauthage") || Contains(t, "MultiFactorAuthAge");
      hasSensitiveActions && !hasMfa && AllowEffect(t)
    case S3OverlyPermissiveActions =>
      Contains(t, "\"action\"") && (Contains(t, "\"s3:*\"") || Contains(t, "\"action\": \"*\""))
      && AllowEffect(t)
    case S3NoIpRestriction =>
      var hasIpRestriction := Contains(t, "aws:sourceip") || Contains(t, "IpAddress");
      HasPublicAccess(t) && !hasIpRestriction && AllowEffect(t)
    case S3MissingExplicitDeny =>
      var hasDenyStatement := Contains(t, "\"effect\": \"deny\"") || Contains(t, "\"Effect\": \"Deny\"");
      HasPublicAccess(t) && !hasDenyStatement
    case IamWildcardPermission =>
      Test(WildcardActionPattern, t) && Test(WildcardResourcePattern, t) && AllowEffect(t)
    case IamWeakPasswordPolicy =>
      Contains(t, "passwordpolicy")
      && (|| Contains(t, "\"minimumpasswordlength\": 6")
          || Contains(t, "\"requireuppercasecharacters\": false")
          || Contains(t, "\"requiresymbols\": false"))
    case IamMfaNotEnabled =>
      Contains(t, "mfa") && (Contains(t, "\"mfadevices\": []") || Contains(t, "\"mfaenabled\": false"))
    case GcpOverprivilegedServiceAccount =>
      Test([Lit("roles/owner")], t) || Test([Lit("roles/editor")], t)
      || Test([Lit("roles/iam.securityadmin")], t)
    case GcpPublicBucket =>
      Test([Lit("allusers")], t) || Test([Lit("allauthenticatedusers")], t)
      || Test(AllUsersMembersPattern, t)
    case GcpDefaultNetworkUsage =>
      Contains(t, "default") && Contains(t, "network")
    case AzureNsgOpenAccess =>
      (|| Test([Lit("0.0.0.0/0")], t) || Test([Lit("0.0.0.0-255.255.255.255")], t)
       || Test([Lit("\"*\"")], t))
      && Contains(t, "sourceaddressprefix")
    case AzureStoragePublicAccess =>
      Contains(t, "storageaccount")
      && (Contains(t, "\"allowblobpublicaccess\": true") || Contains(t, "\"publicaccess\": \"blob\""))
    case AzureKeyRotationMissing =>
      Contains(t, "keyvault") && !Contains(t, "rotation") && !Contains(t, "automatic")
    case HardcodedCredentials =>
      || Test(CredentialPattern("password"), t) || Test(CredentialPattern("secret"), t)
      || Test(CredentialPattern("apikey"), t) || Test(CredentialPattern("accesskey"), t)
    case LoggingDisabled =>
      Contains(t, "logging") && (Contains(t, "\"enabled\": false") || Contains(t, "\"status\": \"disabled\""))
  }

  /** The four upper-case alternatives (`s3:PutObject`, `MultiFactorAuthAge`, `IpAddress`,
      `"Effect": "Deny"`) are searched for in lower-cased text, where they never occur. */
  lemma UpperCaseAlternativesNeverMatch(s: string)
    ensures !Contains(Lower(s), "s3:PutObject")
    ensures !Contains(Lower(s), "MultiFactorAuthAge")
    ensures !Contains(Lower(s), "IpAddress")
    ensures !Contains(Lower(s), "\"Effect\": \"Deny\"")
  {
    LowerExcludesUpper(s, "s3:PutObject", 3);
    LowerExcludesUpper(s, "MultiFactorAuthAge", 0);
    LowerExcludesUpper(s, "IpAddress", 0);
    LowerExcludesUpper(s, "\"Effect\": \"Deny\"", 1);
  }

  /** Every trigger needs a literal of at least three characters, so a serialisation
      shorter than that (`{}`, `[]`, a one- or two-digit number) fires no rule. */
  lemma ShortTextFiresNothing(r: RuleId, t: string)
    requires |t| < 3
    ensures !Fires(r, t)
  {
    ShortTextMissesLongLeads(t);
    ShortTextFiresNoS3Rule(r, t);
    ShortTextFiresNoOtherRule(r, t);
  }

  lemma ShortTextFiresNoS3Rule(r: RuleId, t: string)
    requires |t| < 3
    requires forall p: Pattern :: p != [] && p[0].Lit? && |p[0].text| >= 3 ==> !Test(p, t)
    ensures Rank(r) < 11 ==> !Fires(r, t)
  {
    match r
    case S3PublicAccess | S3VersioningDisabled | S3EncryptionMissing | S3BucketPolicyPublic
      | S3CorsOverlyPermissive | S3HttpsNotEnforced =>
    case S3EncryptionNotRequired | S3MfaNotRequired
      | S3OverlyPermissiveActions | S3NoIpRestriction | S3MissingExplicitDeny =>
    case _ =>
  }

  lemma ShortTextFiresNoOtherRule(r: RuleId, t: string)
    requires |t| < 3
    requires forall p: Pattern :: p != [] && p[0].Lit? && |p[0].text| >= 3 ==> !Test(p, t)
    ensures Rank(r) >= 11 ==> !Fires(r, t)
  {
    match r
    case IamWildcardPermission | IamWeakPasswordPolicy | IamMfaNotEnabled
      | GcpOverprivilegedServiceAccount | GcpPublicBucket | GcpDefaultNetworkUsage =>
    case AzureNsgOpenAccess | AzureStoragePublicAccess | AzureKeyRotationMissing
      | HardcodedCredentials | LoggingDisabled =>
    case _ =>
  }

  /** No expression led by a literal of three or more characters matches a shorter text. */
  lemma ShortTextMissesLongLeads(t: string)
    requires |t| < 3
    ensures forall p: Pattern :: p != [] && p[0].Lit? && |p[0].text| >= 3 ==> !Test(p, t)
  {
    forall p: Pattern | p != [] && p[0].Lit? && |p[0].text| >= 3
      ensures !Test(p, t)
    {
      if Test(p, t) {
        TestNeedsLead(p, t);
      }
    }
  }
}
