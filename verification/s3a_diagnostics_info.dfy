/**
 * S3ADiagnosticsInfo: the description of the S3A connector used by the store
 * diagnostics. It holds the table of options worth reporting, the
 * environment variables and classes of interest, the rule that derives the
 * endpoints to probe from the configuration, and the connector's own
 * configuration validation (buffer directory and encryption settings).
 *
 * The descriptor's only state is the filesystem URI it was built from; its
 * host (null in Java when the URI has no server-based authority) is passed to
 * the operations that read it. URIs are strings.
 */
module S3ADiagnostics {
  import opened Results
  import opened JavaStrings
  import opened Configuration
  import opened StoreEntry

  // Configuration options read by the connector description.
  const ENDPOINT := "fs.s3a.endpoint"
  const DEFAULT_ENDPOINT := "s3.amazonaws.com"
  const PATH_STYLE_ACCESS := "fs.s3a.path.style.access"
  const SECURE_CONNECTIONS := "fs.s3a.connection.ssl.enabled"
  const ASSUMED_ROLE_STS_ENDPOINT := "fs.s3a.assumed.role.sts.endpoint"
  const BUFFER_DIR := "fs.s3a.buffer.dir"
  const HADOOP_TMP_DIR := "hadoop.tmp.dir"
  const SERVER_SIDE_ENCRYPTION_ALGORITHM := "fs.s3a.server-side-encryption-algorithm"
  const SERVER_SIDE_ENCRYPTION_KEY := "fs.s3a.server-side-encryption.key"

  /** The EC2 instance metadata service, probed on a best-effort basis. */
  const METADATA_ENDPOINT := "http://169.254.169.254"

  /** The prefix of a fully qualified KMS key reference. */
  const KMS_KEY_PREFIX := "arn:aws:kms:"

  const NAME := "S3A FileSystem connector"
  const DESCRIPTION := "ASF Filesystem Connector to Amazon S3 Storage and compatible stores"
  const HOMEPAGE := "https://hadoop.apache.org/docs/current/hadoop-aws/tools/hadoop-aws/index.html"

  /** Failures the connector description can raise. */
  datatype Failure =
    | NullHost                         // NullPointerException: the filesystem URI has no host
    | IllegalState(message: string)    // IllegalStateException from checkState
    | IOFailure(message: string)       // IOException from a collaborator

  // ---------------------------------------------------------------------
  // Static tables

  /** A row of the option table: the key, whether it is sensitive, whether it is always redacted. */
  datatype ConfigOption = ConfigOption(key: string, sensitive: bool, alwaysRedact: bool)

  /** A row of the environment-variable table: the name and whether it is sensitive. */
  datatype EnvVar = EnvVar(name: string, sensitive: bool)

  /** Credentials, encryption, proxy, connection and buffering. */
  const GENERAL_OPTIONS: seq<ConfigOption> := [
    ConfigOption("fs.s3a.access.key", true, false),
    ConfigOption("fs.s3a.secret.key", true, true),
    ConfigOption("fs.s3a.session.token", true, true),
    ConfigOption("fs.s3a.server-side-encryption-algorithm", true, false),
    ConfigOption("fs.s3a.server-side-encryption.key", true, true),
    ConfigOption("fs.s3a.aws.credentials.provider", false, false),
    ConfigOption("fs.s3a.proxy.host", false, false),
    ConfigOption("fs.s3a.proxy.port", false, false),
    ConfigOption("fs.s3a.proxy.username", false, false),
    ConfigOption("fs.s3a.proxy.password", true, true),
    ConfigOption("fs.s3a.proxy.domain", false, false),
    ConfigOption("fs.s3a.proxy.workstation", false, false),
    ConfigOption("fs.s3a.connection.ssl.enabled", false, false),
    ConfigOption("fs.s3a.connection.maximum", false, false),
    ConfigOption("fs.s3a.multipart.size", false, false),
    ConfigOption("fs.s3a.buffer.dir", false, false),
    ConfigOption("fs.s3a.block.size", false, false)
  ]

  /** Signing, upload and thread-pool tuning. */
  const TUNING_OPTIONS: seq<ConfigOption> := [
    ConfigOption("fs.s3a.signing-algorithm", false, false),
    ConfigOption("fs.s3a.fast.upload.buffer", false, false),
    ConfigOption("fs.s3a.fast.upload.active.blocks", false, false),
    ConfigOption("fs.s3a.experimental.input.fadvise", false, false),
    ConfigOption("fs.s3a.user.agent.prefix", false, false),
    ConfigOption("fs.s3a.threads.max", false, false),
    ConfigOption("fs.s3a.threads.keepalivetime", false, false),
    ConfigOption("fs.s3a.max.total.tasks", false, false)
  ]

  /** Assumed role. */
  const ASSUMED_ROLE_OPTIONS: seq<ConfigOption> := [
    ConfigOption("fs.s3a.assumed.role.arn", false, false),
    ConfigOption("fs.s3a.assumed.role.sts.endpoint", false, false),
    ConfigOption("fs.s3a.assumed.role.sts.endpoint.region", false, false),
    ConfigOption("fs.s3a.assumed.role.session.name", false, false),
    ConfigOption("fs.s3a.assumed.role.session.duration", false, false),
    ConfigOption("fs.s3a.assumed.role.credentials.provider", false, false),
    ConfigOption("fs.s3a.assumed.role.policy", false, false)
  ]

  /** S3Guard. */
  const S3GUARD_OPTIONS: seq<ConfigOption> := [
    ConfigOption("fs.s3a.metadatastore.impl", false, false),
    ConfigOption("fs.s3a.metadatastore.authoritative", false, false),
    ConfigOption("fs.s3a.s3guard.ddb.table", false, false),
    ConfigOption("fs.s3a.s3guard.ddb.region", false, false),
    ConfigOption("fs.s3a.s3guard.ddb.table.create", false, false),
    ConfigOption("fs.s3a.s3guard.ddb.max.retries", false, false),
    ConfigOption("fs.s3a.s3guard.ddb.background.sleep", false, false)
  ]

  /** Committers. */
  const COMMITTER_OPTIONS: seq<ConfigOption> := [
    ConfigOption("fs.s3a.committer.magic.enabled", false, false),
    ConfigOption("fs.s3a.committer.staging.tmp.path", false, false),
    ConfigOption("fs.s3a.committer.threads", false, false),
    ConfigOption("mapreduce.outputcommitter.factory.scheme.s3a", false, false),
    ConfigOption("fs.s3a.committer.name", false, false),
    ConfigOption("fs.s3a.committer.staging.conflict-mode", false, false)
  ]

  /** Checksums and retries. */
  const MISC_OPTIONS: seq<ConfigOption> := [
    ConfigOption("fs.s3a.etag.checksum.enabled", false, false),
    ConfigOption("fs.s3a.retry.interval", false, false),
    ConfigOption("fs.s3a.retry.throttle.limit", false, false),
    ConfigOption("fs.s3a.retry.throttle.interval", false, false),
    ConfigOption("fs.s3a.attempts.maximum", false, false)
  ]

  /** Delegation tokens. */
  const DELEGATION_OPTIONS: seq<ConfigOption> := [
    ConfigOption("fs.s3a.delegation.token.binding", false, false)
  ]

  /** The options reported for S3A, in display order, ended by an entry with an empty key. */
  const OPTIONS: seq<ConfigOption> :=
    GENERAL_OPTIONS + TUNING_OPTIONS + ASSUMED_ROLE_OPTIONS + S3GUARD_OPTIONS
    + COMMITTER_OPTIONS + MISC_OPTIONS + DELEGATION_OPTIONS + [ConfigOption("", false, false)]

  /** The environment variables reported for S3A. */
  const ENV_VARS: seq<EnvVar> := [
    EnvVar("AWS_ACCESS_KEY_ID", false),
    EnvVar("AWS_SECRET_ACCESS_KEY", true),
    EnvVar("AWS_SESSION_TOKEN", true)
  ]

  /** Classes that must be on the classpath. */
  const CLASSNAMES: seq<string> := [
    "org.apache.hadoop.fs.s3a.S3AFileSystem",
    "com.amazonaws.services.s3.AmazonS3",
    "com.amazonaws.ClientConfiguration"
  ]

  /** Classes whose absence is only reported; the list ends with an empty name. */
  const OPTIONAL_CLASSNAMES: seq<string> := [
    "com.amazonaws.services.dynamodbv2.AmazonDynamoDB",
    "com.amazonaws.services.securitytoken.AWSSecurityTokenServiceClient",
    "com.fasterxml.jackson.annotation.JacksonAnnotation",
    "com.fasterxml.jackson.core.JsonParseException",
    "com.fasterxml.jackson.databind.ObjectMapper",
    "org.joda.time.Interval",
    "org.apache.hadoop.fs.s3a.s3guard.S3Guard",
    "org.apache.hadoop.fs.s3a.commit.staging.StagingCommitter",
    "org.apache.hadoop.fs.s3a.auth.AssumedRoleCredentialProvider",
    "com.amazonaws.services.s3.model.SelectObjectContentRequest",
    "org.apache.hadoop.fs.s3a.auth.delegation.S3ADelegationTokens",
    "org.apache.knox.gateway.shell.knox.token.Token",
    "org.apache.commons.configuration.Configuration",
    "org.apache.hadoop.fs.s3a.select.SelectInputStream",
    ""
  ]

  /** Every always-redacted option is also marked sensitive. */
  predicate RedactedAreSensitive(options: seq<ConfigOption>) {
    forall i :: 0 <= i < |options| ==> options[i].alwaysRedact ==> options[i].sensitive
  }

  /** No option of the sequence has the empty key. */
  predicate KeysNonEmpty(options: seq<ConfigOption>) {
    forall i :: 0 <= i < |options| ==> options[i].key != ""
  }

  /** Only the last entry of a table has an empty key: it terminates the table. */
  predicate EmptyKeyTerminated(options: seq<ConfigOption>) {
    |options| > 0 && options[|options| - 1].key == "" && KeysNonEmpty(options[..|options| - 1])
  }

  lemma RedactedAreSensitiveAppend(a: seq<ConfigOption>, b: seq<ConfigOption>)
    requires RedactedAreSensitive(a) && RedactedAreSensitive(b)
    ensures RedactedAreSensitive(a + b)
  {
    forall i | 0 <= i < |a + b| ensures (a + b)[i].alwaysRedact ==> (a + b)[i].sensitive {
      if i >= |a| {
        assert (a + b)[i] == b[i - |a|];
      }
    }
  }

  lemma KeysNonEmptyAppend(a: seq<ConfigOption>, b: seq<ConfigOption>)
    requires KeysNonEmpty(a) && KeysNonEmpty(b)
    ensures KeysNonEmpty(a + b)
  {
    forall i | 0 <= i < |a + b| ensures (a + b)[i].key != "" {
      if i >= |a| {
        assert (a + b)[i] == b[i - |a|];
      }
    }
  }

  /** The general options: none always redacted without being sensitive, none with an empty key. */
  lemma GeneralOptionsWellFormed()
    ensures RedactedAreSensitive(GENERAL_OPTIONS) && KeysNonEmpty(GENERAL_OPTIONS)
  {
  }

  lemma TuningRoleGuardOptionsWellFormed()
    ensures RedactedAreSensitive(TUNING_OPTIONS) && KeysNonEmpty(TUNING_OPTIONS)
    ensures RedactedAreSensitive(ASSUMED_ROLE_OPTIONS) && KeysNonEmpty(ASSUMED_ROLE_OPTIONS)
    ensures RedactedAreSensitive(S3GUARD_OPTIONS) && KeysNonEmpty(S3GUARD_OPTIONS)
  {
  }

  lemma CommitterMiscDelegationOptionsWellFormed()
    ensures RedactedAreSensitive(COMMITTER_OPTIONS) && KeysNonEmpty(COMMITTER_OPTIONS)
    ensures RedactedAreSensitive(MISC_OPTIONS) && KeysNonEmpty(MISC_OPTIONS)
    ensures RedactedAreSensitive(DELEGATION_OPTIONS) && KeysNonEmpty(DELEGATION_OPTIONS)
  {
  }

  /**
   * The S3A option table holds 52 entries, is terminated by its only empty
   * key, and every option it always redacts is one it marks sensitive.
   */
  lemma OptionTableWellFormed()
    ensures |OPTIONS| == 52
    ensures RedactedAreSensitive(OPTIONS)
    ensures EmptyKeyTerminated(OPTIONS)
  {
    // Each group satisfies both properties on its own; appending keeps them.
    GeneralOptionsWellFormed();
    TuningRoleGuardOptionsWellFormed();
    CommitterMiscDelegationOptionsWellFormed();
    var s1 := GENERAL_OPTIONS + TUNING_OPTIONS;
    RedactedAreSensitiveAppend(GENERAL_OPTIONS, TUNING_OPTIONS);
    KeysNonEmptyAppend(GENERAL_OPTIONS, TUNING_OPTIONS);
    var s2 := s1 + ASSUMED_ROLE_OPTIONS;
    RedactedAreSensitiveAppend(s1, ASSUMED_ROLE_OPTIONS);
    KeysNonEmptyAppend(s1, ASSUMED_ROLE_OPTIONS);
    var s3 := s2 + S3GUARD_OPTIONS;
    RedactedAreSensitiveAppend(s2, S3GUARD_OPTIONS);
    KeysNonEmptyAppend(s2, S3GUARD_OPTIONS);
    var s4 := s3 + COMMITTER_OPTIONS;
    RedactedAreSensitiveAppend(s3, COMMITTER_OPTIONS);
    KeysNonEmptyAppend(s3, COMMITTER_OPTIONS);
    var s5 := s4 + MISC_OPTIONS;
    RedactedAreSensitiveAppend(s4, MISC_OPTIONS);
    KeysNonEmptyAppend(s4, MISC_OPTIONS);
    var s6 := s5 + DELEGATION_OPTIONS;
    RedactedAreSensitiveAppend(s5, DELEGATION_OPTIONS);
    KeysNonEmptyAppend(s5, DELEGATION_OPTIONS);
    RedactedAreSensitiveAppend(s6, [ConfigOption("", false, false)]);
    assert OPTIONS[..|OPTIONS| - 1] == s6;
  }

  /** The secret environment variables are the only sensitive ones. */
  lemma EnvVarTableSensitivity()
    ensures forall i :: 0 <= i < |ENV_VARS| ==>
      (ENV_VARS[i].sensitive <==> ENV_VARS[i].name != "AWS_ACCESS_KEY_ID")
  {
  }

  // ---------------------------------------------------------------------
  // Endpoints to probe

  /** The trimmed endpoint option, or the default AWS endpoint when unset. */
  function Endpoint(conf: Conf): string {
    GetTrimmed(conf, ENDPOINT, DEFAULT_ENDPOINT)
  }

  /** The endpoint is the option with its blanks trimmed, and s3.amazonaws.com when the option is unset. */
  lemma EndpointFollowsOption(conf: Conf)
    ensures ENDPOINT !in conf ==> Endpoint(conf) == DEFAULT_ENDPOINT
    ensures ENDPOINT in conf ==> Endpoint(conf) == Trim(conf[ENDPOINT])
  {
  }

  /** A bucket with a dot is taken to be a full host name; otherwise it is prefixed to the endpoint. */
  function Fqdn(bucket: string, endpoint: string): string {
    if '.' in bucket then bucket else bucket + "." + endpoint
  }

  /**
   * The full name of a bucket starts with the bucket and holds a dot: it is the
   * bucket itself when that has a dot, else the bucket, a dot and the endpoint.
   */
  lemma FqdnShape(bucket: string, endpoint: string)
    ensures var fqdn := Fqdn(bucket, endpoint);
      && |bucket| <= |fqdn| && fqdn[..|bucket|] == bucket
      && '.' in fqdn
      && ('.' in bucket ==> fqdn == bucket)
      && ('.' !in bucket ==> fqdn[|bucket|] == '.' && fqdn[|bucket| + 1..] == endpoint)
  {
    var fqdn := Fqdn(bucket, endpoint);
    if '.' !in bucket {
      assert fqdn[|bucket|] == '.';
      assert fqdn[|bucket| + 1..] == endpoint;
    }
  }

  /** Path-style access, off by default. */
  predicate PathStyleAccess(conf: Conf) {
    GetBoolean(conf, PATH_STYLE_ACCESS, false)
  }

  /** Path-style access is on exactly when the option is set and reads "true" in any case. */
  lemma PathStyleFollowsFlag(conf: Conf)
    ensures PathStyleAccess(conf) <==>
      PATH_STYLE_ACCESS in conf && ToLowerAscii(Trim(conf[PATH_STYLE_ACCESS])) == "true"
  {
    GetBooleanReadsText(conf, PATH_STYLE_ACCESS, false);
  }

  /** "https" unless SSL has been switched off. */
  function Scheme(conf: Conf): string {
    if GetBoolean(conf, SECURE_CONNECTIONS, true) then "https" else "http"
  }

  /** The host of the bucket URI: the endpoint under path-style access, else the bucket's full name. */
  function Host(conf: Conf, bucket: string): string {
    if PathStyleAccess(conf) then Endpoint(conf) else Fqdn(bucket, Endpoint(conf))
  }

  /** The path of the bucket URI after its first "/": the bucket under path-style access, else empty. */
  function Path(conf: Conf, bucket: string): string {
    if PathStyleAccess(conf) then bucket else ""
  }

  /**
   * The URI of the bucket. Its host comes from the bucket name, the endpoint
   * option or the default endpoint, and from nothing else: path-style puts the
   * bucket in the path under the endpoint; virtual-hosted addressing uses a
   * dotted bucket as the host on its own and a plain one as a sub-domain of
   * the endpoint.
   */
  function BucketUri(conf: Conf, bucket: string): (uri: string)
    ensures PathStyleAccess(conf) ==>
      uri == Scheme(conf) + "://" + Endpoint(conf) + "/" + bucket
    ensures !PathStyleAccess(conf) && '.' in bucket ==>
      uri == Scheme(conf) + "://" + bucket + "/"
    ensures !PathStyleAccess(conf) && '.' !in bucket ==>
      uri == Scheme(conf) + "://" + (bucket + "." + Endpoint(conf)) + "/"
  {
    Scheme(conf) + "://" + Host(conf, bucket) + "/" + Path(conf, bucket)
  }

  /** The scheme is https or http, the latter only when SSL was explicitly switched off. */
  lemma SchemeFollowsSslFlag(conf: Conf)
    ensures Scheme(conf) == "https" || Scheme(conf) == "http"
    ensures Scheme(conf) == "http" <==>
      SECURE_CONNECTIONS in conf && ToLowerAscii(Trim(conf[SECURE_CONNECTIONS])) == "false"
  {
    GetBooleanReadsText(conf, SECURE_CONNECTIONS, true);
  }

  /** With virtual-hosted addressing, the endpoint option does not matter for a dotted bucket. */
  lemma DottedBucketIgnoresEndpoint(conf: Conf, bucket: string, endpoint: string)
    requires '.' in bucket && !PathStyleAccess(conf)
    ensures BucketUri(conf[ENDPOINT := endpoint], bucket) == BucketUri(conf, bucket)
  {
    GetBooleanOfOtherKey(conf, PATH_STYLE_ACCESS, ENDPOINT, endpoint, false);
    GetBooleanOfOtherKey(conf, SECURE_CONNECTIONS, ENDPOINT, endpoint, true);
  }

  /** With path-style addressing, the endpoint option is always the host, even for a dotted bucket. */
  lemma PathStyleUsesEndpoint(conf: Conf, bucket: string, endpoint: string)
    requires PathStyleAccess(conf)
    ensures BucketUri(conf[ENDPOINT := endpoint], bucket)
         == Scheme(conf) + "://" + Trim(endpoint) + "/" + bucket
  {
    GetBooleanOfOtherKey(conf, PATH_STYLE_ACCESS, ENDPOINT, endpoint, false);
    GetBooleanOfOtherKey(conf, SECURE_CONNECTIONS, ENDPOINT, endpoint, true);
  }

  /** Setting an option other than path-style access and the endpoint leaves both as they were. */
  lemma AddressingUnaffected(conf: Conf, key: string, value: string)
    requires key != PATH_STYLE_ACCESS && key != ENDPOINT
    ensures PathStyleAccess(conf[key := value]) == PathStyleAccess(conf)
    ensures Endpoint(conf[key := value]) == Endpoint(conf)
  {
    GetBooleanOfOtherKey(conf, PATH_STYLE_ACCESS, key, value, false);
  }

  /**
   * Setting the SSL option to "true" or "false" selects https or http and
   * changes nothing else: host and path stay as they were.
   */
  lemma SslFlagOnlyChangesScheme(conf: Conf, bucket: string, enabled: bool)
    ensures BucketUri(conf[SECURE_CONNECTIONS := if enabled then "true" else "false"], bucket)
         == (if enabled then "https" else "http") + "://" + Host(conf, bucket) + "/" + Path(conf, bucket)
  {
    var value := if enabled then "true" else "false";
    GetBooleanOfLiteral(conf, SECURE_CONNECTIONS, enabled, true);
    AddressingUnaffected(conf, SECURE_CONNECTIONS, value);
  }

  /** A plain bucket with no options set is a sub-domain of the default endpoint. */
  lemma DefaultVirtualHostedUri(bucket: string)
    requires '.' !in bucket
    ensures BucketUri(map[], bucket) == "https://" + bucket + ".s3.amazonaws.com/"
  {
    assert !PathStyleAccess(map[]) && Scheme(map[]) == "https";
    assert Endpoint(map[]) == DEFAULT_ENDPOINT;
    var uri := BucketUri(map[], bucket);
    assert uri == "https" + "://" + (bucket + "." + DEFAULT_ENDPOINT) + "/";
    assert "https" + "://" == "https://";
    assert "." + DEFAULT_ENDPOINT + "/" == ".s3.amazonaws.com/";
    assert uri == "https://" + bucket + ("." + DEFAULT_ENDPOINT + "/");
  }

  /** A dotted bucket with no options set is its own host. */
  lemma DefaultDottedUri(bucket: string)
    requires '.' in bucket
    ensures BucketUri(map[], bucket) == "https://" + bucket + "/"
  {
    assert !PathStyleAccess(map[]) && Scheme(map[]) == "https";
  }

  /** The STS endpoint, always over https whatever the SSL option says. */
  function StsUri(sts: string): string {
    "https://" + sts + "/"
  }

  /** The STS URI is the endpoint between "https://" and a closing "/". */
  lemma StsUriShape(sts: string)
    ensures var uri := StsUri(sts);
      && |uri| == |sts| + 9
      && uri[..8] == "https://" && uri[8..|uri| - 1] == sts && uri[|uri| - 1] == '/'
  {
    var uri := StsUri(sts);
    assert uri[8..|uri| - 1] == sts;
  }

  /** The configured STS endpoint, untrimmed; "" when unset. */
  function StsEndpoint(conf: Conf): string {
    GetOr(conf, ASSUMED_ROLE_STS_ENDPOINT, "")
  }

  /** An STS endpoint is probed exactly when the option is set and not empty, and then as written. */
  lemma StsEndpointFollowsOption(conf: Conf)
    ensures StsEndpoint(conf) != "" <==>
      ASSUMED_ROLE_STS_ENDPOINT in conf && conf[ASSUMED_ROLE_STS_ENDPOINT] != ""
    ensures StsEndpoint(conf) != "" ==> StsEndpoint(conf) == conf[ASSUMED_ROLE_STS_ENDPOINT]
  {
  }

  /**
   * listEndpointsToProbe: the bucket URI first, then the STS endpoint if, and
   * only if, one is configured. A filesystem URI without a host fails.
   */
  method ListEndpointsToProbe(conf: Conf, fsHost: Option<string>)
    returns (r: Result<seq<string>, Failure>)
    ensures fsHost.None? <==> r.Err?
    ensures fsHost.None? ==> r == Err(NullHost)
    ensures fsHost.Some? ==>
      && 1 <= |r.value| <= 2
      && r.value[0] == BucketUri(conf, fsHost.value)
      && (|r.value| == 2 <==> StsEndpoint(conf) != "")
      && (|r.value| == 2 ==> r.value[1] == StsUri(StsEndpoint(conf)))
  {
    var endpoint := GetTrimmed(conf, ENDPOINT, DEFAULT_ENDPOINT);
    if fsHost.None? {
      return Err(NullHost);
    }
    var bucket := fsHost.value;
    var fqdn := if '.' in bucket then bucket else bucket + "." + endpoint;
    var pathStyleAccess := GetBoolean(conf, PATH_STYLE_ACCESS, false);
    var secureConnections := GetBoolean(conf, SECURE_CONNECTIONS, true);
    var scheme := if secureConnections then "https" else "http";
    var bucketUri;
    if pathStyleAccess {
      bucketUri := scheme + "://" + endpoint + "/" + bucket;
    } else {
      bucketUri := scheme + "://" + fqdn + "/";
    }
    assert bucketUri == BucketUri(conf, bucket);
    var uris: seq<string> := [];
    uris := uris + [bucketUri];
    var sts := GetOr(conf, ASSUMED_ROLE_STS_ENDPOINT, "");
    if sts != "" {
      uris := uris + ["https://" + sts + "/"];
    }
    return Ok(uris);
  }

  /** listOptionalEndpointsToProbe: only the metadata service, whatever the configuration. */
  method ListOptionalEndpointsToProbe(conf: Conf) returns (l: seq<string>)
    ensures l == [METADATA_ENDPOINT]
  {
    l := [];
    l := l + [METADATA_ENDPOINT];
  }

  // ---------------------------------------------------------------------
  // Configuration validation

  /** The server-side encryption methods of S3AEncryptionMethods. */
  datatype EncryptionMethod = SseS3 | SseKms | SseC | NoEncryption

  /** The Java name of each method, as its toString() prints it. */
  function MethodName(m: EncryptionMethod): string {
    match m
    case SseS3 => "SSE_S3"
    case SseKms => "SSE_KMS"
    case SseC => "SSE_C"
    case NoEncryption => "NONE"
  }

  /** The warnings the encryption check may print. */
  datatype EncryptionWarning = NoKmsKey | DefaultKmsKey | PartialKmsKey

  /**
   * The encryption check either fails, for a method that needs a key and has
   * none, or passes with some warnings.
   */
  datatype EncryptionVerdict = Rejected(keyless: EncryptionMethod) | Accepted(warnings: seq<EncryptionWarning>)

  const KMS_NO_KEY_WARNING :=
    "SSE-KMS is enabled in " + SERVER_SIDE_ENCRYPTION_ALGORITHM
    + " but there is no key set in " + SERVER_SIDE_ENCRYPTION_KEY
  const KMS_DEFAULT_KEY_WARNING :=
    "The default key will be used\nthe current user MUST have permissions to use this"
  const KMS_PARTIAL_KEY_WARNING :=
    "The SSE-KMS key does not contain a full key reference of arn:aws:kms:..."

  /** The text printed for each warning. */
  function WarningText(w: EncryptionWarning): string {
    match w
    case NoKmsKey => KMS_NO_KEY_WARNING
    case DefaultKmsKey => KMS_DEFAULT_KEY_WARNING
    case PartialKmsKey => KMS_PARTIAL_KEY_WARNING
  }

  /** The texts of a sequence of warnings, in order. */
  function WarningTexts(ws: seq<EncryptionWarning>): (texts: seq<string>)
    ensures |texts| == |ws|
    ensures forall k :: 0 <= k < |ws| ==> texts[k] == WarningText(ws[k])
  {
    seq(|ws|, k requires 0 <= k < |ws| => WarningText(ws[k]))
  }

  /** Printing one more warning appends its line to those already printed. */
  lemma WarningLinesSnoc(ws: seq<EncryptionWarning>, w: EncryptionWarning)
    ensures WarningLines(WarningTexts(ws + [w]))
         == WarningLines(WarningTexts(ws)) + [WarningLine(WarningText(w))]
  {
    assert WarningTexts(ws + [w]) == WarningTexts(ws) + [WarningText(w)] by {
      forall k | 0 <= k < |ws| ensures WarningTexts(ws + [w])[k] == WarningTexts(ws)[k] {
        assert (ws + [w])[k] == ws[k];
      }
    }
    WarningLinesSnocText(WarningTexts(ws), WarningText(w));
  }

  /** The message of the IllegalStateException raised for a method that needs a key. */
  function MissingKeyMessage(m: EncryptionMethod): string {
    "Encryption method " + MethodName(m) + " requires a key in " + SERVER_SIDE_ENCRYPTION_KEY
  }

  /** The message names the method, after "Encryption method ", and ends with the key option. */
  lemma MissingKeyMessageNamesMethod(m: EncryptionMethod)
    ensures var msg := MissingKeyMessage(m);
      && |msg| > 18 + |MethodName(m)| + |SERVER_SIDE_ENCRYPTION_KEY|
      && msg[18..18 + |MethodName(m)|] == MethodName(m)
      && msg[|msg| - |SERVER_SIDE_ENCRYPTION_KEY|..] == SERVER_SIDE_ENCRYPTION_KEY
  {
    KeyMessageShape("Encryption method ", MethodName(m), " requires a key in ", SERVER_SIDE_ENCRYPTION_KEY);
  }

  /** Proof helper: where the parts of a four-part message sit. */
  lemma KeyMessageShape(a: string, b: string, c: string, d: string)
    ensures var msg := a + b + c + d;
      && msg[|a|..|a| + |b|] == b
      && msg[|msg| - |d|..] == d
  {
    var msg := a + b + c + d;
    assert msg == (a + b) + (c + d);
    assert (a + b)[|a|..] == b;
  }

  /**
   * The encryption rule, given the method and the trimmed key. SSE-C without a
   * key is the only failure; SSE-KMS without a key gives two warnings, with a
   * key lacking the ARN prefix one, with a full ARN none; other methods pass
   * silently.
   */
  function CheckEncryption(m: EncryptionMethod, key: string): (v: EncryptionVerdict)
    ensures v.Rejected? <==> m == SseC && key == ""
    ensures v.Rejected? ==> v.keyless == SseC
    ensures v.Accepted? && m != SseKms ==> v.warnings == []
    ensures m == SseKms && key == "" ==>
      v == Accepted([NoKmsKey, DefaultKmsKey])
    ensures m == SseKms && key != "" && !StartsWith(key, KMS_KEY_PREFIX) ==>
      v == Accepted([PartialKmsKey])
    ensures m == SseKms && StartsWith(key, KMS_KEY_PREFIX) ==> v == Accepted([])
  {
    var hasKey := key != "";
    match m
    case SseC => if hasKey then Accepted([]) else Rejected(m)
    case SseKms =>
      if !hasKey then Accepted([NoKmsKey, DefaultKmsKey])
      else if !StartsWith(key, KMS_KEY_PREFIX) then Accepted([PartialKmsKey])
      else Accepted([])
    case _ => Accepted([])
  }

  /** The configured encryption algorithm name, trimmed; "" when unset. */
  function EncryptionAlgorithm(conf: Conf): string {
    Trim(GetOr(conf, SERVER_SIDE_ENCRYPTION_ALGORITHM, ""))
  }

  /** The configured encryption key, trimmed; "" when unset. */
  function EncryptionKey(conf: Conf): string {
    Trim(GetOr(conf, SERVER_SIDE_ENCRYPTION_KEY, ""))
  }

  /** A key made only of whitespace is no key: SSE-C then fails, naming the method and the option. */
  lemma BlankKeyRejectsSseC(conf: Conf)
    requires SERVER_SIDE_ENCRYPTION_KEY in conf
    requires forall k :: 0 <= k < |conf[SERVER_SIDE_ENCRYPTION_KEY]| ==>
      IsTrimmable(conf[SERVER_SIDE_ENCRYPTION_KEY][k])
    ensures CheckEncryption(SseC, EncryptionKey(conf)) == Rejected(SseC)
  {
  }

  /** Whatever the method and key, the encryption rule warns at most twice and never both fails and warns. */
  lemma EncryptionWarningsBounded(m: EncryptionMethod, key: string)
    ensures CheckEncryption(m, key).Accepted? ==> |CheckEncryption(m, key).warnings| <= 2
    ensures CheckEncryption(m, key).Accepted? && |CheckEncryption(m, key).warnings| == 2 ==> CheckEncryption(m, key) == Accepted([NoKmsKey, DefaultKmsKey])
  {
  }

  /** The buffer option reported: fs.s3a.buffer.dir if set, else hadoop.tmp.dir. */
  function BufferOption(conf: Conf): (option: string)
    ensures option == BUFFER_DIR <==> BUFFER_DIR in conf
    ensures option == BUFFER_DIR || option == HADOOP_TMP_DIR
  {
    if Get(conf, BUFFER_DIR) != None then BUFFER_DIR else HADOOP_TMP_DIR
  }

  /** String.format renders a null argument as "null". */
  function FormatNullable(value: Option<string>): string {
    match value
    case None => "null"
    case Some(v) => v
  }

  const VALIDATION_TITLE := "S3A Config validation"

  const BUFFER_LINE_PREFIX := "Buffer configuration option "
  const TEMP_DIR_PREFIX := "Temporary files created in "

  /** The line naming the buffer option and its value. */
  function BufferLine(conf: Conf): string {
    BUFFER_LINE_PREFIX + BufferOption(conf) + " = " + FormatNullable(Get(conf, BufferOption(conf)))
  }

  /** The buffer line names the option chosen and shows its value as set, or "null" when it is unset. */
  lemma BufferLineShowsOption(conf: Conf)
    ensures var head := BUFFER_LINE_PREFIX + BufferOption(conf) + " = ";
      && |head| <= |BufferLine(conf)| && BufferLine(conf)[..|head|] == head
      && BufferLine(conf)[|head|..] == if BufferOption(conf) in conf then conf[BufferOption(conf)] else "null"
  {
  }

  /** The line naming the directory the probe file was created in. */
  function TempDirLine(dir: string): string {
    TEMP_DIR_PREFIX + dir
  }

  /** The directory line is the fixed prefix followed by the directory, verbatim. */
  lemma TempDirLineShowsDir(dir: string)
    ensures |TempDirLine(dir)| == |TEMP_DIR_PREFIX| + |dir|
    ensures TempDirLine(dir)[..|TEMP_DIR_PREFIX|] == TEMP_DIR_PREFIX
    ensures TempDirLine(dir)[|TEMP_DIR_PREFIX|..] == dir
  {
  }

  /** What validateConfig leaves behind: the lines it printed and how it ended. */
  datatype Report = Report(lines: seq<string>, outcome: Result<(), Failure>)

  /** The lines validateConfig prints before it creates the probe file: the heading and the buffer option. */
  function Preamble(conf: Conf): seq<string> {
    [HeadingLine(VALIDATION_TITLE), BufferLine(conf)]
  }

  /**
   * What validateConfig prints after the preamble, and how it ends: the
   * temporary directory once the probe file was created, then the encryption
   * rule's warnings, or its failure. Every failure ends the report with what
   * was printed before it.
   */
  function AfterPreamble(conf: Conf, tempFileDir: Result<string, Failure>,
                         getMethod: string -> Result<EncryptionMethod, Failure>): Report
  {
    match tempFileDir
    case Err(e) => Report([], Err(e))
    case Ok(dir) =>
      match getMethod(EncryptionAlgorithm(conf))
      case Err(e) => Report([TempDirLine(dir)], Err(e))
      case Ok(m) => Concluded([TempDirLine(dir)], CheckEncryption(m, EncryptionKey(conf)))
  }

  /** The report validateConfig produces: the preamble, then whatever follows it. */
  function Validation(conf: Conf, tempFileDir: Result<string, Failure>,
                      getMethod: string -> Result<EncryptionMethod, Failure>): Report
  {
    var rest := AfterPreamble(conf, tempFileDir, getMethod);
    Report(Preamble(conf) + rest.lines, rest.outcome)
  }

  /** The end of a validation once the encryption rule has given its verdict. */
  function Concluded(probed: seq<string>, verdict: EncryptionVerdict): (report: Report)
    ensures report.outcome.Ok? <==> verdict.Accepted?
    ensures |report.lines| >= |probed|
    ensures forall k :: 0 <= k < |probed| ==> report.lines[k] == probed[k]
  {
    match verdict
    case Rejected(m) => Report(probed, Err(IllegalState(MissingKeyMessage(m))))
    case Accepted(warnings) => Report(probed + WarningLines(WarningTexts(warnings)), Ok(()))
  }

  /** Proof helper: regroups printed output, kept apart so the proofs using it stay small. */
  lemma AppendAssociates(a: seq<string>, b: seq<string>, c: seq<string>)
    ensures a + b + c == a + (b + c)
  {
  }

  /**
   * validateConfig: prints the heading and the buffer option, creates and
   * deletes a temporary file in the buffer directory (tempFileDir is the
   * outcome: the directory it was created in, or the IOException), prints
   * where, then applies the encryption rule to the method getMethod resolves
   * from the algorithm option. Output is only ever appended. The two steps
   * are the methods below, in the order the source takes them.
   */
  method ValidateConfig(printout: StoreEntryPoint, conf: Conf,
                        tempFileDir: Result<string, Failure>,
                        getMethod: string -> Result<EncryptionMethod, Failure>)
    returns (r: Result<(), Failure>)
    modifies printout`out
    ensures printout.out == old(printout.out) + Validation(conf, tempFileDir, getMethod).lines
    ensures r == Validation(conf, tempFileDir, getMethod).outcome
  {
    ghost var start := printout.out;
    PrintPreamble(printout, conf);
    r := ValidateAfterPreamble(printout, conf, tempFileDir, getMethod);
    AppendAssociates(start, Preamble(conf), AfterPreamble(conf, tempFileDir, getMethod).lines);
  }

  /** The first step of validateConfig: the heading, then the buffer option chosen and its value. */
  method PrintPreamble(printout: StoreEntryPoint, conf: Conf)
    modifies printout`out
    ensures printout.out == old(printout.out) + Preamble(conf)
  {
    var bufferOption := if Get(conf, BUFFER_DIR) != None then BUFFER_DIR else HADOOP_TMP_DIR;
    printout.Heading(VALIDATION_TITLE);
    printout.Println(BUFFER_LINE_PREFIX + bufferOption + " = "
                     + FormatNullable(Get(conf, bufferOption)));
  }

  /**
   * The rest of validateConfig: stops on a failed probe file, prints the
   * directory, stops on a method that does not resolve, and otherwise ends
   * as the encryption rule says.
   */
  method ValidateAfterPreamble(printout: StoreEntryPoint, conf: Conf,
                               tempFileDir: Result<string, Failure>,
                               getMethod: string -> Result<EncryptionMethod, Failure>)
    returns (r: Result<(), Failure>)
    modifies printout`out
    ensures printout.out == old(printout.out) + AfterPreamble(conf, tempFileDir, getMethod).lines
    ensures r == AfterPreamble(conf, tempFileDir, getMethod).outcome
  {
    ghost var start := printout.out;
    AfterPreambleSteps(conf, tempFileDir, getMethod);
    if tempFileDir.Err? {
      return Err(tempFileDir.error);
    }
    printout.Println(TempDirLine(tempFileDir.value));
    ghost var probed := [TempDirLine(tempFileDir.value)];

    var encryption := Trim(GetOr(conf, SERVER_SIDE_ENCRYPTION_ALGORITHM, ""));
    var resolved := getMethod(encryption);
    if resolved.Err? {
      return Err(resolved.error);
    }
    var key := Trim(GetOr(conf, SERVER_SIDE_ENCRYPTION_KEY, ""));
    r := ValidateEncryption(printout, resolved.value, key);
    ghost var verdict := CheckEncryption(resolved.value, key);
    if verdict.Accepted? {
      AppendAssociates(start, probed, WarningLines(WarningTexts(verdict.warnings)));
    }
  }

  /**
   * The encryption part of validateConfig: SSE-C without a key throws, SSE-KMS
   * prints its warnings, every other method passes silently. What it prints
   * and how it ends are those of the encryption rule.
   */
  method ValidateEncryption(printout: StoreEntryPoint, encryptionMethod: EncryptionMethod, key: string)
    returns (r: Result<(), Failure>)
    modifies printout`out
    ensures r == if CheckEncryption(encryptionMethod, key).Rejected?
                 then Err(IllegalState(MissingKeyMessage(encryptionMethod)))
                 else Ok(())
    ensures r.Err? ==> printout.out == old(printout.out)
    ensures r.Ok? ==>
      printout.out == old(printout.out)
                      + WarningLines(WarningTexts(CheckEncryption(encryptionMethod, key).warnings))
  {
    ghost var start := printout.out;
    var hasKey := key != "";
    // The warnings printed so far.
    ghost var warned: seq<EncryptionWarning> := [];
    assert printout.out == start + WarningLines(WarningTexts(warned));
    match encryptionMethod {
      case SseC =>
        if !hasKey {
          return Err(IllegalState(MissingKeyMessage(encryptionMethod)));
        }
      case SseKms =>
        if !hasKey {
          printout.Warn(WarningText(NoKmsKey));
          WarningLinesSnoc(warned, NoKmsKey);
          warned := warned + [NoKmsKey];
          printout.Warn(WarningText(DefaultKmsKey));
          WarningLinesSnoc(warned, DefaultKmsKey);
          warned := warned + [DefaultKmsKey];
        } else if !StartsWith(key, KMS_KEY_PREFIX) {
          printout.Warn(WarningText(PartialKmsKey));
          WarningLinesSnoc(warned, PartialKmsKey);
          warned := warned + [PartialKmsKey];
        }
      case _ =>
    }
    assert warned == CheckEncryption(encryptionMethod, key).warnings;
    return Ok(());
  }

  /**
   * Proof helper that unfolds AfterPreamble into its three cases: the probe
   * file fails, the method does not resolve, or the rule decides.
   */
  lemma AfterPreambleSteps(conf: Conf, tempFileDir: Result<string, Failure>,
                           getMethod: string -> Result<EncryptionMethod, Failure>)
    ensures tempFileDir.Err? ==>
      AfterPreamble(conf, tempFileDir, getMethod) == Report([], Err(tempFileDir.error))
    ensures tempFileDir.Ok? && getMethod(EncryptionAlgorithm(conf)).Err? ==>
      AfterPreamble(conf, tempFileDir, getMethod)
        == Report([TempDirLine(tempFileDir.value)], Err(getMethod(EncryptionAlgorithm(conf)).error))
    ensures tempFileDir.Ok? && getMethod(EncryptionAlgorithm(conf)).Ok? ==>
      AfterPreamble(conf, tempFileDir, getMethod)
        == Concluded([TempDirLine(tempFileDir.value)],
                     CheckEncryption(getMethod(EncryptionAlgorithm(conf)).value, EncryptionKey(conf)))
  {
  }

  /** The heading and the buffer option are always printed first, whatever follows. */
  lemma ValidationStartsWithPreamble(conf: Conf, tempFileDir: Result<string, Failure>,
                                     getMethod: string -> Result<EncryptionMethod, Failure>)
    ensures |Validation(conf, tempFileDir, getMethod).lines| >= 2
    ensures Validation(conf, tempFileDir, getMethod).lines[0] == HeadingLine(VALIDATION_TITLE)
    ensures Validation(conf, tempFileDir, getMethod).lines[1] == BufferLine(conf)
  {
  }

  /**
   * A validation succeeds exactly when the probe file was created, the method
   * resolved and the encryption rule accepted it; a probe failure ends it
   * after the preamble, and otherwise the directory line comes third.
   */
  lemma ValidationOutcome(conf: Conf, tempFileDir: Result<string, Failure>,
                          getMethod: string -> Result<EncryptionMethod, Failure>)
    ensures var report := Validation(conf, tempFileDir, getMethod);
      && (report.outcome.Ok? <==>
            && tempFileDir.Ok?
            && getMethod(EncryptionAlgorithm(conf)).Ok?
            && CheckEncryption(getMethod(EncryptionAlgorithm(conf)).value, EncryptionKey(conf)).Accepted?)
      && (tempFileDir.Err? ==> report.outcome == Err(tempFileDir.error) && |report.lines| == 2)
      && (tempFileDir.Ok? ==> |report.lines| >= 3 && report.lines[2] == TempDirLine(tempFileDir.value))
  {
    AfterPreambleSteps(conf, tempFileDir, getMethod);
  }

  /** No line printed before the encryption checks is a warning. */
  lemma ProbedLinesHaveNoWarning(conf: Conf, dir: string)
    ensures CountWarnings(Preamble(conf)) == 0
    ensures CountWarnings([TempDirLine(dir)]) == 0
  {
    HeadingIsNotWarning(VALIDATION_TITLE);
    NotWarningLine(BufferLine(conf));
    NotWarningLine(TempDirLine(dir));
    assert [TempDirLine(dir)][1..] == [];
    assert CountWarnings([BufferLine(conf)]) == 0 by {
      assert [BufferLine(conf)][1..] == [];
    }
    assert Preamble(conf)[1..] == [BufferLine(conf)];
  }

  /**
   * The warning lines of the report are exactly those of the encryption rule:
   * the report holds as many lines starting with "WARNING: " as the rule gave
   * warnings, and none when validation failed.
   */
  lemma ValidationWarningCount(conf: Conf, tempFileDir: Result<string, Failure>,
                               getMethod: string -> Result<EncryptionMethod, Failure>)
    ensures var report := Validation(conf, tempFileDir, getMethod);
      CountWarnings(report.lines) ==
        if report.outcome.Err? then 0
        else |CheckEncryption(getMethod(EncryptionAlgorithm(conf)).value, EncryptionKey(conf)).warnings|
  {
    var rest := AfterPreamble(conf, tempFileDir, getMethod);
    AfterPreambleSteps(conf, tempFileDir, getMethod);
    ProbedLinesHaveNoWarning(conf, if tempFileDir.Ok? then tempFileDir.value else "");
    CountWarningsAppend(Preamble(conf), rest.lines);
    if tempFileDir.Ok? && getMethod(EncryptionAlgorithm(conf)).Ok? {
      var verdict := CheckEncryption(getMethod(EncryptionAlgorithm(conf)).value, EncryptionKey(conf));
      if verdict.Accepted? {
        var warnings := WarningLines(WarningTexts(verdict.warnings));
        CountWarningsAppend([TempDirLine(tempFileDir.value)], warnings);
        CountWarningLines(WarningTexts(verdict.warnings));
      }
    }
  }

  /** SSE-KMS without a key: validation succeeds and the report carries exactly two warning lines. */
  lemma KmsWithoutKeyWarnsTwice(conf: Conf, tempFileDir: Result<string, Failure>,
                                getMethod: string -> Result<EncryptionMethod, Failure>)
    requires tempFileDir.Ok?
    requires getMethod(EncryptionAlgorithm(conf)) == Ok(SseKms)
    requires EncryptionKey(conf) == ""
    ensures Validation(conf, tempFileDir, getMethod).outcome == Ok(())
    ensures CountWarnings(Validation(conf, tempFileDir, getMethod).lines) == 2
  {
    assert CheckEncryption(SseKms, "") == Accepted([NoKmsKey, DefaultKmsKey]);
    AfterPreambleSteps(conf, tempFileDir, getMethod);
    ValidationWarningCount(conf, tempFileDir, getMethod);
  }

  /**
   * SSE-C without a key: validation fails with the IllegalStateException naming
   * the method and the key option, after printing the heading, the buffer
   * option and the temporary directory, and warns about nothing.
   */
  lemma SseCWithoutKeyFails(conf: Conf, tempFileDir: Result<string, Failure>,
                            getMethod: string -> Result<EncryptionMethod, Failure>)
    requires tempFileDir.Ok?
    requires getMethod(EncryptionAlgorithm(conf)) == Ok(SseC)
    requires EncryptionKey(conf) == ""
    ensures Validation(conf, tempFileDir, getMethod).outcome == Err(IllegalState(MissingKeyMessage(SseC)))
    ensures Validation(conf, tempFileDir, getMethod).lines
         == [HeadingLine(VALIDATION_TITLE), BufferLine(conf), TempDirLine(tempFileDir.value)]
    ensures CountWarnings(Validation(conf, tempFileDir, getMethod).lines) == 0
  {
    assert CheckEncryption(SseC, "") == Rejected(SseC);
    AfterPreambleSteps(conf, tempFileDir, getMethod);
    ValidationWarningCount(conf, tempFileDir, getMethod);
  }
}
