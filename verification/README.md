# S3A store diagnostics: connector description and report output

This project is a Dafny model of two pieces of the cloudstore diagnostics tool.

**`S3ADiagnosticsInfo`** describes the Hadoop S3A connector to the `storediag` command. The model covers:

- the table of S3A options the diagnostics report, with their sensitive and always-redact flags;
- the table of AWS environment variables and the lists of classes to look for;
- `listEndpointsToProbe`. It derives the bucket URI from the bucket host and the `fs.s3a.endpoint`, `fs.s3a.path.style.access` and `fs.s3a.connection.ssl.enabled` options. It adds the STS endpoint when `fs.s3a.assumed.role.sts.endpoint` is set to a non-empty value.
- `listOptionalEndpointsToProbe`, which always returns the EC2 metadata service.
- `validateConfig`. It prints a heading, then the buffer option and the directory where a probe file was created. It then applies the server-side encryption rule:
  - SSE-C without a key makes `checkState` throw `IllegalStateException`, which ends validation there, with nothing recorded and nothing printed after it;
  - SSE-KMS without a key prints two separate warning lines, one that no key is set and one that the default key will be used;
  - SSE-KMS with a key that lacks the `arn:aws:kms:` prefix prints one warning;
  - anything else passes silently.

**`StoreEntryPoint`** is the base class of the store commands. The model covers:

- its output primitives `println`, `warn` and `heading`, which write to the `out` stream. `heading` underlines its text with a loop of `=` characters, one per UTF-16 code unit, since that is what `String.length()` counts.
- `setOut` and `setCommandFormat`;
- `parseArgs`: with no arguments the command format is never consulted;
- `exitOnThrowable`, which maps a failure to the exit status and text it terminates with. For an unknown option it first passes the message to `errorln` as a format string. A message holding a `%` conversion then makes `String.format` throw before the exit (see Findings).

The files are:

- `results.dfy`: the `Option` and `Result` datatypes.
- `java_strings.dfy`: module `JavaStrings`. It holds `String.trim()`, `startsWith`, `length()` in UTF-16 code units, the ASCII part of case-insensitive comparison, and `String.format` called without arguments.
- `configuration.dfy`: the Hadoop `Configuration` lookups as a map from option name to value: `get`, `getTrimmed` and `getBoolean`.
- `store_entry_point.dfy`: module `StoreEntry`.
  - The class `StoreEntryPoint` holds the output stream as the sequence of lines printed so far (`out`) and the optional command format.
  - `println`, `warn` and `heading` are methods that append to it.
  - The functions `WarningLine` and `HeadingLine` give the exact text of each line.
- `s3a_diagnostics_info.dfy`: module `S3ADiagnostics`.
  - The option tables and the bucket URI rule.
  - The endpoint lists, as methods that build their list as the source does.
  - The encryption rule `CheckEncryption`.
  - `ValidateConfig`, which writes to a `StoreEntryPoint`. It is proved against the function `Validation`, which states the whole report: the lines printed and how validation ends.
  - The report is the preamble (the heading and the buffer line) followed by what comes after it. `ValidateConfig` runs the two steps in the source's order, as `PrintPreamble` and `ValidateAfterPreamble`.

External inputs are parameters:

- The outcome of creating the temporary probe file is `tempFileDir`: the directory it was created in, or the `IOException`.
- `S3AEncryptionMethods.getMethod` is `getMethod`.
- The exit codes `EXIT_USAGE` and `StoreExitCodes.E_ERROR` are an `ExitCodes` record.
- The command format's parser is a function value.
- The host of the filesystem URI is an `Option`. Java's `null` is `None`.

Formatted text reaches the output primitives already formatted. The `%n` in the second SSE-KMS warning is written as `"\n"`.

## Model

| member | source | states |
|---|---|---|
| JavaStrings.Trim | src/main/java/org/apache/hadoop/fs/store/diag/S3ADiagnosticsInfo.java:298-301 | `trim()` returns the slice of the input left after dropping the chars at or below U+0020 at both ends: every char before and after the slice is such a char, and the slice does not start or end with one. The result is empty exactly when every char of the input is such a char. |
| JavaStrings.TrimIdempotent | src/main/java/org/apache/hadoop/fs/store/diag/S3ADiagnosticsInfo.java:298-301 | Trimming an already trimmed value changes nothing. |
| JavaStrings.StartsWith | src/main/java/org/apache/hadoop/fs/store/diag/S3ADiagnosticsInfo.java:320 | `startsWith(prefix)` holds exactly when the prefix is no longer than the string and agrees with it char by char. |
| JavaStrings.ToLowerAscii | src/main/java/org/apache/hadoop/fs/store/diag/S3ADiagnosticsInfo.java:249-251 | Each char is lower-cased independently: A-Z become a-z and every other char is kept. This is the comparison `getBoolean` makes against "true" and "false". |
| JavaStrings.Utf16Length | src/main/java/org/apache/hadoop/fs/store/StoreEntryPoint.java:99 | `length()` counts UTF-16 code units: one per char and one more per char above U+FFFF, so between the number of chars and twice that. |
| JavaStrings.Utf16LengthIsCharCount | src/main/java/org/apache/hadoop/fs/store/StoreEntryPoint.java:99 | `length()` equals the number of chars exactly when no char lies above U+FFFF. |
| JavaStrings.FormatWithoutArguments | src/main/java/org/apache/hadoop/fs/store/StoreEntryPoint.java:92-93 | `String.format` with no arguments returns the text unchanged when it holds no `%`. |
| JavaStrings.FormatEscapes | src/main/java/org/apache/hadoop/fs/store/StoreEntryPoint.java:92-93 | After plain text, `%%` formats to `%` and `%n` to a line separator, in front of whatever the rest of the text formats to; the call fails exactly when the rest fails. |
| JavaStrings.FormatFailsOnConversion | src/main/java/org/apache/hadoop/fs/store/StoreEntryPoint.java:92-93 | A `%` that follows plain text and is not followed by `%` or `n` makes formatting without arguments fail, whatever comes after. In Java this holds for every conversion that needs an argument, but not for the width and argument-index forms of `%%` and `%n` listed under Left out, which Java formats. |
| Configuration.Get | src/main/java/org/apache/hadoop/fs/store/diag/S3ADiagnosticsInfo.java:282-287 | `get` is null exactly when the option is unset, and otherwise returns the value as set. |
| Configuration.GetOr | src/main/java/org/apache/hadoop/fs/store/diag/S3ADiagnosticsInfo.java:262 | `get(key, default)` returns the value as set, untrimmed, and the default when the option is unset. |
| Configuration.GetTrimmed | src/main/java/org/apache/hadoop/fs/store/diag/S3ADiagnosticsInfo.java:239 | `getTrimmed` returns the trimmed value when the option is set, even when that is "", and the default as it is when the option is unset. |
| Configuration.GetBoolean | src/main/java/org/apache/hadoop/fs/store/diag/S3ADiagnosticsInfo.java:249-251 | An unset option gives the default. The result differs from the default only when the trimmed value reads "true" or "false" in any case, and it is then that value. |
| Configuration.GetBooleanReadsText | src/main/java/org/apache/hadoop/fs/store/diag/S3ADiagnosticsInfo.java:249-251 | A set option whose trimmed value reads "true" in any case gives true, and one reading "false" gives false, whatever the default. |
| Configuration.GetBooleanOfOtherKey | src/main/java/org/apache/hadoop/fs/store/diag/S3ADiagnosticsInfo.java:249-251 | Setting one option leaves every flag read from another option as it was. |
| Configuration.GetBooleanOfLiteral | src/main/java/org/apache/hadoop/fs/store/diag/S3ADiagnosticsInfo.java:249-251 | Setting an option to "true" or "false" makes `getBoolean` return that value, whatever the default. |
| S3ADiagnostics.GeneralOptionsWellFormed | src/main/java/org/apache/hadoop/fs/store/diag/S3ADiagnosticsInfo.java:53-69 | In the credential, encryption, proxy, connection and block entries, every always-redacted option is sensitive and no key is empty. |
| S3ADiagnostics.TuningRoleGuardOptionsWellFormed | src/main/java/org/apache/hadoop/fs/store/diag/S3ADiagnosticsInfo.java:71-96 | The same holds for the signing, upload and thread-pool, assumed-role and S3Guard entries. |
| S3ADiagnostics.CommitterMiscDelegationOptionsWellFormed | src/main/java/org/apache/hadoop/fs/store/diag/S3ADiagnosticsInfo.java:99-114 | The same holds for the committer, retry and delegation entries. |
| S3ADiagnostics.OptionTableWellFormed | src/main/java/org/apache/hadoop/fs/store/diag/S3ADiagnosticsInfo.java:52-118 | The option table has 52 entries. Every always-redacted option is marked sensitive. The only empty key is the last entry, which terminates the table. |
| S3ADiagnostics.EnvVarTableSensitivity | src/main/java/org/apache/hadoop/fs/store/diag/S3ADiagnosticsInfo.java:120-124 | Of the environment variables, all but `AWS_ACCESS_KEY_ID` are sensitive. |
| S3ADiagnostics.EndpointFollowsOption | src/main/java/org/apache/hadoop/fs/store/diag/S3ADiagnosticsInfo.java:239 | The endpoint is the `fs.s3a.endpoint` option with its blanks trimmed, and `s3.amazonaws.com` when the option is unset. |
| S3ADiagnostics.FqdnShape | src/main/java/org/apache/hadoop/fs/store/diag/S3ADiagnosticsInfo.java:241-248 | The full host name starts with the bucket and holds a dot. A dotted bucket is the name on its own; a plain bucket is followed by a dot and the endpoint. |
| S3ADiagnostics.PathStyleFollowsFlag | src/main/java/org/apache/hadoop/fs/store/diag/S3ADiagnosticsInfo.java:249 | Path-style access is on exactly when the option is set and its trimmed value reads "true" in any case. |
| S3ADiagnostics.SchemeFollowsSslFlag | src/main/java/org/apache/hadoop/fs/store/diag/S3ADiagnosticsInfo.java:250-252 | The scheme is "https" or "http". It is "http" exactly when the SSL option is set and its trimmed value reads "false" in any case. |
| S3ADiagnostics.BucketUri | src/main/java/org/apache/hadoop/fs/store/diag/S3ADiagnosticsInfo.java:239-258 | There are three shapes. Path-style gives `scheme://endpoint/bucket`. Otherwise a dotted bucket gives `scheme://bucket/`, and a plain bucket gives `scheme://bucket.endpoint/`. |
| S3ADiagnostics.DottedBucketIgnoresEndpoint | src/main/java/org/apache/hadoop/fs/store/diag/S3ADiagnosticsInfo.java:243-257 | With virtual-hosted addressing, the URI of a dotted bucket is the same whatever the endpoint option says. |
| S3ADiagnostics.PathStyleUsesEndpoint | src/main/java/org/apache/hadoop/fs/store/diag/S3ADiagnosticsInfo.java:253-255 | With path-style addressing, the host is the trimmed endpoint option, even for a dotted bucket. |
| S3ADiagnostics.AddressingUnaffected | src/main/java/org/apache/hadoop/fs/store/diag/S3ADiagnosticsInfo.java:239-249 | Setting any other option leaves the path-style flag and the endpoint unchanged. |
| S3ADiagnostics.SslFlagOnlyChangesScheme | src/main/java/org/apache/hadoop/fs/store/diag/S3ADiagnosticsInfo.java:250-258 | Setting the SSL option to "true" or "false" selects https or http. Host and path stay as they were. |
| S3ADiagnostics.DefaultVirtualHostedUri | src/main/java/org/apache/hadoop/fs/store/diag/S3ADiagnosticsInfo.java:239-257 | With nothing configured, a plain bucket `b` gives `https://b.s3.amazonaws.com/`. |
| S3ADiagnostics.DefaultDottedUri | src/main/java/org/apache/hadoop/fs/store/diag/S3ADiagnosticsInfo.java:243-257 | With nothing configured, a dotted bucket `b` gives `https://b/`. |
| S3ADiagnostics.StsUriShape | src/main/java/org/apache/hadoop/fs/store/diag/S3ADiagnosticsInfo.java:264-265 | The STS URI is the endpoint as configured between `https://` and a closing `/`. |
| S3ADiagnostics.StsEndpointFollowsOption | src/main/java/org/apache/hadoop/fs/store/diag/S3ADiagnosticsInfo.java:262-263 | The STS endpoint is non-empty exactly when its option is set to a non-empty value, and it is then that value, untrimmed. |
| S3ADiagnostics.ListEndpointsToProbe | src/main/java/org/apache/hadoop/fs/store/diag/S3ADiagnosticsInfo.java:237-268 | A URI without a host fails with a null dereference. Otherwise the list starts with the bucket URI. It holds a second entry exactly when the STS endpoint is non-empty, and that entry is `https://sts/` whatever the SSL option. |
| S3ADiagnostics.ListOptionalEndpointsToProbe | src/main/java/org/apache/hadoop/fs/store/diag/S3ADiagnosticsInfo.java:271-276 | The list is exactly `[http://169.254.169.254]` for every configuration. |
| S3ADiagnostics.WarningLinesSnoc | src/main/java/org/apache/hadoop/fs/store/diag/S3ADiagnosticsInfo.java:311-325 | Printing one more warning appends exactly its line to the warning lines already printed. |
| S3ADiagnostics.CheckEncryption | src/main/java/org/apache/hadoop/fs/store/diag/S3ADiagnosticsInfo.java:302-330 | The check fails exactly for SSE-C without a key. SSE-KMS without a key gives the no-key and default-key warnings, in that order. SSE-KMS with a key lacking `arn:aws:kms:` gives the partial-key warning. SSE-KMS with a full ARN gives none, and every other method gives none. |
| S3ADiagnostics.MissingKeyMessageNamesMethod | src/main/java/org/apache/hadoop/fs/store/diag/S3ADiagnosticsInfo.java:306-308 | The `checkState` message names the encryption method after "Encryption method " and ends with the name of the key option. |
| S3ADiagnostics.BlankKeyRejectsSseC | src/main/java/org/apache/hadoop/fs/store/diag/S3ADiagnosticsInfo.java:301-308 | A key set to whitespace only is trimmed to nothing, so SSE-C fails. |
| S3ADiagnostics.EncryptionWarningsBounded | src/main/java/org/apache/hadoop/fs/store/diag/S3ADiagnosticsInfo.java:311-325 | The rule never gives more than two warnings. Two warnings happen only as the KMS no-key pair. |
| S3ADiagnostics.BufferOption | src/main/java/org/apache/hadoop/fs/store/diag/S3ADiagnosticsInfo.java:282-283 | The buffer option reported is `fs.s3a.buffer.dir` exactly when it is set, and `hadoop.tmp.dir` otherwise. |
| S3ADiagnostics.BufferLineShowsOption | src/main/java/org/apache/hadoop/fs/store/diag/S3ADiagnosticsInfo.java:286-287 | The buffer line names the option chosen and shows its value as set, or `null` when that option is unset. |
| S3ADiagnostics.TempDirLineShowsDir | src/main/java/org/apache/hadoop/fs/store/diag/S3ADiagnosticsInfo.java:294-295 | The directory line is `Temporary files created in ` followed by the directory, verbatim. |
| S3ADiagnostics.Concluded | src/main/java/org/apache/hadoop/fs/store/diag/S3ADiagnosticsInfo.java:303-330 | Validation succeeds exactly when the rule accepts. What was printed before the rule stays the prefix of the report. |
| S3ADiagnostics.ValidationOutcome | src/main/java/org/apache/hadoop/fs/store/diag/S3ADiagnosticsInfo.java:279-331 | Validation succeeds exactly when the probe file was created, the method resolved and the rule accepted it. A failed probe file ends the report after the two preamble lines with that failure. Otherwise the third line names the temporary directory. |
| S3ADiagnostics.ValidateConfig | src/main/java/org/apache/hadoop/fs/store/diag/S3ADiagnosticsInfo.java:279-331 | `validateConfig` appends exactly the lines of the report to the output, keeps everything printed before, and ends with the report's outcome. |
| S3ADiagnostics.PrintPreamble | src/main/java/org/apache/hadoop/fs/store/diag/S3ADiagnosticsInfo.java:282-287 | The first step appends exactly the heading and the buffer line. |
| S3ADiagnostics.ValidateAfterPreamble | src/main/java/org/apache/hadoop/fs/store/diag/S3ADiagnosticsInfo.java:289-331 | The rest appends exactly what follows the preamble in the report and ends with its outcome. |
| S3ADiagnostics.ValidateEncryption | src/main/java/org/apache/hadoop/fs/store/diag/S3ADiagnosticsInfo.java:298-330 | The encryption step fails with the IllegalStateException naming the method and the key option exactly when the rule rejects, and then prints nothing. Otherwise it prints exactly the rule's warning lines, in order. |
| S3ADiagnostics.AfterPreambleSteps | src/main/java/org/apache/hadoop/fs/store/diag/S3ADiagnosticsInfo.java:289-331 | There are three ways a validation ends after the preamble. A failed probe file stops it at once. An unresolvable method stops it after the temporary-directory line. Otherwise the encryption rule decides. |
| S3ADiagnostics.ValidationStartsWithPreamble | src/main/java/org/apache/hadoop/fs/store/diag/S3ADiagnosticsInfo.java:284-287 | Every report starts with the "S3A Config validation" heading and then the buffer option line. |
| S3ADiagnostics.ProbedLinesHaveNoWarning | src/main/java/org/apache/hadoop/fs/store/diag/S3ADiagnosticsInfo.java:284-295 | None of the lines printed before the encryption check is a warning. |
| S3ADiagnostics.ValidationWarningCount | src/main/java/org/apache/hadoop/fs/store/diag/S3ADiagnosticsInfo.java:284-330 | A report has as many `WARNING: ` lines as the rule gave warnings. It has none when validation fails. |
| S3ADiagnostics.KmsWithoutKeyWarnsTwice | src/main/java/org/apache/hadoop/fs/store/diag/S3ADiagnosticsInfo.java:311-318 | SSE-KMS without a key succeeds with exactly two warning lines. |
| S3ADiagnostics.SseCWithoutKeyFails | src/main/java/org/apache/hadoop/fs/store/diag/S3ADiagnosticsInfo.java:305-309 | SSE-C without a key fails with the IllegalStateException. This happens after exactly the heading, the buffer line and the temporary-directory line, and with no warning. |
| StoreEntry.WarningLine | src/main/java/org/apache/hadoop/fs/store/StoreEntryPoint.java:87-90 | A warning line is the prefix `WARNING: ` followed by the text, and nothing else. |
| StoreEntry.WarningLines | src/main/java/org/apache/hadoop/fs/store/StoreEntryPoint.java:87-90 | A run of warn calls prints one warning line per text, in order. |
| StoreEntry.WarningLinesSnocText | src/main/java/org/apache/hadoop/fs/store/StoreEntryPoint.java:87-90 | Warning about one more text appends exactly its line to the others. |
| StoreEntry.CountWarningLines | src/main/java/org/apache/hadoop/fs/store/StoreEntryPoint.java:87-90 | Every line warn prints is recognised as a warning. |
| StoreEntry.CountWarningsAppend | src/main/java/org/apache/hadoop/fs/store/StoreEntryPoint.java:87-90 | The warnings in two outputs printed one after the other add up. |
| StoreEntry.Rule | src/main/java/org/apache/hadoop/fs/store/StoreEntryPoint.java:99-103 | An underline of n is n `=` characters. |
| StoreEntry.Underline | src/main/java/org/apache/hadoop/fs/store/StoreEntryPoint.java:99-103 | The `heading` loop builds an underline made only of `=`, as long as the text's `length()` in UTF-16 code units. |
| StoreEntry.HeadingLine | src/main/java/org/apache/hadoop/fs/store/StoreEntryPoint.java:97-104 | A heading line starts with a newline followed by the text. Its length is the text in chars, plus the text in UTF-16 units for the underline, plus three newlines. |
| StoreEntry.HeadingLineInjective | src/main/java/org/apache/hadoop/fs/store/StoreEntryPoint.java:97-104 | Different texts give different heading lines. |
| StoreEntry.HeadingUnderlineMatchesText | src/main/java/org/apache/hadoop/fs/store/StoreEntryPoint.java:97-104 | A heading line is a newline, the text, a newline, one `=` per UTF-16 code unit of the text, and a final newline. |
| StoreEntry.SupplementaryCharUnderlinedTwice | src/main/java/org/apache/hadoop/fs/store/StoreEntryPoint.java:97-104 | A one-char text above U+FFFF is underlined with two `=`, as Java counts its surrogate pair. |
| StoreEntry.NotWarningLine | src/main/java/org/apache/hadoop/fs/store/StoreEntryPoint.java:87-90 | A line that does not start with `W` cannot be one warn printed. |
| StoreEntry.HeadingIsNotWarning | src/main/java/org/apache/hadoop/fs/store/StoreEntryPoint.java:97-104 | A heading is never taken for a warning. |
| StoreEntry.ExitOnThrowable | src/main/java/org/apache/hadoop/fs/store/StoreEntryPoint.java:179-190 | As written: an unknown option exits with the usage code and its message when the message formats without arguments, and otherwise `errorln` throws first and nothing exits. A StoreExitException exits with its own code and message. Any other throwable exits with the error code and its `toString()`. |
| StoreEntry.ExitOnThrowableCorrected | src/main/java/org/apache/hadoop/fs/store/StoreEntryPoint.java:179-190 | Corrected: every throwable terminates. An unknown option exits with the usage code and its message, whatever characters that holds. |
| StoreEntry.ExitOnThrowableDiffersOnlyOnFormat | src/main/java/org/apache/hadoop/fs/store/StoreEntryPoint.java:179-190 | The code as written and the corrected one agree except on an unknown option whose message does not format without arguments. |
| StoreEntry.UnknownOptionWithConversionEscapes | src/main/java/org/apache/hadoop/fs/store/StoreEntryPoint.java:179-182 | For the unknown option message "Illegal option -%d", the code as written fails in `errorln` before it exits, while the corrected one exits with the usage code. |
| StoreEntry.ExitStatusSeparatesUsageFromError | src/main/java/org/apache/hadoop/fs/store/StoreEntryPoint.java:179-190 | For a throwable other than a StoreExitException, which exits with whatever code it carries, and when the usage and error codes differ, the corrected status identifies the branch taken: usage means an unknown option, error any other throwable. As written, the usage code is reached for such a throwable exactly when it is an unknown option whose message formats. |
| StoreEntry.MissingCommandFormatExitsWithError | src/main/java/org/apache/hadoop/fs/store/StoreEntryPoint.java:130-133 | With arguments and no command format, parsing fails on the null format. That failure exits with the error code, in the code as written as well as in the corrected mapping. |
| StoreEntry.StoreEntryPoint.constructor | src/main/java/org/apache/hadoop/fs/store/StoreEntryPoint.java:60-62 | A new entry point has written nothing and has no command format. |
| StoreEntry.StoreEntryPoint.SetOut | src/main/java/org/apache/hadoop/fs/store/StoreEntryPoint.java:73-75 | After `setOut`, output continues on the given stream. |
| StoreEntry.StoreEntryPoint.SetCommandFormat | src/main/java/org/apache/hadoop/fs/store/StoreEntryPoint.java:119-121 | After `setCommandFormat`, the command format is the one given. |
| StoreEntry.StoreEntryPoint.Println | src/main/java/org/apache/hadoop/fs/store/StoreEntryPoint.java:82-85 | `println` appends exactly one line, the text, and leaves all earlier output unchanged. |
| StoreEntry.StoreEntryPoint.Warn | src/main/java/org/apache/hadoop/fs/store/StoreEntryPoint.java:87-90 | `warn` appends exactly one line, `WARNING: ` followed by the text, and leaves earlier output unchanged. |
| StoreEntry.StoreEntryPoint.Heading | src/main/java/org/apache/hadoop/fs/store/StoreEntryPoint.java:97-105 | `heading` appends exactly one line: the text framed by newlines and underlined with one `=` per UTF-16 code unit of the text. Earlier output is unchanged. |
| StoreEntry.StoreEntryPoint.ParseArgs | src/main/java/org/apache/hadoop/fs/store/StoreEntryPoint.java:130-133 | With no arguments the result is the empty list, whatever the command format. Otherwise the command format parses the arguments, and a missing format is a NullPointerException. |

## Left out

- Creating and deleting the temporary probe file (`LocalDirAllocator`, `File.delete`) is filesystem I/O. Its outcome is the `tempFileDir` parameter of `ValidateConfig`.
- `patchConfigurationToInitalization`: it reaches `S3AUtils.propagateBucketOptions` by reflection. S3AUtils is not part of this model.
- `validateFilesystem`: it needs a live `FileSystem` and the superclass `StoreDiagnosticsInfo`, which is not part of this model.
- Classpath probing is left out. The class lists `classnames` and `optionalClassnames` are kept only as data.
- `getName`, `getDescription`, `getHomepage`, `getFilesystemOptions`, `getEnvVars`, `getClassnames` and `getOptionalClassnames` only return constants. They appear as the constants they return.
- `S3AEncryptionMethods.getMethod` is not part of this model. It is the `getMethod` parameter, and its failure for an unknown name is its `Err` result.
- `StoreExitCodes` is not part of this model. `EXIT_USAGE` and `E_ERROR` are the `ExitCodes` parameter.
- `ExitUtil.terminate` is not modelled; `ExitOnThrowable` returns the status and text it would be called with.
- The text `exitOnThrowable` writes to `System.err`, and the stack trace it prints, are not modelled. Of `errorln` only the formatting of its message is modelled, because it decides whether the exit is reached.
- StoreEntry.ExitOnThrowable: when `errorln`'s format throws, the exception leaves `exitOnThrowable`. The model records this as `FormatFailure` and does not follow the exception further.
- JavaStrings.FormatWithoutArguments: only the bare `%%` and `%n` format without an argument. Before `%%` Java also accepts a width, optionally with the `-` flag (`%5%`, `%-5%`), which pads the `%`; the model treats those as failing conversions. Java also ignores an explicit argument index before `%%` or `%n` (`%1$%`, `%2$n`) and formats them without an argument; the model fails them. So, as written, an unknown option message such as `Illegal option -%1$n` reaches the usage exit in Java but gives `FormatFailure` in `ExitOnThrowable`. A width or flag before `%n`, and any `%` conversion that needs an argument, fail in both.
- JavaStrings.FormatFailsOnConversion: its `c` may be a digit or `-`, and the failure it states then also covers the width and argument-index forms of `%%` and `%n` above, which Java formats.
- The text of an `UnknownOptionException` comes from `CommandFormat`, which is not part of this model. The message is a field of the modelled throwable.
- `validateConfig` writes to a `Printout`, an interface that is not part of this model. Its `println`, `warn` and `heading` are modelled by those of `StoreEntryPoint`. ValidateConfig, PrintPreamble, ValidateAfterPreamble, ValidateEncryption, ValidationWarningCount, KmsWithoutKeyWarnsTwice and SseCWithoutKeyFails all rely on this.
- `out.flush()` is not modelled. Logging is not modelled either.
- `getOut` and `run` are left out: `getOut` returns the stream and `run` returns 0.
- `getOption`, `hasOption` and `getOptional` are left out, because they only delegate to `CommandFormat`, which is not part of this model.
- `addAllDefaultXMLFiles`, `maybeAddXMLFileOption`, `maybeAddTokens` and `maybePatchDefined` are left out. They load configuration resources, read token files or rely on `StoreUtils.split`, none of which is part of this model.
- `String.format` with arguments is not modelled. Texts arrive already formatted, and `%n` is written as `"\n"` rather than the platform line separator.
- `StoreDiag.toURI` is not part of this model. URIs are strings, and its `URISyntaxException` is not modelled.
- `BucketState` is not part of this model.
- Configuration.GetBoolean: case-insensitive matching covers only ASCII letters. `String.equalsIgnoreCase` also folds some non-ASCII chars; for example the long s U+017F matches `s`, so `"falſe"` reads as false in Java but gives the default here.
- Configuration.GetOr: the variable expansion (`${...}`) and key deprecation of Hadoop's `Configuration.get` are not modelled. A value is read back as it was set.
- StoreEntry.MissingCommandFormatExitsWithError: the text of the NullPointerException is the bare class name. Newer JVMs add a helpful message to it, which is not modelled.

## Findings

| source | as written | input that shows it | evidently intended | confidence | as-written member | corrected member |
|---|---|---|---|---|---|---|
| src/main/java/org/apache/hadoop/fs/store/StoreEntryPoint.java:179-182 | `errorln(ex.getMessage())` passes the message of an unknown option to `String.format` as the format (line 93), with no arguments | an `UnknownOptionException` whose message is `Illegal option -%d`: the `%d` conversion lacks its argument, so `String.format` throws and `exit(EXIT_USAGE, ...)` is never reached | print the message verbatim, as `errorln("%s", ex.getMessage())` would, and exit with `EXIT_USAGE` | not executed; medium: the message text comes from `CommandFormat`, which echoes the user's argument | StoreEntry.ExitOnThrowable, StoreEntry.UnknownOptionWithConversionEscapes | StoreEntry.ExitOnThrowableCorrected |
