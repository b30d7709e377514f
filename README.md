# cloudsurvey, modelled in Dafny

cloudsurvey reads a configuration that declares credential plugins and source plugins. Each credential plugin gives an
AWS session, optionally derived from a named parent session. Each source plugin is instantiated once for every
session whose scopes match the source's scopes. The sources turn AWS records into data points (`Datum`: a name, a
time, string tags, typed fields). The data points are printed one per line in the InfluxDB line protocol.

This project models that core:

- **Line protocol.** Two printers over the field-value sum type (`Metric.FieldValue`).
  - `Datum.ToInfluxDBLineProtocol` with `encodeField`: the printer the runners call. It sorts tags and fields by
    key and escapes nothing.
  - The `wireProtocolEncoder` buffer object: it escapes with three character tables and counts the fields written.
- **Plugin registries.** The two name-to-factory registries.
- **Runner.** Session resolution and source wiring in `pkg/core/runner.go`, and the older credential loaders in
  `pkg/core/core.go` and `internal/core/core.go`.
- **Record builders and AWS plugins.** `MaxTime`/`MinTime`. The record builders of the IAM user, EC2 instance, Client
  VPN connection, Cost Explorer, CodeBuild and CloudWatch log-group sources. The option precedence of the `aws`
  credentials plugin.

## How the model is built

Every instant and every duration is an integer number of nanoseconds (`Util.Time`). The zero time is Go's zero
`time.Time`. Imperative Go code is imperative Dafny:

- A Go object whose methods update its fields is a class: the string builder, the wire-protocol encoder, the
  registries, the runner, the two cores, the Cost Explorer plugin and the AWS credentials plugin.
- Loops are `for`/`while` loops, each proved against a function that states what the loop computes. Examples:
  `Metric.LineProtocol`, `RunnerSpec.LoadCredentials`, `RunnerSpec.LoadSources`, `IamUsers.UserStatsOf`,
  `CodeBuildBuilds.Pages`.
- The properties are lemmas about those functions. Pure Go helpers are functions.

Go's map iteration order is not fixed. Where the source ranges over a map and the order can change the outcome, the
order is a parameter `order` with `Config.Enumerates(order, m)`, which requires every key exactly once. This covers
the configuration's credential and source groups and a cost group's metrics. The results are proved for every such
order. For the line protocol, `Metric.RangeKeys` promises only the key set and `Metric.SortStrings` only a sorted
permutation, so `ToInfluxDBLineProtocol` is proved independent of the iteration order.

The AWS API, the plugins' configure/init/credential hooks and the clock are inputs:

- Plugin behaviour is the `Registry.Plugins` record of functions.
- Each AWS call is a function parameter, or the records it returned.
- `now` is a parameter.
- A session is an opaque `Registry.Session` value.

## Model

| member | source | states |
|---|---|---|
| Metric.MaxInt | pkg/metric/metric.go:145-151 | the result is one of the two arguments and is not less than either |
| Metric.FieldText | pkg/metric/metric.go:86-143 | fails exactly on nil and on an unknown type; integer, unsigned, time and duration values end in `i`; strings and Stringers are in quotes |
| Metric.StringBuilder.constructor | pkg/metric/metric.go:35 | the builder the printer takes from the pool is empty, since each use resets it before returning it |
| Metric.StringBuilder.WriteString | pkg/metric/metric.go:37 | appends the string to the builder's contents |
| Metric.StringBuilder.WriteByte | pkg/metric/metric.go:48 | appends one character to the builder's contents |
| Metric.EncodeField | pkg/metric/metric.go:86-143 | on an encodable value appends exactly its text and returns no error; on nil or an unknown type returns that error and leaves the builder unchanged |
| Metric.RangeKeys | pkg/metric/metric.go:40-43 | `range` over a map: each key exactly once, in some order |
| Metric.SortStrings | pkg/metric/metric.go:44 | `sort.Strings`: the same keys, strictly ascending |
| Metric.SortedMapKeys | pkg/metric/metric.go:40-44 | the keys of a map in ascending order, whatever the iteration order was |
| Metric.WriteTags | pkg/metric/metric.go:39-52 | appends `,k=v` for every tag in ascending key order, unescaped |
| Metric.WriteTagList | pkg/metric/metric.go:46-52 | the tag loop appends the tag text of the given keys in their order |
| Metric.WriteFields | pkg/metric/metric.go:56-74 | appends all fields in ascending key order, comma-separated with no leading comma; an unencodable field stops it with its error |
| Metric.WriteFieldList | pkg/metric/metric.go:63-74 | the field loop, entry by entry, stopping at the first encoding error |
| Metric.WriteFieldAt | pkg/metric/metric.go:63-74 | one turn of the field loop: appends the next key's entry and extends the section text by it, or returns the error of the whole field section |
| Metric.WriteFieldEntry | pkg/metric/metric.go:64-73 | one entry: a comma unless first, the key, `=`, and the encoded value |
| Metric.FieldsFailureStays | pkg/metric/metric.go:71-73 | once a field fails, the fields after it do not change the outcome |
| Metric.ToInfluxDBLineProtocol | pkg/metric/metric.go:31-84 | returns the name, the sorted tags, a space, the sorted fields, a space and the decimal nanosecond time; on an encoding error returns `""` and that error |
| MetricFacts.FieldTextFails | pkg/metric/metric.go:131-139 | a field fails exactly when it is nil ("field value is nil") or of an unknown type ("unknown field type: name") |
| MetricFacts.FieldsTextFailure | pkg/metric/metric.go:63-74 | the field list fails exactly when one of its fields is unencodable, with the error of the first such field |
| MetricFacts.FieldSectionFailure | pkg/metric/metric.go:56-74 | the fields of a map fail exactly when one is unencodable, with the error of the least such key |
| MetricFacts.LineProtocolFailure | pkg/metric/metric.go:71-73 | a data point fails to print exactly when one of its fields is unencodable, with the least such key's error |
| MetricFacts.BadKeyListed | pkg/metric/metric.go:57-61 | some field of the map is unencodable exactly when some listed key's field is |
| MetricFacts.FirstBadKeyLeast | pkg/metric/metric.go:61-74 | in sorted order, the first unencodable field has the least such key |
| MetricFacts.LastIndex | pkg/metric/metric.go:46-52 | the last position of a character, or its absence (used to read the tag text back) |
| MetricFacts.FirstIndex | pkg/metric/metric.go:46-52 | the first position of a character, or its absence |
| MetricFacts.ReadTagsStep | pkg/metric/metric.go:48-51 | reading back one more `,k=v` adds that tag to what was read |
| MetricFacts.ReadTagsText | pkg/metric/metric.go:46-52 | tag text written from plain keys and values reads back as exactly those tags |
| MetricFacts.TagSectionRoundTrip | pkg/metric/metric.go:39-52 | for tags without `,` or `=` in keys and without `,` in values, the tag section reads back as the tag map |
| MetricFacts.TagsCollide | pkg/metric/metric.go:48-51 | two different data points, one tag `a=1,b=2` and two tags `a=1`,`b=2`, print the same line |
| MetricFacts.IntFieldReadsBack | pkg/metric/metric.go:88-96 | an integer field prints as its decimal text followed by `i`, and that text parses back as the integer |
| MetricFacts.LargeUintUnreadable | pkg/metric/metric.go:103-106 | a `uint64` above the int64 range prints digits that no int64 parse accepts |
| MetricExample.ExampleLine | pkg/metric/metric_test.go:10-35 | the table test's data point prints as `test,tag1=a,tag2=b field1=1i,field2=t 1546398245000000000` |
| MetricExample.ExampleTags | pkg/metric/metric_test.go:14-17 | the tag section of the table test |
| MetricExample.ExampleFields | pkg/metric/metric_test.go:14-17 | the field section of the table test |
| MetricExample.ExampleFieldEntries | pkg/metric/metric_test.go:14-17 | the two field entries of the table test |
| MetricExample.ExampleTime | pkg/metric/metric_test.go:18-25 | the timestamp of 2019-01-02T03:04:05Z is printed as `1546398245000000000` |
| Keys.LessIrreflexive | pkg/metric/metric.go:44 | no key sorts before itself under `sort.Strings`' byte order |
| Keys.LessTransitive | pkg/metric/metric.go:44 | the key order is transitive |
| Keys.LessTotal | pkg/metric/metric.go:44 | two different keys are ordered one way or the other |
| Keys.LessAsymmetric | pkg/metric/metric.go:44 | the key order is asymmetric |
| Keys.Least | pkg/metric/metric.go:44 | a non-empty key set has a least key |
| Keys.SortedKeys | pkg/metric/metric.go:40-44 | the sorted listing of a key set: strictly ascending, with exactly its members |
| Keys.SortedUnique | pkg/metric/metric.go:40-44 | two strictly ascending listings of the same keys are equal, so the order never depends on map iteration |
| Keys.Insert | pkg/metric/metric.go:44 | inserting a new key into a sorted listing keeps it sorted and adds exactly that key |
| Keys.SortedKeysOne | pkg/metric/metric.go:40-44 | a one-key map lists that key |
| Keys.SortedKeysTwo | pkg/metric/metric.go:40-44 | a two-key map lists the lesser key first |
| Decimal.FormatNat | pkg/metric/metric.go:89 | `strconv.FormatInt` on a natural: a non-empty run of digits with no leading zero |
| Decimal.DigitsOfFormat | pkg/metric/metric.go:89 | the printed digits denote the number printed |
| Decimal.FormatInt | pkg/metric/metric.go:89-95 | `strconv.FormatInt(v, 10)`: digits denoting the value, after a minus sign exactly when it is negative |
| Decimal.FormatUint | pkg/metric/metric.go:98-105 | `strconv.FormatUint(v, 10)`: a non-empty run of digits denoting the value |
| Decimal.ParseInt64 | plugins/source/aws/ec2/clientvpn.go:154 | `strconv.ParseInt(s, 10, 64)`: a result is always in the int64 range |
| Decimal.ParseFormatInt | plugins/source/aws/ec2/clientvpn.go:154 | parsing the printed text of any int64 gives it back |
| Decimal.FormatIntInjective | pkg/metric/metric.go:77 | different int64 values are printed differently |
| Encoder.EscapeAppend | pkg/metric/encoder.go:13-17 | a replacer escapes a concatenation piece by piece |
| Encoder.Escape | pkg/metric/encoder.go:13-17 | a replacer never shortens a string, at most doubles it, and a string it does not lengthen is left unchanged |
| Encoder.UnescapeEscape | pkg/metric/encoder.go:13-17 | escaping with any of the three tables can be undone, so no information is lost |
| Encoder.EscapeInjective | pkg/metric/encoder.go:13-17 | different strings escape differently |
| Encoder.FirstEscaped | pkg/metric/encoder.go:13-17 | an escaped string never starts with one of the table's special characters |
| Encoder.EscapePlain | pkg/metric/encoder.go:13-17 | a string with no special character is written unchanged |
| Encoder.ValueText | pkg/metric/encoder.go:53-101 | the encoder agrees with `encodeField` except on strings and Stringers, which it quotes with `"` escaped |
| Encoder.ValueTextAgrees | pkg/metric/encoder.go:53-101 | numbers, booleans, times, nil and unknown types are encoded as in `encodeField` |
| Encoder.QuotedTrailingBackslash | pkg/metric/encoder.go:16 | backslashes are not escaped, so a string ending in `\` prints as `...\"` |
| Encoder.WireProtocolEncoder.constructor | pkg/metric/encoder.go:19-22 | a zero encoder: empty buffer, no field yet |
| Encoder.WireProtocolEncoder.WriteByte | pkg/metric/encoder.go:29 | appends one character, field count unchanged |
| Encoder.WireProtocolEncoder.WriteString | pkg/metric/encoder.go:55 | appends a string, field count unchanged |
| Encoder.WireProtocolEncoder.WriteEscaped | pkg/metric/encoder.go:25 | appends the string escaped with the given table |
| Encoder.WireProtocolEncoder.Measurement | pkg/metric/encoder.go:15-26 | appends the name with `,` and space escaped |
| Encoder.WireProtocolEncoder.Tag | pkg/metric/encoder.go:14-33 | appends `,` + key + `=` + value, both with `,`, `=` and space escaped |
| Encoder.WireProtocolEncoder.QuotedString | pkg/metric/encoder.go:16-39 | appends the string in quotes with each `"` as `\"` |
| Encoder.WireProtocolEncoder.Field | pkg/metric/encoder.go:41-105 | a space before the first field and `,` before later ones, the escaped name, `=`, the value; the count rises by one even when the value fails, and then the head stays in the buffer |
| Encoder.WireProtocolEncoder.WriteValue | pkg/metric/encoder.go:53-104 | appends the value's text, or returns the error and appends nothing |
| Encoder.WireProtocolEncoder.Timestamp | pkg/metric/encoder.go:107-110 | appends a space and the decimal nanoseconds |
| Encoder.WireProtocolEncoder.Reset | pkg/metric/encoder.go:112-115 | empties the buffer and sets the field count to zero |
| EncoderExample.MeasurementCases | pkg/metric/encoder_test.go:9-26 | the measurement table test, including `=` left alone |
| EncoderExample.TagCases | pkg/metric/encoder_test.go:28-47 | the tag table test |
| EncoderExample.FieldNameCase | pkg/metric/encoder_test.go:55 | a field name `f=` is written `f\=` |
| EncoderExample.FieldStringCase | pkg/metric/encoder_test.go:67 | the string `"test"` is written `"\"test\""` |
| Registry.Lookup | pkg/registry/registry.go:16-38 | `GetSource` and `GetCredentials` over a map: found exactly for a registered name, giving its factory; otherwise "source plugin not found: name" or "credential plugin not found: name" |
| Registry.Registry.GetSource | pkg/registry/registry.go:16-24 | the factory registered under the name exactly when there is one; otherwise "source plugin not found: name" |
| Registry.Registry.GetCredentials | pkg/registry/registry.go:30-38 | the factory registered under the name exactly when there is one; otherwise "credential plugin not found: name" |
| Registry.Registry.constructor | pkg/registry/registry.go:7-10 | both maps start empty |
| Registry.Registry.AddSource | pkg/registry/registry.go:12-14 | sets the name in the source map and leaves the credential map alone |
| Registry.Registry.AddCredentials | pkg/registry/registry.go:26-28 | sets the name in the credential map and leaves the source map alone |
| Registry.AddThenLookup | pkg/registry/registry.go:12-38 | after adding, the name gives the new factory and every other name what it gave before, for either kind |
| Registry.AddOverwrites | pkg/registry/registry.go:12-28 | a second add under the same name replaces the first, for either kind |
| InternalRegistry.Find | internal/registry/registry.go:16-18 | a map read: a factory exactly for a registered name |
| InternalRegistry.Registry.constructor | internal/registry/registry.go:3-6 | both maps start empty |
| InternalRegistry.Registry.AddPlugin | internal/registry/registry.go:8-10 | writes only the source map |
| InternalRegistry.Registry.AddCredentials | internal/registry/registry.go:12-14 | writes only the credential map |
| InternalRegistry.Registry.GetCredentials | internal/registry/registry.go:16-18 | never returns an error; an unknown name gives no factory |
| InternalRegistry.AddThenFind | internal/registry/registry.go:12-18 | an added factory is found, and a later add overwrites it |
| Util.MaxTime | internal/util/util.go:8-14 | one of the arguments, not before either, and `a` only when `a` is after `b` or equal to it |
| Util.MinTime | internal/util/util.go:17-23 | one of the arguments, not after either, and `a` only when `a` is before `b` or equal to it |
| Util.Unix | plugins/source/aws/cloudwatch/logs/log_groups.go:77 | `time.Unix(sec, 0)`: an instant on a whole second, `sec` seconds after the epoch |
| Util.MergeStringMaps | pkg/core/runner.go:199 | every key of every map is kept, and the last map's values win |
| Util.MergeStringMapsKeys | pkg/core/runner.go:199 | no key other than the maps' keys |
| Util.MergeStringMapsValue | pkg/core/runner.go:199 | a key has the value of the last map that holds it |
| Wrappers.Wrap | internal/core/core.go:23 | `errors.Wrap` text: it starts with the message and ends with the wrapped error's text, joined by `: ` |
| Util.MergeTwo | pkg/core/runner.go:199 | merging two tag maps is their union with the second map winning |
| Util.MergeOne | pkg/core/runner.go:166 | merging one tag map gives that map |
| RunnerSpec.FindSession | pkg/core/runner.go:99-111 | the first session with that non-empty name; none for the empty name or when no session has it |
| RunnerSpec.ScopeMatches | pkg/core/runner.go:113-129 | indices of sessions whose scopes contain the scope, ascending and so each once |
| RunnerSpec.ScopeMatchesComplete | pkg/core/runner.go:117-125 | every session with the scope is matched |
| RunnerSpec.Pick | pkg/core/runner.go:185 | the sessions at the matched indices, in order |
| RunnerSpec.Named | pkg/core/runner.go:18-19 | pairs every declaration of one plugin name with that name, in order |
| RunnerSpec.TargetsAppend | pkg/core/runner.go:179-185 | the sessions of two runs of scopes are those of each, one after the other |
| RunnerSpec.WireErrorStays | pkg/core/runner.go:187-195 | once wiring a session fails, the later sessions change nothing |
| RunnerSpec.DeclarationsAppend | pkg/core/runner.go:18-19 | the declarations of two runs of plugin names are those of each, one after the other |
| RunnerSpec.LoadCredentialsErrorStays | pkg/core/runner.go:18-24 | once a credential declaration fails, the later ones change nothing |
| RunnerSpec.LoadSourcesErrorStays | pkg/core/runner.go:26-32 | once a source declaration fails, the later ones change nothing |
| CoreRunner.Runner.constructor | pkg/core/runner.go:16 | an empty runner |
| CoreRunner.Runner.GetSessionByName | pkg/core/runner.go:99-111 | the scanning loop returns the first session with that name, or "session not found: name" |
| CoreRunner.Runner.GetSessionsByScope | pkg/core/runner.go:113-129 | the loop returns exactly the matching sessions, in `Sessions` order, each once, and never errors |
| CoreRunner.Runner.LoadCredentialPlugin | pkg/core/runner.go:131-171 | appends exactly the session the declaration yields, or returns its error and appends nothing; sources untouched |
| CoreRunner.Runner.LoadSourcePlugin | pkg/core/runner.go:173-206 | appends one source instance per (listed scope, matching session) up to the first error, which it returns; sessions untouched |
| CoreRunner.Runner.WireScope | pkg/core/runner.go:185-202 | the sessions of one scope, wired one after the other |
| CoreRunner.Runner.WireAt | pkg/core/runner.go:185-202 | one step of that loop |
| CoreRunner.Runner.WireOne | pkg/core/runner.go:186-201 | one session wired: the factory, configure, init, then the instance appended |
| CoreRunner.Runner.LoadCredentialGroup | pkg/core/runner.go:19-23 | the declarations of one credential plugin, loaded in order up to the first error |
| CoreRunner.Runner.LoadCredentialAt | pkg/core/runner.go:19-23 | one step of that loop |
| CoreRunner.Runner.LoadSourceGroup | pkg/core/runner.go:27-31 | the declarations of one source plugin, wired in order up to the first error |
| CoreRunner.NewRunner | pkg/core/runner.go:15-35 | loads all credentials before any source, fails with the first error and no runner, and otherwise returns a runner whose sessions and sources are those the declarations yield |
| RunnerFacts.CredentialUnknownPlugin | pkg/core/runner.go:132-135 | an unregistered credential plugin fails with the registry's error |
| RunnerFacts.CredentialUnknownParent | pkg/core/runner.go:138-142 | a `from` naming no loaded session fails with "session not found: from" |
| RunnerFacts.CredentialLoaded | pkg/core/runner.go:137-168 | a loaded session carries the declaration's name and tags, no scopes, and the handle made from the parent's session when `from` is set |
| RunnerFacts.LoadedSessionsUnscoped | pkg/core/runner.go:164-168 | every session `NewRunner` loads has an empty scope list |
| RunnerFacts.UnscopedMatches | pkg/core/runner.go:113-129 | no scope matches a session with no scopes |
| RunnerFacts.UnscopedTargets | pkg/core/runner.go:179-185 | so no listed scope targets any session |
| RunnerFacts.UnscopedSourceStep | pkg/core/runner.go:173-206 | a source declaration then adds nothing, and fails exactly when its plugin is unregistered |
| RunnerFacts.UnscopedSources | pkg/core/runner.go:26-32 | all source declarations together add nothing, and fail exactly when some plugin is unregistered |
| RunnerFacts.NoSourceEverWired | pkg/core/runner.go:15-35 | whatever the configuration, `NewRunner` wires no source |
| RunnerFacts.SourceInstanceTags | pkg/core/runner.go:198-201 | a source instance's tags are the session's tags overridden by the declaration's |
| RunnerFacts.WireOutcome | pkg/core/runner.go:185-202 | wiring gives one instance per targeted session in order, or stops at the first failing session with its error |
| RunnerFacts.RepeatedScope | pkg/core/runner.go:179-185 | a scope listed twice targets its sessions twice |
| RunnerExample.DependentSessions | pkg/core/runner_test.go:20-35 | the test's two credentials load, the second from the first's session, and no source is declared |
| RunnerExample.ScopedSourceAsWritten | pkg/core/runner_test.go:37-63 | as written, the scoped test's two sessions load but its source is wired to none of them |
| RunnerExample.ScopedSourceIntended | pkg/core/runner_test.go:57-61 | with the scopes recorded on the sessions, the source is wired twice with the merged tags the test expects |
| RunnerExample.IntendedWiring | pkg/core/runner_test.go:57-61 | two sessions with the scope yield one instance each, in order |
| RunnerExample.BothTargeted | pkg/core/runner.go:179-185 | both sessions with the scope are targeted |
| PkgCore.CredentialStepOutcome | pkg/core/core.go:83-107 | unknown plugin first, then "not implemented" for `from`, then "configure: ..." and "initializer: ..." wrapping, and otherwise the plugin object |
| PkgCore.InitAllOutcome | pkg/core/core.go:69-81 | loads every declaration in order, or stops at the first failing one with its error |
| PkgCore.InitAllErrorStays | pkg/core/core.go:70-76 | once a declaration fails, the later ones change nothing |
| PkgCore.FromAlwaysFails | pkg/core/core.go:89-91 | any declaration with `from` makes `init` fail |
| PkgCore.Core.constructor | pkg/core/core.go:26 | an empty core |
| PkgCore.Core.LoadCredentialPlugin | pkg/core/core.go:83-107 | appends exactly the plugin the declaration yields, or returns its error and appends nothing; `Credentials()` is never called |
| PkgCore.Core.LoadAt | pkg/core/core.go:71-75 | one step of the inner loop |
| PkgCore.Core.LoadGroup | pkg/core/core.go:71-75 | the declarations of one plugin, in order up to the first error |
| PkgCore.Core.Init | pkg/core/core.go:69-81 | `init` loads the declarations into `credentials` and stops at the first error; `sources` stays as it was |
| PkgCore.Run | pkg/core/core.go:25-29 | an init failure is returned wrapped as "init core: ..." |
| InternalCore.UnknownPluginUnreported | internal/core/core.go:76-85 | an unknown plugin is never reported: `from` gives "not implemented", and otherwise the nil factory is called |
| InternalCore.KnownPluginAgrees | internal/core/core.go:75-99 | for a registered plugin the loader behaves as the pkg/core one |
| InternalCore.InitAllOutcome | internal/core/core.go:61-73 | loads every declaration in order, or stops at the first failure or crash |
| InternalCore.InitAllEndStays | internal/core/core.go:62-68 | once a declaration fails or crashes, the later ones change nothing |
| InternalCore.Core.constructor | internal/core/core.go:21 | an empty core |
| InternalCore.Core.LoadCredentialPlugin | internal/core/core.go:75-99 | appends the plugin, returns the error, or records the crash |
| InternalCore.Core.LoadAt | internal/core/core.go:63-67 | one step of the inner loop |
| InternalCore.Core.LoadGroup | internal/core/core.go:63-67 | the declarations of one plugin |
| InternalCore.Core.Init | internal/core/core.go:61-73 | `init` loads into `credentials` up to the first error or crash; `sources` stays as it was |
| InternalCore.Run | internal/core/core.go:20-24 | an init failure is returned wrapped as "init core: ..." |
| IamUsers.LastUsedTimes | plugins/source/aws/iam/users.go:115-118 | one last-used time per key, or the first lookup error |
| IamUsers.LatestKeyActivity | plugins/source/aws/iam/users.go:120 | the running `MaxTime` never goes before the zero time |
| IamUsers.UserStats | plugins/source/aws/iam/users.go:77-149 | the data point `UserStatsOf` describes, or an empty data point with the listing or lookup error |
| IamUsers.ScanKeys | plugins/source/aws/iam/users.go:106-122 | the key loop computes the active count, the oldest creation, the latest key use and the latest activity, or stops at a lookup error |
| IamUsers.KeyFields | plugins/source/aws/iam/users.go:124-140 | fills the key and activity fields from those accumulators |
| IamUsers.AddUserTags | plugins/source/aws/iam/users.go:142-146 | adds `tag_<key>` for each user tag, later ones winning |
| IamUsers.LastUsedFailureStays | plugins/source/aws/iam/users.go:115-118 | once a lookup fails, the later keys change nothing |
| IamUsersFacts.Statuses | plugins/source/aws/iam/users.go:107 | the keys' statuses, in order |
| IamUsersFacts.ActiveKeysCounted | plugins/source/aws/iam/users.go:106-109 | the active count is the number of keys whose status is exactly "active" |
| IamUsersFacts.OldestIsEarliest | plugins/source/aws/iam/users.go:111-113 | for keys with real creation dates, the oldest is zero exactly when there is no key, and otherwise it is a key's date and none is earlier |
| IamUsersFacts.LatestIsLatest | plugins/source/aws/iam/users.go:120 | the latest key activity is not before any key's last use, and is one of them or zero |
| IamUsersFacts.LastActivityIsLatest | plugins/source/aws/iam/users.go:101-121 | the last activity is not before the login or any key use, and is the login or the latest key use |
| IamUsersFacts.UserFieldsAlways | plugins/source/aws/iam/users.go:89-128 | `age` and `active_key_count` are always present, and no field outside the six names |
| IamUsersFacts.OldestKeyField | plugins/source/aws/iam/users.go:124-126 | `oldest_key_age` is present exactly when an oldest key exists, as now minus its creation |
| IamUsersFacts.ActivityFields | plugins/source/aws/iam/users.go:130-140 | `since_last_activity`, and within it the login and key activity fields, are present exactly when their time is non-zero |
| IamUsersFacts.TagKeyShape | plugins/source/aws/iam/users.go:144 | every `tag_` key is recognised as one, with the user's key after the prefix |
| IamUsersFacts.WithUserTagsKeeps | plugins/source/aws/iam/users.go:142-146 | adding user tags keeps every other tag and adds only `tag_` keys |
| IamUsersFacts.WithUserTagsSets | plugins/source/aws/iam/users.go:142-146 | every user tag appears, with the value of its last occurrence |
| IamUsersFacts.UserTagsNamePath | plugins/source/aws/iam/users.go:86-95 | `user_name` is always tagged, and `user_path` exactly unless omitted |
| IamUsersFacts.UserTagsCarried | plugins/source/aws/iam/users.go:142-146 | each user tag is carried exactly unless omitted |
| IamUsersFacts.UserTagsNothingElse | plugins/source/aws/iam/users.go:86-146 | no tag other than the name, the path and the user's tags |
| IamUsersFacts.LastUsedTimesOutcome | plugins/source/aws/iam/users.go:106-122 | the lookups succeed exactly when each key's does, in key order, and otherwise the error is the first failing key's |
| IamUsersFacts.BobExample | plugins/source/aws/iam/users_test.go:38-103 | the test user `bob` gives the expected tags and fields |
| Ec2Instances.Oneof | plugins/source/aws/ec2/instances.go:159-165 | a non-nil, non-empty value wins; otherwise the default |
| Ec2Instances.BeforeDot | plugins/source/aws/ec2/instances.go:172 | the prefix before the first `.`, or the whole string |
| Ec2Instances.BeforeDotOf | plugins/source/aws/ec2/instances.go:172 | a dot-free prefix followed by `.` is what the split returns |
| Ec2Instances.InstanceFamily | plugins/source/aws/ec2/instances.go:167-173 | loose: the first two characters; strict: the prefix before the first `.` |
| Ec2Instances.InstanceFamilyExamples | plugins/source/aws/ec2/instances_test.go:10-26 | the family table test |
| Ec2Instances.ImageCreationDate | plugins/source/aws/ec2/instances.go:175-181 | nil fails with "cannot parse nil time" and the zero time; a parsed date is returned; text that does not parse gives the zero time and the parse error |
| Ec2Instances.InstanceStats | plugins/source/aws/ec2/instances.go:106-138 | never fails, and builds the data point from the instance's tags and fields below |
| Ec2Instances.InstanceTagsFacts | plugins/source/aws/ec2/instances.go:116-129 | the seven tags always, with `linux` and `normal` defaults, and `image_name` exactly when image details are wanted and found |
| Ec2Instances.InstanceFieldsFacts | plugins/source/aws/ec2/instances.go:123-133 | `age` always; `image_age` exactly when the image was found and its date parsed |
| Ec2ClientVpn.ConnectionStats | plugins/source/aws/ec2/clientvpn.go:110-160 | never fails, and the data point has the connection metric name, time now, and the tags and fields below |
| Ec2ClientVpn.WithCountersSets | plugins/source/aws/ec2/clientvpn.go:149-157 | each counter is set exactly when its text is present and parses as a base-10 int64 |
| Ec2ClientVpn.WithCountersKeeps | plugins/source/aws/ec2/clientvpn.go:149-157 | a counter that does not parse leaves every other field as it was |
| Ec2ClientVpn.WithCountersAddsOnlyNames | plugins/source/aws/ec2/clientvpn.go:139-157 | only the counter names are added |
| Ec2ClientVpn.ConnectionTagsFacts | plugins/source/aws/ec2/clientvpn.go:123-133 | `endpoint_id` and `status` always; `common_name` and `username` exactly when present |
| Ec2ClientVpn.ConnectionFieldsFacts | plugins/source/aws/ec2/clientvpn.go:135-157 | `age` exactly when the time parses; each counter exactly when it parses; nothing else |
| CostExplorerDaily.Defaulted | plugins/source/aws/costexplorer/daily.go:54-60 | an empty list is replaced by the defaults, any other kept |
| CostExplorerDaily.Lower | plugins/source/aws/costexplorer/daily.go:131 | `strings.ToLower`, character by character |
| CostExplorerDaily.Daily.constructor | plugins/source/aws/costexplorer/daily.go:46-51 | the plugin holds exactly the configured metrics and groups |
| CostExplorerDaily.Daily.Init | plugins/source/aws/costexplorer/daily.go:53-63 | fills in the default metrics and groups only where empty, and never fails |
| CostExplorerDaily.Daily.Request | plugins/source/aws/costexplorer/daily.go:77-102 | with no group, "at least one group is required"; otherwise a DAILY request from now-48h to now-24h with one DIMENSION group-by per group in order |
| CostExplorerDaily.Daily.UsageStats | plugins/source/aws/costexplorer/daily.go:121-148 | the data point `UsageStatsOf` describes, or an empty one with the error |
| CostExplorerDaily.Daily.Source | plugins/source/aws/costexplorer/daily.go:76-119 | fails before any request with no group, returns the request's error, and otherwise records the reply groups' data points in order up to the first failing group, whose error it returns |
| CostExplorerDaily.MetricFailureStays | plugins/source/aws/costexplorer/daily.go:134-145 | once a metric fails, the later ones change nothing |
| CostExplorerDailyFacts.DefaultsSettle | plugins/source/aws/costexplorer/daily.go:53-63 | `Init` twice is `Init` once, and leaves both lists non-empty |
| CostExplorerDailyFacts.MetricFieldsSucceed | plugins/source/aws/costexplorer/daily.go:134-145 | the metrics convert exactly when each one does |
| CostExplorerDailyFacts.MetricFieldsHold | plugins/source/aws/costexplorer/daily.go:134-145 | when each converts, the fields are exactly the metrics' amounts by name |
| CostExplorerDailyFacts.MetricFieldsFail | plugins/source/aws/costexplorer/daily.go:134-142 | a failure is the first failing metric's error |
| CostExplorerDailyFacts.UsageStatsSucceeds | plugins/source/aws/costexplorer/daily.go:134-137 | succeeds exactly when every metric converts, and any non-USD unit fails |
| CostExplorerDailyFacts.UsageStatsHolds | plugins/source/aws/costexplorer/daily.go:121-148 | with USD amounts that parse: the cost metric, at now-24h, with the group tags and one field per metric |
| CostExplorerDailyFacts.GroupTagsNamed | plugins/source/aws/costexplorer/daily.go:130-132 | every group is tagged under its lower-case name |
| CostExplorerDailyFacts.GroupTagsValue | plugins/source/aws/costexplorer/daily.go:130-132 | a group's tag is the key at its position, unless a later group has the same lower-case name |
| CostExplorerDailyFacts.GroupTagsOnlyNames | plugins/source/aws/costexplorer/daily.go:130-132 | no tag other than the groups' names |
| CostExplorerDailyFacts.DefaultGroupTags | plugins/source/aws/costexplorer/daily.go:130-132 | the default groups give exactly the tags `service` and `az` |
| CostExplorerDailyFacts.InitThenSource | plugins/source/aws/costexplorer/daily.go:53-148 | a plugin declared with no lists, after `Init`, records the one USD group of a reply as a cost data point tagged `service` and `az`, with no error |
| CodeBuildBuilds.ScanBatch | plugins/source/aws/codebuild/builds.go:93-106 | the inner loop: hands on finished complete builds up to the first past the cut-off, and says whether it reached it |
| CodeBuildBuilds.ListBuilds | plugins/source/aws/codebuild/builds.go:75-111 | the paging loop, with the page token carried forward, as `Pages` describes |
| CodeBuildBuilds.Prefixed | plugins/source/aws/codebuild/builds.go:80-107 | builds handed on earlier stay before those of the rest of the listing |
| CodeBuildBuilds.PagesEmitFinished | plugins/source/aws/codebuild/builds.go:93-105 | every build handed on has an end time not before the cut-off and is complete |
| CodeBuildBuilds.ScanEmitsFinished | plugins/source/aws/codebuild/builds.go:93-105 | the same for one batch |
| CodeBuildBuilds.BuildStats | plugins/source/aws/codebuild/builds.go:113-127 | never fails; `project_name` and `status` tags and `duration` = end - start |
| CodeBuildBuilds.Source | plugins/source/aws/codebuild/builds.go:48-73 | lists from now - since, records one data point per build handed on in order, and returns the listing's error |
| CodeBuildBuildsFacts.KeptCons | plugins/source/aws/codebuild/builds.go:93-105 | which builds a batch keeps, one build at a time |
| CodeBuildBuildsFacts.ScanIsKeptBeforeCutoff | plugins/source/aws/codebuild/builds.go:93-106 | a batch reaches the cut-off exactly when a build is past it, and hands on exactly the finished complete builds before the first such |
| CodeBuildBuildsFacts.RelistsFromStart | plugins/source/aws/codebuild/builds.go:80-107 | a last page with no next token and no cut-off is listed again and again |
| CodeBuildBuildsFacts.RelistedTwice | plugins/source/aws/codebuild/builds.go:85 | so one finished build is handed on twice in two pages |
| CodeBuildBuildsFacts.FirstListFails | plugins/source/aws/codebuild/builds.go:81-84 | a failing first list call hands on nothing and returns its error |
| CodeBuildBuildsFacts.KeptAppend | plugins/source/aws/codebuild/builds.go:93-105 | the builds kept from two runs in a row are those of the first, then those of the second |
| CodeBuildBuildsFacts.IntendedStep | plugins/source/aws/codebuild/builds.go:80-107 | one page of the intended listing: stop at the cut-off, stop after a page with no next token, otherwise go on with the next token |
| CodeBuildBuildsFacts.IntendedListsKept | plugins/source/aws/codebuild/builds.go:80-107 | the intended listing over served pages hands on exactly the builds kept from their concatenation before the first past the cut-off, each once, and ends at the cut-off or after the last page |
| CodeBuildBuildsFacts.IntendedCutInFirst | plugins/source/aws/codebuild/builds.go:93-97 | a cut-off within the first page ends the listing with the builds kept before it |
| CodeBuildBuildsFacts.IntendedPastFirst | plugins/source/aws/codebuild/builds.go:80-107 | a first page without the cut-off is followed by the listing of the remaining pages |
| CodeBuildBuildsFacts.IntendedListedOnce | plugins/source/aws/codebuild/builds.go:85 | the single finished build that the loop as written hands on twice is handed on once by the intended listing |
| LogGroups.MillisToSeconds | plugins/source/aws/cloudwatch/logs/log_groups.go:77 | `ms/1000` truncates toward zero: whole seconds, within one second of the exact value |
| LogGroups.LogGroupStats | plugins/source/aws/cloudwatch/logs/log_groups.go:63-104 | never fails, and builds the group's data point |
| LogGroups.RecordPage | plugins/source/aws/cloudwatch/logs/log_groups.go:51-57 | records every group of a page, in order |
| LogGroups.Source | plugins/source/aws/cloudwatch/logs/log_groups.go:47-61 | records every group of every delivered page, in order, and returns the paging call's error |
| LogGroupsFacts.LogGroupTagsFacts | plugins/source/aws/cloudwatch/logs/log_groups.go:76-91 | `name` always; `retention` exactly unless omitted, `infinite` without a retention |
| LogGroupsFacts.RetentionTagReadsBack | plugins/source/aws/cloudwatch/logs/log_groups.go:87 | a retention tag is the days' decimal text and `d`, reads back as the days, and is never `infinite` |
| LogGroupsFacts.LogGroupFieldsFacts | plugins/source/aws/cloudwatch/logs/log_groups.go:77-101 | `age`, `metric_filter_count` and `stored_bytes` always (0 for absent counts), `retention_in_days` exactly when a non-zero retention is set |
| LogGroupsFacts.CreatedWithinASecond | plugins/source/aws/cloudwatch/logs/log_groups.go:77 | dropping the milliseconds moves the creation toward the epoch by less than a second |
| LogGroupsFacts.MillisToSecondsExamples | plugins/source/aws/cloudwatch/logs/log_groups.go:77 | 1500 ms is 1 s and -1500 ms is -1 s, where a Euclidean division would give -2 |
| LogGroupsFacts.PagesStatsAppend | plugins/source/aws/cloudwatch/logs/log_groups.go:49-60 | the data points of two runs of pages are those of each, one after the other |
| LogGroupsFacts.EveryGroupRecorded | plugins/source/aws/cloudwatch/logs/log_groups.go:49-60 | every group of every page is recorded, at its place in the run |
| AwsCredentials.Aws.Factory | plugins/credentials/aws/aws.go:11-21 | an unconfigured plugin whose parent is the given session, if any |
| AwsCredentials.Aws.Init | plugins/credentials/aws/aws.go:38-77 | never fails, changes no configured field, and keeps the session made from the options `OptionsFor` chooses |
| AwsCredentials.Aws.Credentials | plugins/credentials/aws/aws.go:90-92 | the session `Init` made, with no error |
| AwsCredentials.SharedConfigEnabled | plugins/credentials/aws/aws.go:41-43 | shared config is enabled exactly when the option is absent or true |
| AwsCredentials.ProfileFirst | plugins/credentials/aws/aws.go:45-46 | a profile wins and no credentials are set |
| AwsCredentials.RoleSecond | plugins/credentials/aws/aws.go:47-62 | without a profile a role is assumed, from the parent or from a fresh session, with the external id and session name set only when given |
| AwsCredentials.StaticLast | plugins/credentials/aws/aws.go:63-68 | without a profile or role, static credentials exactly when a key id, secret or token is given |
| AwsCredentials.RegionWhenGiven | plugins/credentials/aws/aws.go:70-72 | the region is set exactly when given |
| AwsCredentials.ParentOnlyForRole | plugins/credentials/aws/aws.go:47-51 | the parent session matters only when a role is assumed |

## Gaps the proofs show

The model follows the code as written. Where that differs from what the tests expect, or from what the code's own
comments and structure suggest, a lemma shows the difference.

- **Scopes are never recorded on a session.** `loadCredentialPlugin` builds each `SessionInstance` without the
  declaration's scopes (pkg/core/runner.go:164-168). So no scope ever matches
  (`RunnerFacts.LoadedSessionsUnscoped`, `RunnerFacts.UnscopedSources`), and `NewRunner` never wires a source
  (`RunnerFacts.NoSourceEverWired`). The scoped runner test expects two sources. `RunnerExample.ScopedSourceAsWritten`
  shows that the code as written gives none. `RunnerExample.ScopedSourceIntended` shows the two expected instances
  once the scopes are present.
- **No de-duplication across scopes.** `getSessionsByScope` keeps a session once even when it lists the scope more
  than once, but only within one scope (pkg/core/runner.go:113-129). `loadSourcePlugin` calls it once per listed scope
  (pkg/core/runner.go:179-203), so a session matched by two scopes of one declaration gets one instance per scope
  (`RunnerFacts.RepeatedScope`).
- **No escaping in the printer the runners use.** `ToInfluxDBLineProtocol` writes names, tag keys, tag values and
  strings verbatim (pkg/metric/metric.go:48-51 and 107-110), although `Datum` is documented as following the InfluxDB
  line protocol (pkg/metric/metric.go:14-15), which escapes these characters. Two different data points
  can then print the same line (`MetricFacts.TagsCollide`). The escaping, unused, encoder is modelled as well: its
  escaping loses nothing (`Encoder.UnescapeEscape`).
- **Large `uint64` values.** A `uint64` above the int64 range prints digits that an int64 reader rejects
  (`MetricFacts.LargeUintUnreadable`).
- **Unknown plugins in the internal core.** The internal registry never reports a missing plugin, so the internal
  loader calls a nil factory (`InternalCore.UnknownPluginUnreported`). Such a call is modelled as a crash outcome.
  As written, this call does not compile either: internal/core/core.go:85 calls `init(nil)`, but
  `InitCredentials` takes no argument (internal/registry/interface.go:28). The model reads it as a call of the factory.
- **`from` in the older cores.** Both older cores reject every `from` declaration
  (`PkgCore.FromAlwaysFails`); only the runner resolves parents.
- **CodeBuild paging.** The listing loop carries the next token forward, but a nil token means "start over". So a
  listing that reaches its last page without the cut-off lists the newest builds again
  (`CodeBuildBuildsFacts.RelistsFromStart`, `CodeBuildBuildsFacts.RelistedTwice`). The evidently intended listing,
  `CodeBuildBuildsFacts.IntendedPages`, stops after a page without a next token. It hands on exactly the kept builds
  of the pages up to the cut-off, each once (`CodeBuildBuildsFacts.IntendedListsKept`,
  `CodeBuildBuildsFacts.IntendedListedOnce`). The source model `CodeBuildBuilds.Source` keeps the loop as written.
- **Encoding errors end the process.** An encoding error does not just fail the source that recorded the data
  point: the code calls `log.Fatal` on it (pkg/core/core.go:52-55), which ends the whole process. The model leaves
  this out with the rest of `Run`.
- As written, the pkg/core package does not compile. `registry.Credential` is not declared in
  pkg/registry/interface.go, and `newline` is declared in both pkg/core/core.go and pkg/core/runner.go. The model follows the evident intent of each function.

## Left out

- Concurrency: the `Run` pipelines of the runner and both cores, each source's errgroup fan-out, channels, the
  `ChannelCollector`, the `sync.Pool` of builders and the EC2 image cache. The sequential `Source` models keep the
  order in which a source records its data points; the interleaving across sources is not modelled.
- The AWS SDK: every `*WithContext` call and pager, `session.NewSessionWithOptions`, `session.Must` and `stscreds`.
  Their results are inputs. A session constructor panic is not modelled.
- Floating point: `FormatFloat` and `ParseFloat`. A float field is an opaque value with its text.
- Time parsing and formatting with library layouts, and the date strings of the Cost Explorer request. A parsed
  time is an input that either parsed or did not. The request window is kept as two instants.
- `time.Sub` saturation at the limits of `time.Duration`: durations are plain differences.
- Configuration loading and `Configure`: TOML parsing, `ApplyEnvironmentVariables`, and how plugin options are
  decoded. A plugin's configuration is an opaque tree, and configure and init are functions of the plugin record.
- The command line, the line writers, the context clock (`now` is a parameter), and `log.Fatal`/`log.Printf`.
- `MetricTagOverrideCollector` is not modelled.
- `Util.MergeStringMaps`: its source (internal/util) is not part of this model. It is taken as given: a union in which
  a later map wins on a shared key, as `Util.MergeTwo` and `Util.MergeOne` state and the runner test expects.
- Nil-pointer panics on absent AWS fields: the model takes such fields as present. This covers
  `*build.BuildComplete`, `*build.StartTime`, `ResultsByTime[0]` (the reply is the first result's groups) and
  the dereferences in the record builders.
- Ec2Instances.InstanceFamily: requires at least two characters in loose mode, where the source would panic on a
  shorter instance type.
- CostExplorerDaily.Daily.UsageStats: requires at least as many group keys as groups, where the source would panic.
- CostExplorerDaily.Daily.Source: requires every group of the reply to carry at least as many keys as there are
  groups, where the source would panic in `usageStats`, and takes `order` to visit each group's metrics once.
- Metric.ToInfluxDBLineProtocol, Metric.EncodeField, Encoder.WireProtocolEncoder.Timestamp and
  Encoder.WireProtocolEncoder.WriteValue: a `Time` is the exact count of nanoseconds since the epoch. Go prints
  `UnixNano()`, an int64, which is that count only for instants between the years 1678 and 2262; outside that range
  (the zero time among them) the model prints the exact count where Go's value is undefined.
- CostExplorerDaily.Lower: folds ASCII letters only, where `strings.ToLower` folds all of Unicode.
- CodeBuildBuilds.ListBuilds: pages are bounded by `fuel`, where the source loops without bound. Running out of
  fuel is the `Exhausted` outcome.
- Go pointers as identities: a session is compared by value and identified by its index in `Sessions`.
- `Description` and `DefaultConfig` strings, and plugin registration in `init` functions.
